/** What the calls of the ring buffer under a mutex come to: one that waits is never declined, what is
    put or consumed is announced to the other side, and every step brings a call nearer to its end
    unless it goes to sleep on a full or an empty queue. */
module LockedRingProgress {
  import opened Memory
  import opened QueueSpec
  import opened Runs
  import opened LockedRing
  import opened LockedRingTheorems

  // Blocking calls.

  /** Between states m and n of the run, thread t does not return. */
  ghost predicate InCall(r: seq<State>, m: nat, n: nat, t: Tid) {
    m <= n < |r| && forall k :: m <= k <= n ==> t < |r[k].th| && r[k].th[t] != Idle
  }

  /** In every run, a produce ends with its value accepted and a consume with a value: a call that
      waits is never declined, however often its wait ends spuriously. */
  lemma RunNeverDeclined(r: seq<State>, m: nat, n: nat, t: Tid, call: Call)
    requires Run(r) && InCall(r, m, n, t) && OpOf(r[m].th[t]) == Called(call) && call.waits
    ensures OpOf(r[n].th[t]) == Called(call) || OpOf(r[n].th[t]).Finished?
    ensures OpOf(r[n].th[t]).Finished? ==>
      if call.Put? then OpOf(r[n].th[t]).result == Accepted else OpOf(r[n].th[t]).result.Got?
  {
    RunLinearizable(r);
    var h := Trace(r, Abstract);
    forall k | m <= k <= n
      ensures t < |h[k].ops| && h[k].ops[t] == OpOf(r[k].th[t]) != Ready
    {
    }
    NeverDeclined(h, m, n, t, call);
  }

  // Notifications.

  /** The step from s to s' is the notification of thread t: a thread asleep in the wait of the other
      side wakes, if there is one. */
  ghost predicate NotifiesTaker(s: State, s': State, t: Tid) {
    && t < |s.th| == |s'.th| && s.th[t].PutNotify? && !s'.th[t].PutNotify?
    && (|| (exists u :: 0 <= u < |s.th| && s.th[u].TakeAsleep? && s'.th[u].TakeWoken?)
        || (forall u :: 0 <= u < |s.th| ==> !s.th[u].TakeAsleep?))
  }

  ghost predicate NotifiesPutter(s: State, s': State, t: Tid) {
    && t < |s.th| == |s'.th| && s.th[t].TakeNotify? && !s'.th[t].TakeNotify?
    && (|| (exists u :: 0 <= u < |s.th| && s.th[u].PutAsleep? && s'.th[u].PutWoken?)
        || (forall u :: 0 <= u < |s.th| ==> !s.th[u].PutAsleep?))
  }

  /** What a step does to a thread in the middle of a call. */
  ghost predicate Announces(s: State, s': State, t: Tid) {
    && t < |s.th| == |s'.th|
    && (OpOf(s.th[t]) == Called(Take(true)) ==> OpOf(s'.th[t]) == Called(Take(true)) || s'.th[t].TakeNotify?)
    && (s.th[t].TakeNotify? ==> s'.th[t].TakeNotify? || NotifiesPutter(s, s', t))
    && (OpOf(s.th[t]).Called? && OpOf(s.th[t]).call.Put? ==>
          OpOf(s'.th[t]) in {OpOf(s.th[t]), Finished(Declined)} || s'.th[t].PutNotify?)
    && (s.th[t].PutNotify? ==> s'.th[t].PutNotify? || NotifiesTaker(s, s', t))
    && (OpOf(s.th[t]) == Finished(Declined) ==> OpOf(s'.th[t]) in {Finished(Declined), Ready})
  }

  lemma OwnAnnounces(s: State, t: Tid, c: Choice)
    requires Enabled(s, t, c)
    ensures Announces(s, Step(s, t, c), t)
  {
    if s.th[t].PutNotify? && c.Wake? {
      assert Step(s, t, c).th[c.u].TakeWoken?;
    } else if s.th[t].TakeNotify? && c.Wake? {
      assert Step(s, t, c).th[c.u].PutWoken?;
    }
  }

  lemma OthersAnnounce(s: State, u: Tid, c: Choice, t: Tid)
    requires Enabled(s, u, c) && t < |s.th| && t != u
    ensures Announces(s, Step(s, u, c), t)
  {
  }

  lemma NextAnnounces(s: State, s': State, t: Tid)
    requires Next(s, s') && t < |s.th|
    ensures Announces(s, s', t)
  {
    var u, c :| Enabled(s, u, c) && s' == Step(s, u, c);
    if u == t {
      OwnAnnounces(s, t, c);
    } else {
      OthersAnnounce(s, u, c, t);
    }
  }

  /** In every run, a consume does not return before it has notified the producers. */
  lemma {:induction false} ConsumeNotifies(r: seq<State>, m: nat, n: nat, t: Tid)
    requires Run(r) && m < n < |r| && InCall(r, m, n - 1, t) && t < |r[n].th|
    requires OpOf(r[m].th[t]) == Called(Take(true))
    ensures || OpOf(r[n].th[t]) == Called(Take(true)) || r[n].th[t].TakeNotify?
            || exists k :: m < k < n && NotifiesPutter(r[k], r[k + 1], t)
  {
    StepAt(r, Init, Next, n - 1);
    NextAnnounces(r[n - 1], r[n], t);
    if n - 1 > m {
      ConsumeNotifies(r, m, n - 1, t);
      if r[n - 1].th[t].TakeNotify? && !r[n].th[t].TakeNotify? {
        assert NotifiesPutter(r[n - 1], r[n - 1 + 1], t);
      }
    }
  }

  predicate IsDeclined(s: State, t: Tid) {
    t < |s.th| && OpOf(s.th[t]) == Finished(Declined)
  }

  /** In every run, a produce or try_produce that is not declined does not return before it has
      notified the consumers. */
  lemma {:induction false} ProduceNotifies(r: seq<State>, m: nat, n: nat, t: Tid, call: Call)
    requires Run(r) && m < n < |r| && InCall(r, m, n - 1, t) && t < |r[n].th|
    requires OpOf(r[m].th[t]) == Called(call) && call.Put?
    ensures || OpOf(r[n].th[t]) == Called(call) || r[n].th[t].PutNotify?
            || (exists k :: m < k <= n && IsDeclined(r[k], t))
            || exists k :: m < k < n && NotifiesTaker(r[k], r[k + 1], t)
  {
    StepAt(r, Init, Next, n - 1);
    NextAnnounces(r[n - 1], r[n], t);
    if n - 1 > m {
      ProduceNotifies(r, m, n - 1, t, call);
      if r[n - 1].th[t].PutNotify? && !r[n].th[t].PutNotify? {
        assert NotifiesTaker(r[n - 1], r[n - 1 + 1], t);
      }
    }
  }

  // Progress.

  /** How many steps of its own a call is from its end, when it need not sleep. */
  function Rank(pc: PC): nat {
    match pc
    case Idle => 0
    case Return(_) => 1
    case Unlock(_) => 2
    case PutNotify => 3
    case TakeNotify(_) => 3
    case PutStore(_, _) => 4
    case TakeRead(_) => 4
    case PutTest(_, _) => 5
    case TakeTest(_) => 5
    case PutAsleep(_) => 7
    case TakeAsleep => 7
    case _ => 6
  }

  /** Thread t, in a call that waits, is about to find the queue full, or empty. */
  ghost predicate MustSleep(s: State, t: Tid) {
    && t < |s.th|
    && (|| (s.th[t].PutTest? && OpOf(s.th[t]).call.waits && |Abstract(s).queue| == MAXSIZE)
        || (s.th[t].TakeTest? && OpOf(s.th[t]).call.waits && Abstract(s).queue == []))
  }

  predicate Asleep(pc: PC) {
    pc.PutAsleep? || pc.TakeAsleep?
  }

  /** A step of a call goes to sleep, and gives the mutex up, exactly when it must; every other step
      brings the call nearer to its end. */
  lemma OwnSteps(s: State, t: Tid, c: Choice)
    requires Inv(s) && Enabled(s, t, c) && !s.th[t].Idle?
    ensures var s' := Step(s, t, c);
      && |s'.th| == |s.th|
      && (Asleep(s'.th[t]) <==> MustSleep(s, t))
      && (if MustSleep(s, t) then s'.owner == None else Rank(s'.th[t]) < Rank(s.th[t]))
  {
    SizeIsExact(s);
  }

  /** Nobody else's step touches a call, but for the one thread that a notification wakes. */
  lemma OthersSteps(s: State, u: Tid, c: Choice, t: Tid)
    requires Enabled(s, u, c) && t < |s.th| && t != u
    ensures var s' := Step(s, u, c);
      && |s'.th| == |s.th| && Rank(s'.th[t]) <= Rank(s.th[t]) && OpOf(s'.th[t]) == OpOf(s.th[t])
      && (if c == Wake(t) then Asleep(s.th[t]) && !Asleep(s'.th[t]) else s'.th[t] == s.th[t])
  {
  }

  /** Unless everybody is outside or asleep, some thread in a call can take its next step: the owner
      of the mutex, or whoever is next to take it. */
  lemma NotStuck(s: State) returns (t: Tid, c: Choice)
    requires Inv(s) && !AllQuiet(s)
    ensures Enabled(s, t, c) && !s.th[t].Idle? && !Asleep(s.th[t])
  {
    t := if s.owner.Some? then s.owner.value else 0;
    if s.owner == None {
      t :| t < |s.th| && !(s.th[t].Idle? || s.th[t].Return? || s.th[t].PutAsleep? || s.th[t].TakeAsleep?);
    }
    assert s.owner.Some? ==> Holds(s.th[t]);
    c := Plain;
    if s.th[t].PutNotify? && exists u: Tid :: u < |s.th| && s.th[u].TakeAsleep? {
      var u: Tid :| u < |s.th| && s.th[u].TakeAsleep?;
      c := Wake(u);
    } else if s.th[t].TakeNotify? && exists u: Tid :: u < |s.th| && s.th[u].PutAsleep? {
      var u: Tid :| u < |s.th| && s.th[u].PutAsleep?;
      c := Wake(u);
    }
  }
}
