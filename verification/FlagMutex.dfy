/** The mutex made of one atomic flag with wait and notify: mutual exclusion, and no lost wakeup
    although the flag is cleared before the notification and newcomers may overtake. */
module FlagMutex {
  import opened Memory
  import opened Runs

  datatype PC =
    | Idle
    | TestSet   // lk.test_and_set()
    | Look      // lk.wait(true): loads the flag, and sleeps if it is still set
    | Asleep    // in the wait
    | Inside    // holds the lock
    | Notify    // lk.notify_one(), after lk.clear()

  datatype State = State(flag: bool, th: seq<PC>)

  /** Whom a notification wakes; a wait may also end without one. */
  datatype Choice = Wake(u: Tid) | Plain

  predicate Enabled(s: State, t: Tid, c: Choice) {
    t < |s.th| &&
    match s.th[t]
    case Notify =>
      if c.Wake? then c.u < |s.th| && s.th[c.u].Asleep?
      else forall u :: 0 <= u < |s.th| ==> !s.th[u].Asleep?
    case _ => c.Plain?
  }

  function At(s: State, t: Tid, pc: PC): State
    requires t < |s.th|
  {
    s.(th := s.th[t := pc])
  }

  function Step(s: State, t: Tid, c: Choice): State
    requires Enabled(s, t, c)
  {
    match s.th[t]
    case Idle => At(s, t, TestSet)
    case TestSet => At(s, t, if s.flag then Look else Inside).(flag := true)
    case Look => At(s, t, if s.flag then Asleep else TestSet)
    case Asleep => At(s, t, Look)
    case Inside => At(s, t, Notify).(flag := false)
    case Notify => At(if c.Wake? then At(s, c.u, Look) else s, t, Idle)
  }

  ghost predicate Init(s: State) {
    !s.flag && forall t :: 0 <= t < |s.th| ==> s.th[t] == Idle
  }

  /** On the way to take the flag, or to wake someone who is. */
  predicate Astir(pc: PC) {
    pc.TestSet? || pc.Look? || pc.Notify?
  }

  /** The flag is set exactly while one thread holds the lock. Whoever sleeps while it is clear
      has somebody astir. */
  ghost predicate Inv(s: State) {
    && (forall t, u :: 0 <= t < |s.th| && 0 <= u < |s.th| && s.th[t].Inside? && s.th[u].Inside? ==> t == u)
    && (s.flag <==> exists t :: 0 <= t < |s.th| && s.th[t].Inside?)
    && (!s.flag && (exists t :: 0 <= t < |s.th| && s.th[t].Asleep?) ==>
          exists t :: 0 <= t < |s.th| && Astir(s.th[t]))
  }

  lemma KeepStep(s: State, t: Tid, c: Choice)
    requires Inv(s) && Enabled(s, t, c)
    ensures Inv(Step(s, t, c))
  {
    var s' := Step(s, t, c);
    assert forall u :: 0 <= u < |s.th| && u != t && !(c.Wake? && u == c.u) ==> s'.th[u] == s.th[u];
    if s.th[t].Notify? && c.Wake? {
      assert Astir(s'.th[c.u]);
    }
    assert Astir(s'.th[t]) || s'.th[t].Inside? || s'.th[t].Idle? || s'.th[t].Asleep?;
  }

  /** How far a call of lock, or of unlock, is from its end. */
  function Rank(pc: PC): nat {
    match pc
    case Idle => 0
    case Notify => 1
    case Inside => 2
    case TestSet => 3
    case Look => 4
    case Asleep => 5
  }

  /** A contender is held up exactly by a flag that is set: it enters with its test of a clear flag,
      and sleeps only when it looks at a set one. */
  lemma OwnSteps(s: State, t: Tid, c: Choice)
    requires Inv(s) && Enabled(s, t, c)
    ensures var pc, pc' := s.th[t], Step(s, t, c).th[t];
      && (Rank(pc') < Rank(pc) <==> !pc.Idle? && !(s.flag && (pc.TestSet? || pc.Look?)))
      && (pc'.Inside? <==> pc.TestSet? && !s.flag)
      && (pc'.Asleep? <==> pc.Look? && s.flag)
      && (pc.TestSet? && s.flag ==> pc'.Look?)
      && (pc.Idle? ==> pc'.TestSet?)
  {
  }

  /** Left to itself beside a clear flag, a contender comes nearer to the lock with every step. */
  lemma ContenderEnters(s: State, t: Tid, c: Choice)
    requires Inv(s) && Enabled(s, t, c) && !s.flag && (s.th[t].TestSet? || s.th[t].Look? || s.th[t].Asleep?)
    ensures var s' := Step(s, t, c);
      s'.th[t].Inside? || (!s'.flag && 3 <= Rank(s'.th[t]) < Rank(s.th[t]))
  {
  }

  /** The step of another thread leaves a thread where it is, or wakes it. */
  lemma OthersSteps(s: State, u: Tid, c: Choice, t: Tid)
    requires Enabled(s, u, c) && t < |s.th| && t != u
    ensures Step(s, u, c).th[t] == if s.th[u].Notify? && c == Wake(t) then Look else s.th[t]
  {
  }

  ghost predicate Next(s: State, s': State) {
    exists t, c :: Enabled(s, t, c) && s' == Step(s, t, c)
  }

  ghost predicate Run(r: seq<State>) {
    IsRun(r, Init, Next)
  }

  lemma NextKeeps(s: State, s': State)
    requires Inv(s) && Next(s, s')
    ensures Inv(s')
  {
    var t, c :| Enabled(s, t, c) && s' == Step(s, t, c);
    KeepStep(s, t, c);
  }

  lemma RunInv(r: seq<State>, n: nat)
    requires Run(r) && n < |r|
    ensures Inv(r[n])
  {
    forall s, s' | Inv(s) && Next(s, s')
      ensures Inv(s')
    {
      NextKeeps(s, s');
    }
    Always(r, Init, Next, Inv, n);
  }

  /** The last state of some run. */
  ghost predicate Reachable(s: State) {
    Reached(s, Init, Next)
  }

  lemma ReachableInv(s: State)
    requires Reachable(s)
    ensures Inv(s)
  {
    var r :| IsRun(r, Init, Next) && r[|r| - 1] == s;
    RunInv(r, |r| - 1);
  }

  lemma ReachStep(s: State, t: Tid, c: Choice)
    requires Reachable(s) && Enabled(s, t, c)
    ensures Reachable(Step(s, t, c))
  {
    Reaches(s, Step(s, t, c), Init, Next);
  }

  /** In every run, one thread at most is inside, and the lock is never free while a thread
      sleeps, nobody is about to notify it and nobody awake contends. */
  lemma RunIsLive(r: seq<State>, n: nat)
    requires Run(r) && n < |r|
    ensures forall t: Tid, u: Tid :: t < |r[n].th| && u < |r[n].th| ==>
      r[n].th[t].Inside? && r[n].th[u].Inside? ==> t == u
    ensures (forall t: Tid :: t < |r[n].th| ==> r[n].th[t].Idle? || r[n].th[t].Asleep?) ==>
      forall t: Tid :: t < |r[n].th| ==> r[n].th[t].Idle?
  {
    RunInv(r, n);
  }
}
