/** What a call of submit and a turn of a worker's loop come to: the pool accepts the jobs it was given
    in the calls, and every step brings a call or a turn nearer to its end. */
module ThreadPoolCalls {
  import opened Memory
  import opened Runs
  import opened ThreadPool
  import opened ThreadPoolTheorems

  // Submissions.

  /** Who takes a step, and what it leaves open: the job submitted, whom a notification wakes. */
  datatype Event = Event(a: Actor, c: Choice)

  ghost predicate Happens(p: State, e: Event, p': State) {
    Enabled(p, e.a, e.c) && p' == Step(p, e.a, e.c)
  }

  /** A run and its events, among them the calls with their jobs. */
  ghost predicate Logged(r: seq<State>, es: seq<Event>) {
    IsLog(r, es, Init, Happens)
  }

  lemma RunIsLogged(r: seq<State>) returns (es: seq<Event>)
    requires Run(r)
    ensures Logged(r, es)
  {
    forall p, p' | Next(p, p')
      ensures exists e :: Happens(p, e, p')
    {
      var a, c :| Enabled(p, a, c) && p' == Step(p, a, c);
      assert Happens(p, Event(a, c), p');
    }
    es := RunHasLog(r, Init, Next, Happens);
  }

  /** The job submitted in a call of submitter i. */
  function JobArgument(i: nat, e: Event): Option<Job> {
    if e.a == Submitter(i) && e.c.Submit? then Some(e.c.j) else None
  }

  /** The job in the code of a call, until it is in the queue. */
  function JobOf(p: State, i: nat): Option<Job> {
    if i >= |p.s| then None else
      match p.s[i]
      case SubmitLock(j) => Some(j)
      case SubmitTest(j) => Some(j)
      case Push(j) => Some(j)
      case _ => None
  }

  lemma CarriesOn(p: State, e: Event, p': State, i: nat)
    requires Happens(p, e, p') && JobOf(p', i).Some?
    ensures JobOf(p', i) == if JobArgument(i, e).Some? then JobArgument(i, e) else JobOf(p, i)
  {
  }

  /** In every run, the job in the code of a call is the job that was submitted. */
  lemma CarriesJob(r: seq<State>, es: seq<Event>, i: nat)
    requires Logged(r, es)
    ensures JobOf(r[|es|], i).Some? ==> LastArgument(es, e => JobArgument(i, e)) == JobOf(r[|es|], i)
  {
    var carried, arg := (p: State) => JobOf(p, i), (e: Event) => JobArgument(i, e);
    forall p, e, p' | Happens(p, e, p') && carried(p').Some?
      ensures carried(p') == if arg(e).Some? then arg(e) else carried(p)
    {
      CarriesOn(p, e, p', i);
    }
    CarriesLast(r, es, Init, Happens, carried, arg);
  }

  /** Submitter i comes to have its job accepted in the step from p to p'. */
  predicate Accepts(p: State, p': State, a: Actor) {
    && a.Submitter? && a.i < |p.s| && a.i < |p'.s| && !p.s[a.i].Accept? && p'.s[a.i].Accept?
  }

  /** The jobs of the calls that the pool has accepted, in order. */
  function Submitted(r: seq<State>, es: seq<Event>): seq<Job>
    requires |r| == |es| + 1
  {
    if es == [] then [] else
      var n := |es|;
      var before := Submitted(r[..n], es[..n - 1]);
      var i := if es[n - 1].a.Submitter? then es[n - 1].a.i else 0;
      var job := LastArgument(es, e => JobArgument(i, e));
      if Accepts(r[n - 1], r[n], es[n - 1].a) && job.Some? then before + [job.value] else before
  }

  lemma StepAccepts(p: State, e: Event, p': State)
    requires Happens(p, e, p')
    ensures if Accepts(p, p', e.a)
      then JobArgument(e.a.i, e) == None && JobOf(p, e.a.i).Some? && p'.accepted == p.accepted + [JobOf(p, e.a.i).value]
      else p'.accepted == p.accepted
  {
  }

  /** In every run, the jobs accepted are those that were submitted in the calls not refused, in the
      order in which they entered the queue. */
  lemma {:induction false} RunAcceptsWhatWasSubmitted(r: seq<State>, es: seq<Event>)
    requires Logged(r, es)
    ensures r[|es|].accepted == Submitted(r, es)
  {
    if es != [] {
      var n := |es|;
      ShorterLog(r, es, Init, Happens);
      RunAcceptsWhatWasSubmitted(r[..n], es[..n - 1]);
      EventAt(r, es, Init, Happens, n - 1);
      StepAccepts(r[n - 1], es[n - 1], r[n]);
      if Accepts(r[n - 1], r[n], es[n - 1].a) {
        CarriesJob(r[..n], es[..n - 1], es[n - 1].a.i);
      }
    }
  }

  // Progress.

  /** How many steps of its own a call of submit is from its end. */
  function CallRank(pc: SubmitPC): nat {
    match pc
    case Idle => 0
    case SubmitLock(_) => 5
    case SubmitTest(_) => 4
    case Push(_) => 3
    case Accept => 2
    case NotifyOne => 1
    case Reject => 1
  }

  /** Every step of a call brings it nearer to its end; it is refused exactly when its test finds stop
      set, and then leaves the queue alone. */
  lemma SubmitDescends(p: State, i: nat, c: Choice)
    requires Inv(p) && SubmitEnabled(p, i, c)
    ensures var p' := SubmitStep(p, i, c);
      && (if p.s[i].Idle? then JobOf(p', i) == Some(c.j) else CallRank(p'.s[i]) < CallRank(p.s[i]))
      && (p'.s[i].Reject? <==> p.s[i].SubmitTest? && p.stop)
      && (p.s[i].Reject? ==> p'.s[i].Idle? && p'.accepted == p.accepted)
  {
  }

  /** How many steps a worker is from the end of its turn, or from leaving. */
  function TurnRank(pc: WorkerPC): nat {
    match pc
    case Gone => 0
    case Quit => 1
    case Work(_) => 1
    case Release(_) => 2
    case Take => 3
    case Test => 4
    case Lock => 5
    case Woken => 5
    case Asleep => 6
  }

  /** A worker sleeps, and gives the mutex up, exactly when its test finds no job and stop not set; it
      leaves exactly when it finds no job and stop set; it goes on to its next turn only when the job
      in its hands is done; every other step brings it nearer to the end of its turn. */
  lemma WorkerDescends(p: State, i: nat, c: Choice)
    requires Inv(p) && WorkerEnabled(p, i, c)
    ensures var p' := WorkerStep(p, i, c); var pc, pc' := p.w[i], p'.w[i];
      && (pc'.Asleep? <==> pc.Test? && p.jobs == [] && !p.stop) && (pc'.Asleep? ==> p'.m == None)
      && (pc'.Quit? <==> pc.Test? && p.jobs == [] && p.stop)
      && (pc.Work? ==> pc'.Lock? && p'.done == p.done + {pc.k} && pc.k !in p.done)
      && (pc'.Asleep? || pc.Work? || TurnRank(pc') < TurnRank(pc))
  {
  }

  /** How many steps the destructor is from its end. */
  function OwnerRank(d: OwnerPC, workers: nat): nat {
    match d
    case Alive => 0
    case StopLock => workers + 5
    case SetStop => workers + 4
    case StopUnlock => workers + 3
    case NotifyAll => workers + 2
    case Join(i) => if i < workers then workers + 1 - i else 1
    case Ended => 0
  }

  /** Every step of the destructor brings it nearer to its end, which it reaches only when every worker
      has left; it waits only for the mutex or for the next worker to leave. */
  lemma OwnerDescends(p: State)
    requires Inv(p) && !p.d.Alive? && !p.d.Ended?
    ensures OwnerEnabled(p) <==> (p.d.StopLock? ==> p.m == None) && (p.d.Join? && p.d.i < |p.w| ==> p.w[p.d.i].Gone?)
    ensures OwnerEnabled(p) ==> OwnerRank(OwnerStep(p).d, |p.w|) < OwnerRank(p.d, |p.w|)
    ensures OwnerEnabled(p) && OwnerStep(p).d.Ended? ==> forall i :: 0 <= i < |p.w| ==> p.w[i].Gone?
  {
    if OwnerEnabled(p) {
      KeepOwner(p);
    }
  }

  /** Nobody else's step touches a worker, but that a notification wakes the one it names and the
      destructor's wakes all. */
  lemma OthersDescend(p: State, a: Actor, c: Choice, i: nat)
    requires Enabled(p, a, c) && i < |p.w| && a != Worker(i)
    ensures var p' := Step(p, a, c);
      |p'.w| == |p.w| && p'.w[i] == if c == Wake(i) || (a.Owner? && p.d.NotifyAll? && p.w[i].Asleep?) then Woken else p.w[i]
    ensures a.Submitter? && c == Wake(i) ==> p.w[i].Asleep?
  {
  }

  /** Unless all workers sleep or are gone, no submitter is in a call and the destructor has not
      begun, or has ended, somebody can move. */
  lemma NotStuck(p: State)
    requires Inv(p)
    ensures || (exists a, c :: Enabled(p, a, c) && c.Plain? && (a.Submitter? ==> !p.s[a.i].Idle?) && a != Owner)
            || (exists i, c :: SubmitEnabled(p, i, c) && c.Wake?)
            || (&& (forall i :: 0 <= i < |p.w| ==> p.w[i].Asleep? || p.w[i].Gone?)
                && (forall i :: 0 <= i < |p.s| ==> p.s[i].Idle?))
            || OwnerHolds(p.d)
  {
    if p.m.Some? {
      match p.m.value
      case Worker(i) => assert Enabled(p, Worker(i), Plain);
      case Submitter(i) => assert Enabled(p, Submitter(i), Plain);
      case Owner =>
    } else if i :| 0 <= i < |p.w| && !p.w[i].Asleep? && !p.w[i].Gone? {
      assert Enabled(p, Worker(i), Plain);
    } else if i :| 0 <= i < |p.s| && !p.s[i].Idle? {
      if k :| 0 <= k < |p.w| && p.w[k].Asleep? && p.s[i].NotifyOne? {
        assert SubmitEnabled(p, i, Wake(k));
      } else {
        assert Enabled(p, Submitter(i), Plain);
      }
    }
  }
}
