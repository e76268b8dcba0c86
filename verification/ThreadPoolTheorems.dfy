/** The thread pool loses no wakeup, runs every accepted job once and in order before its joins
    return, and shuts down in finitely many steps. */
module ThreadPoolTheorems {
  import opened Memory
  import opened Runs
  import opened ThreadPool

  predicate WorkerHolds(pc: WorkerPC) {
    pc.Test? || pc.Take? || pc.Release? || pc.Quit?
  }

  predicate SubmitHolds(pc: SubmitPC) {
    pc.SubmitTest? || pc.Push? || pc.Accept? || pc.Reject?
  }

  predicate OwnerHolds(pc: OwnerPC) {
    pc.SetStop? || pc.StopUnlock?
  }

  /** The mutex has one owner, who alone is in a critical section. */
  ghost predicate LockOk(m: Option<Actor>, w: seq<WorkerPC>, s: seq<SubmitPC>, d: OwnerPC) {
    && (forall i {:trigger w[i]} :: 0 <= i < |w| ==> (WorkerHolds(w[i]) <==> m == Some(Worker(i))))
    && (forall i {:trigger s[i]} :: 0 <= i < |s| ==> (SubmitHolds(s[i]) <==> m == Some(Submitter(i))))
    && (OwnerHolds(d) <==> m == Some(Owner))
    && (m.Some? && m.value.Worker? ==> m.value.i < |w|)
    && (m.Some? && m.value.Submitter? ==> m.value.i < |s|)
  }

  /** The job a worker has taken and not completed. */
  predicate InHand(pc: WorkerPC, k: nat) {
    pc == Release(k) || pc == Work(k)
  }

  /** The queue holds the accepted jobs nobody took; a taken job is done or in its taker's hands. */
  ghost predicate JobsOk(jobs: seq<Job>, w: seq<WorkerPC>, accepted: seq<Job>, takers: seq<nat>, done: set<nat>) {
    && |takers| <= |accepted| && jobs == accepted[|takers|..]
    && (forall k :: k in done ==> 0 <= k < |takers|)
    && (forall k {:trigger takers[k]} :: 0 <= k < |takers| ==>
          takers[k] < |w| && (k in done <==> !InHand(w[takers[k]], k)))
    && (forall i {:trigger w[i]} :: 0 <= i < |w| && (w[i].Release? || w[i].Work?) ==>
          w[i].k < |takers| && takers[w[i].k] == i)
    && (forall i {:trigger w[i]} :: 0 <= i < |w| && w[i].Take? ==> jobs != [])
  }

  /** Stop stays set, no job is accepted after it, workers leave only an empty queue, and after
      notify_all nobody sleeps. */
  ghost predicate StopOk(p: State) {
    && (p.stop <==> !p.d.Alive? && !p.d.StopLock? && !p.d.SetStop?)
    && (forall i {:trigger p.s[i]} :: 0 <= i < |p.s| && p.s[i].Push? ==> !p.stop)
    && (forall i {:trigger p.w[i]} :: 0 <= i < |p.w| && (p.w[i].Quit? || p.w[i].Gone?) ==> p.stop && p.jobs == [])
    && (p.d.Join? || p.d.Ended? ==> forall i {:trigger p.w[i]} :: 0 <= i < |p.w| ==> !p.w[i].Asleep?)
    && (forall i {:trigger p.w[i]} :: 0 <= i < |p.w| && (p.d.Ended? || (p.d.Join? && i < p.d.i)) ==> p.w[i].Gone?)
  }

  /** Workers that will look at the queue, and submitters that will wake one. */
  predicate Coming(pc: WorkerPC) {
    pc.Woken? || pc.Test? || pc.Take?
  }

  predicate Calling(pc: SubmitPC) {
    pc.Accept? || pc.NotifyOne?
  }

  function Workers(w: seq<WorkerPC>, q: WorkerPC -> bool): set<nat> {
    set i: nat | i < |w| && q(w[i])
  }

  function Submitters(s: seq<SubmitPC>, q: SubmitPC -> bool): set<nat> {
    set i: nat | i < |s| && q(s[i])
  }

  function OnTheWay(w: seq<WorkerPC>, s: seq<SubmitPC>): nat {
    |Workers(w, Coming)| + |Submitters(s, Calling)|
  }

  /** No wakeup is lost: while a worker sleeps, every queued job has someone on the way. */
  ghost predicate WakeOk(jobs: seq<Job>, w: seq<WorkerPC>, s: seq<SubmitPC>) {
    (exists i :: 0 <= i < |w| && w[i].Asleep?) ==> |jobs| <= OnTheWay(w, s)
  }

  ghost predicate Inv(p: State) {
    && LockOk(p.m, p.w, p.s, p.d) && JobsOk(p.jobs, p.w, p.accepted, p.takers, p.done)
    && StopOk(p) && WakeOk(p.jobs, p.w, p.s)
  }

  // Counting.

  function One(b: bool): nat { if b then 1 else 0 }

  lemma WorkersAt(w: seq<WorkerPC>, i: nat, pc: WorkerPC, q: WorkerPC -> bool)
    requires i < |w|
    ensures |Workers(w[i := pc], q)| + One(q(w[i])) == |Workers(w, q)| + One(q(pc))
  {
    var a, b := Workers(w, q), Workers(w[i := pc], q);
    assert a - {i} == b - {i};
    assert q(w[i]) ==> a == (a - {i}) + {i};
    assert q(pc) ==> b == (b - {i}) + {i};
    assert !q(w[i]) ==> a == a - {i};
    assert !q(pc) ==> b == b - {i};
  }

  lemma SubmittersAt(s: seq<SubmitPC>, i: nat, pc: SubmitPC, q: SubmitPC -> bool)
    requires i < |s|
    ensures |Submitters(s[i := pc], q)| + One(q(s[i])) == |Submitters(s, q)| + One(q(pc))
  {
    var a, b := Submitters(s, q), Submitters(s[i := pc], q);
    assert a - {i} == b - {i};
    assert q(s[i]) ==> a == (a - {i}) + {i};
    assert q(pc) ==> b == (b - {i}) + {i};
    assert !q(s[i]) ==> a == a - {i};
    assert !q(pc) ==> b == b - {i};
  }

  /** A worker's step that takes no one off the way unless it takes a job, or that sleeps on an
      empty queue. */
  lemma WorkerWakes(p: State, i: nat, pc: WorkerPC, jobs: seq<Job>)
    requires i < |p.w| && WakeOk(p.jobs, p.w, p.s)
    requires jobs == [] || (!pc.Asleep? && |jobs| + One(Coming(p.w[i])) <= |p.jobs| + One(Coming(pc)))
    ensures WakeOk(jobs, p.w[i := pc], p.s)
  {
    WorkersAt(p.w, i, pc, Coming);
    assert forall k :: 0 <= k < |p.w| && k != i ==> p.w[i := pc][k] == p.w[k];
  }

  lemma SubmitterWakes(p: State, i: nat, pc: SubmitPC, jobs: seq<Job>)
    requires i < |p.s| && WakeOk(p.jobs, p.w, p.s)
    requires |jobs| + One(Calling(p.s[i])) <= |p.jobs| + One(Calling(pc))
    ensures WakeOk(jobs, p.w, p.s[i := pc])
  {
    SubmittersAt(p.s, i, pc, Calling);
  }

  // The steps.

  lemma KeepWorkerLock(p: State, i: nat, c: Choice)
    requires Inv(p) && WorkerEnabled(p, i, c) && (p.w[i].Lock? || p.w[i].Woken? || p.w[i].Asleep?)
    ensures Inv(WorkerStep(p, i, c))
  {
    WorkerWakes(p, i, WorkerStep(p, i, c).w[i], p.jobs);
  }

  lemma KeepTest(p: State, i: nat)
    requires Inv(p) && i < |p.w| && p.w[i] == Test
    ensures Inv(TestStart(p, i))
  {
    WorkerWakes(p, i, TestStart(p, i).w[i], p.jobs);
  }

  lemma KeepTake(p: State, i: nat)
    requires Inv(p) && i < |p.w| && p.w[i] == Take
    ensures Inv(TakeJob(p, i))
  {
    WorkerWakes(p, i, Release(|p.takers|), p.jobs[1..]);
  }

  lemma KeepWork(p: State, i: nat, c: Choice)
    requires Inv(p) && WorkerEnabled(p, i, c) && (p.w[i].Release? || p.w[i].Work? || p.w[i].Quit?)
    ensures Inv(WorkerStep(p, i, c))
  {
    WorkerWakes(p, i, WorkerStep(p, i, c).w[i], p.jobs);
  }

  lemma KeepWorker(p: State, i: nat, c: Choice)
    requires Inv(p) && WorkerEnabled(p, i, c)
    ensures Inv(WorkerStep(p, i, c))
  {
    if p.w[i].Test? {
      KeepTest(p, i);
    } else if p.w[i].Take? {
      KeepTake(p, i);
    } else if p.w[i].Lock? || p.w[i].Woken? || p.w[i].Asleep? {
      KeepWorkerLock(p, i, c);
    } else {
      KeepWork(p, i, c);
    }
  }

  lemma KeepPush(p: State, i: nat, j: Job)
    requires Inv(p) && i < |p.s| && p.s[i] == Push(j)
    ensures Inv(SubmitStep(p, i, Plain))
  {
    SubmitterWakes(p, i, Accept, p.jobs + [j]);
  }

  lemma KeepNotify(p: State, i: nat, c: Choice)
    requires Inv(p) && SubmitEnabled(p, i, c) && p.s[i] == NotifyOne
    ensures Inv(SubmitStep(p, i, c))
  {
    SubmittersAt(p.s, i, Idle, Calling);
    if c.Wake? {
      WorkersAt(p.w, c.i, Woken, Coming);
    }
  }

  lemma KeepSubmit(p: State, i: nat, c: Choice)
    requires Inv(p) && SubmitEnabled(p, i, c)
    ensures Inv(SubmitStep(p, i, c))
  {
    if p.s[i].Push? {
      KeepPush(p, i, p.s[i].j);
    } else if p.s[i].NotifyOne? {
      KeepNotify(p, i, c);
    } else {
      SubmitterWakes(p, i, SubmitStep(p, i, c).s[i], p.jobs);
    }
  }

  lemma KeepOwner(p: State)
    requires Inv(p) && OwnerEnabled(p)
    ensures Inv(OwnerStep(p))
  {
    if p.d.Join? && p.d.i < |p.w| {
      assert p.w[p.d.i].Gone?;
    }
  }

  lemma KeepStep(p: State, a: Actor, c: Choice)
    requires Inv(p) && Enabled(p, a, c)
    ensures Inv(Step(p, a, c))
  {
    match a
    case Worker(i) => KeepWorker(p, i, c);
    case Submitter(i) => KeepSubmit(p, i, c);
    case Owner => KeepOwner(p);
  }

  // Jobs.

  /** Jobs are taken in the order they were accepted, and each runs once, in one worker's hands. */
  lemma TakenInOrder(p: State, i: nat)
    requires Inv(p) && i < |p.w| && p.w[i] == Take
    ensures |p.takers| < |p.accepted| && p.jobs != [] && p.jobs[0] == p.accepted[|p.takers|]
    ensures TakeJob(p, i).w[i] == Release(|p.takers|) && TakeJob(p, i).takers == p.takers + [i]
    ensures forall j :: 0 <= j < |p.w| ==> !InHand(p.w[j], |p.takers|)
  {
  }

  lemma RunsOnce(p: State, i: nat, j: nat, k: nat)
    requires Inv(p) && i < |p.w| && j < |p.w| && InHand(p.w[i], k)
    ensures k !in p.done && k < |p.takers| && p.takers[k] == i && (InHand(p.w[j], k) ==> i == j)
  {
  }

  /** Every accepted job has been taken and completed. */
  ghost predicate Drained(p: State) {
    p.jobs == [] && |p.takers| == |p.accepted| && forall k: nat :: k in p.done <==> k < |p.accepted|
  }

  /** When the joins have returned, every accepted job is completed, exactly when the pool had a
      worker at all or nothing to do. */
  lemma DrainedIff(p: State)
    requires Inv(p) && p.d == Ended
    ensures Drained(p) <==> |p.w| > 0 || p.accepted == []
  {
    assert |p.takers| > 0 ==> p.takers[0] < |p.w|;
    if |p.w| > 0 {
      assert p.w[0].Gone?;
      forall k: nat | k < |p.takers|
        ensures k in p.done
      {
        assert p.w[p.takers[k]].Gone?;
      }
    }
  }

  // Wakeups.

  /** While a worker sleeps and a job is queued, a worker or a notification is on its way; once
      stop is set, notify_all is. */
  lemma SomeoneComes(p: State, i: nat)
    requires Inv(p) && i < |p.w| && p.w[i].Asleep?
    ensures p.jobs != [] ==>
      || (exists j :: 0 <= j < |p.w| && Coming(p.w[j]))
      || (exists j :: 0 <= j < |p.s| && Calling(p.s[j]))
    ensures p.stop ==> p.d.StopUnlock? || p.d.NotifyAll?
  {
    if p.jobs != [] {
      if j :| j in Workers(p.w, Coming) {
        assert Coming(p.w[j]);
      } else {
        assert Workers(p.w, Coming) == {};
        var j :| j in Submitters(p.s, Calling);
        assert Calling(p.s[j]);
      }
    }
  }

  // Shutdown.

  function Weight(pc: WorkerPC): nat {
    match pc
    case Lock => 3
    case Woken => 3
    case Test => 2
    case Asleep => 4
    case Take => 1
    case Release(_) => 5
    case Work(_) => 4
    case Quit => 1
    case Gone => 0
  }

  function Sum(w: seq<WorkerPC>): nat {
    if w == [] then 0 else Sum(w[..|w| - 1]) + Weight(w[|w| - 1])
  }

  lemma {:induction false} SumAt(w: seq<WorkerPC>, i: nat, pc: WorkerPC)
    requires i < |w|
    ensures Sum(w[i := pc]) + Weight(w[i]) == Sum(w) + Weight(pc)
  {
    var n := |w| - 1;
    if i == n {
      assert w[i := pc][..n] == w[..n];
    } else {
      assert w[i := pc][..n] == w[..n][i := pc];
      SumAt(w[..n], i, pc);
    }
  }

  /** How much the workers still have to do. */
  function Rank(p: State): nat { 6 * |p.jobs| + Sum(p.w) }

  lemma WorkersDescend(p: State, i: nat, c: Choice)
    requires Inv(p) && WorkerEnabled(p, i, c) && !p.w[i].Asleep?
    ensures p.stop ==> Rank(WorkerStep(p, i, c)) < Rank(p)
  {
    SumAt(p.w, i, WorkerStep(p, i, c).w[i]);
  }

  lemma OthersKeepRank(p: State, a: Actor, c: Choice)
    requires Inv(p) && Enabled(p, a, c) && (p.d.Join? || p.d.Ended?) && !a.Worker?
    ensures Rank(Step(p, a, c)) == Rank(p)
  {
  }

  /** After notify_all, every worker step brings the shutdown nearer, and no other step undoes it. */
  lemma ShutdownDescends(p: State, a: Actor, c: Choice)
    requires Inv(p) && Enabled(p, a, c) && (p.d.Join? || p.d.Ended?)
    ensures if a.Worker? then Rank(Step(p, a, c)) < Rank(p) else Rank(Step(p, a, c)) == Rank(p)
  {
    if a.Worker? {
      WorkersDescend(p, a.i, c);
    } else {
      OthersKeepRank(p, a, c);
    }
  }

  /** Until the joins have returned somebody can move: the destructor, a worker, or a submitter
      that is in the middle of a call. */
  lemma ShutdownNotStuck(p: State)
    requires Inv(p) && p.d.Join?
    ensures exists a, c :: Enabled(p, a, c) && (a.Submitter? ==> !p.s[a.i].Idle?)
  {
    if OwnerEnabled(p) {
      assert Enabled(p, Owner, Plain);
    } else if p.m == None {
      assert Enabled(p, Worker(p.d.i), Plain);
    } else if p.m.value.Worker? {
      assert Enabled(p, p.m.value, Plain);
    } else {
      assert Enabled(p, p.m.value, Plain) && !p.s[p.m.value.i].Idle?;
    }
  }

  // Runs.

  ghost predicate Next(p: State, p': State) {
    exists a, c :: Enabled(p, a, c) && p' == Step(p, a, c)
  }

  ghost predicate Run(r: seq<State>) {
    IsRun(r, Init, Next)
  }

  lemma InitInv(p: State)
    requires Init(p)
    ensures Inv(p)
  {
  }

  lemma NextKeeps(s: State, s': State)
    requires Inv(s) && Next(s, s')
    ensures Inv(s')
  {
    var a, c :| Enabled(s, a, c) && s' == Step(s, a, c);
    KeepStep(s, a, c);
  }

  lemma RunInv(r: seq<State>, n: nat)
    requires Run(r) && n < |r|
    ensures Inv(r[n])
  {
    forall s | Init(s)
      ensures Inv(s)
    {
      InitInv(s);
    }
    forall s, s' | Inv(s) && Next(s, s')
      ensures Inv(s')
    {
      NextKeeps(s, s');
    }
    Always(r, Init, Next, Inv, n);
  }

  /** The last state of some run. */
  ghost predicate Reachable(s: State) {
    Reached(s, Init, Next)
  }

  lemma ReachableInv(s: State)
    requires Reachable(s)
    ensures Inv(s)
  {
    var r :| IsRun(r, Init, Next) && r[|r| - 1] == s;
    RunInv(r, |r| - 1);
  }

  lemma ReachStep(p: State, a: Actor, c: Choice) returns (p': State)
    requires Reachable(p) && Enabled(p, a, c)
    ensures Reachable(p') && p' == Step(p, a, c)
  {
    p' := Step(p, a, c);
    assert Next(p, p');
    Reaches(p, p', Init, Next);
  }

  /** In every run of a pool with a worker, when the joins return every accepted job is done. */
  lemma RunDrains(r: seq<State>, n: nat)
    requires Run(r) && n < |r| && |r[n].w| > 0 && r[n].d == Ended
    ensures Drained(r[n])
  {
    RunInv(r, n);
    DrainedIff(r[n]);
  }

  /** No run gets to a state in which all workers sleep beside a queued job, or with stop set, and
      no notification is pending. */
  lemma RunWakesWorkers(r: seq<State>, n: nat)
    requires Run(r) && n < |r| && |r[n].w| > 0 && (forall i :: 0 <= i < |r[n].w| ==> r[n].w[i].Asleep?)
    ensures r[n].jobs != [] ==> exists j :: 0 <= j < |r[n].s| && Calling(r[n].s[j])
    ensures r[n].stop ==> r[n].d.StopUnlock? || r[n].d.NotifyAll?
  {
    RunInv(r, n);
    SomeoneComes(r[n], 0);
  }

  // A pool without workers.

  lemma ReachSubmitted(p: State, j: Job) returns (p': State)
    requires Reachable(p) && p.s == [Idle] && p.w == [] && p.m == None && !p.stop
    ensures Reachable(p') && p' == p.(jobs := p.jobs + [j], accepted := p.accepted + [j])
  {
    p' := ReachStep(p, Submitter(0), Submit(j));
    p' := ReachStep(p', Submitter(0), Plain);
    p' := ReachStep(p', Submitter(0), Plain);
    p' := ReachStep(p', Submitter(0), Plain);
    p' := ReachStep(p', Submitter(0), Plain);
    p' := ReachStep(p', Submitter(0), Plain);
  }

  lemma ReachEnded(p: State) returns (p': State)
    requires Reachable(p) && p.w == [] && p.m == None && p.d == Alive
    ensures Reachable(p') && p' == p.(stop := true, d := Ended)
  {
    p' := ReachStep(p, Owner, Plain);
    p' := ReachStep(p', Owner, Plain);
    p' := ReachStep(p', Owner, Plain);
    p' := ReachStep(p', Owner, Plain);
    p' := ReachStep(p', Owner, Plain);
    p' := ReachStep(p', Owner, Plain);
  }

  /** A pool made with no workers accepts a job and is destroyed with the job still queued. */
  lemma NoWorkersNoDrain(j: Job) returns (r: seq<State>)
    ensures Run(r) && var p := r[|r| - 1]; p.d == Ended && p.w == [] && p.jobs == [j] == p.accepted
  {
    var p := State(false, [], None, [], [Idle], Alive, [], [], {});
    assert IsRun([p], Init, Next);
    p := ReachSubmitted(p, j);
    p := ReachEnded(p);
    r :| IsRun(r, Init, Next) && r[|r| - 1] == p;
  }
}
