/** The thread pool as a state machine: workers, submitters and the destructor, one step for each
    lock operation, wait, notification and protected access. Jobs are opaque and do not throw. */
module ThreadPool {
  import opened Memory

  type Job = int

  datatype WorkerPC =
    | Lock             // start of the loop, or out of the wait set: needs m
    | Woken
    | Test             // stop || !jobs.empty() ?
    | Asleep           // start.wait, m released
    | Take             // job = move(jobs.front()); jobs.pop()
    | Release(k: nat)  // end of the scope: m.unlock(), with job k in hand
    | Work(k: nat)     // job()
    | Quit             // break: m.unlock()
    | Gone

  datatype SubmitPC =
    | Idle
    | SubmitLock(j: Job)   // lock_guard
    | SubmitTest(j: Job)   // stop ?
    | Push(j: Job)         // jobs.push
    | Accept               // m.unlock()
    | NotifyOne            // start.notify_one()
    | Reject               // throw: m.unlock()

  datatype OwnerPC =
    | Alive
    | StopLock
    | SetStop
    | StopUnlock
    | NotifyAll
    | Join(i: nat)   // workers[i].join()
    | Ended

  datatype Actor = Worker(i: nat) | Submitter(i: nat) | Owner

  datatype State = State(
    stop: bool,
    jobs: seq<Job>,
    m: Option<Actor>,       // the owner of the mutex
    w: seq<WorkerPC>,
    s: seq<SubmitPC>,
    d: OwnerPC,
    // the bookkeeping of the proof
    accepted: seq<Job>,     // every job pushed
    takers: seq<nat>,       // the worker that took each job, in order
    done: set<nat>)         // the jobs completed, by their number

  datatype Choice = Submit(j: Job) | Wake(i: nat) | Spurious | Plain

  predicate WorkerEnabled(p: State, i: nat, c: Choice) {
    i < |p.w| &&
    match p.w[i]
    case Lock => c.Plain? && p.m == None
    case Woken => c.Plain? && p.m == None
    case Asleep => c.Spurious?
    case Gone => false
    case _ => c.Plain?
  }

  predicate SubmitEnabled(p: State, i: nat, c: Choice) {
    i < |p.s| &&
    match p.s[i]
    case Idle => c.Submit?
    case SubmitLock(_) => c.Plain? && p.m == None
    case NotifyOne =>
      if c.Wake? then c.i < |p.w| && p.w[c.i].Asleep?
      else c.Plain? && forall k :: 0 <= k < |p.w| ==> !p.w[k].Asleep?
    case _ => c.Plain?
  }

  predicate OwnerEnabled(p: State) {
    match p.d
    case StopLock => p.m == None
    case Join(i) => i < |p.w| ==> p.w[i].Gone?
    case Ended => false
    case _ => true
  }

  predicate Enabled(p: State, a: Actor, c: Choice) {
    match a
    case Worker(i) => WorkerEnabled(p, i, c)
    case Submitter(i) => SubmitEnabled(p, i, c)
    case Owner => c.Plain? && OwnerEnabled(p)
  }

  function WorkerAt(p: State, i: nat, pc: WorkerPC): State
    requires i < |p.w|
  {
    p.(w := p.w[i := pc])
  }

  function SubmitAt(p: State, i: nat, pc: SubmitPC): State
    requires i < |p.s|
  {
    p.(s := p.s[i := pc])
  }

  /** The predicate of the wait, and the test after it. */
  function TestStart(p: State, i: nat): State
    requires i < |p.w|
  {
    if p.jobs != [] then WorkerAt(p, i, Take)
    else if p.stop then WorkerAt(p, i, Quit)
    else WorkerAt(p, i, Asleep).(m := None)
  }

  function TakeJob(p: State, i: nat): State
    requires i < |p.w|
  {
    WorkerAt(p, i, Release(|p.takers|)).(
      jobs := if p.jobs == [] then [] else p.jobs[1..], takers := p.takers + [i])
  }

  function WorkerStep(p: State, i: nat, c: Choice): State
    requires WorkerEnabled(p, i, c)
  {
    match p.w[i]
    case Lock => WorkerAt(p, i, Test).(m := Some(Worker(i)))
    case Woken => WorkerAt(p, i, Test).(m := Some(Worker(i)))
    case Test => TestStart(p, i)
    case Asleep => WorkerAt(p, i, Woken)
    case Take => TakeJob(p, i)
    case Release(k) => WorkerAt(p, i, Work(k)).(m := None)
    case Work(k) => WorkerAt(p, i, Lock).(done := p.done + {k})
    case Quit => WorkerAt(p, i, Gone).(m := None)
    case Gone => p
  }

  function SubmitStep(p: State, i: nat, c: Choice): State
    requires SubmitEnabled(p, i, c)
  {
    match p.s[i]
    case Idle => SubmitAt(p, i, SubmitLock(c.j))
    case SubmitLock(j) => SubmitAt(p, i, SubmitTest(j)).(m := Some(Submitter(i)))
    case SubmitTest(j) => SubmitAt(p, i, if p.stop then Reject else Push(j))
    case Push(j) => SubmitAt(p, i, Accept).(jobs := p.jobs + [j], accepted := p.accepted + [j])
    case Accept => SubmitAt(p, i, NotifyOne).(m := None)
    case NotifyOne => SubmitAt(if c.Wake? then WorkerAt(p, c.i, Woken) else p, i, Idle)
    case Reject => SubmitAt(p, i, Idle).(m := None)
  }

  function OwnerStep(p: State): State
    requires OwnerEnabled(p)
  {
    match p.d
    case Alive => p.(d := StopLock)
    case StopLock => p.(d := SetStop, m := Some(Owner))
    case SetStop => p.(d := StopUnlock, stop := true)
    case StopUnlock => p.(d := NotifyAll, m := None)
    case NotifyAll =>
      p.(d := Join(0),
         w := seq(|p.w|, i requires 0 <= i < |p.w| => if p.w[i].Asleep? then Woken else p.w[i]))
    case Join(i) => p.(d := if i < |p.w| then Join(i + 1) else Ended)
    case Ended => p
  }

  function Step(p: State, a: Actor, c: Choice): State
    requires Enabled(p, a, c)
  {
    match a
    case Worker(i) => WorkerStep(p, i, c)
    case Submitter(i) => SubmitStep(p, i, c)
    case Owner => OwnerStep(p)
  }

  ghost predicate Init(p: State) {
    && !p.stop && p.jobs == [] && p.m == None && p.d == Alive
    && (forall i :: 0 <= i < |p.w| ==> p.w[i] == Lock) && (forall i :: 0 <= i < |p.s| ==> p.s[i] == Idle)
    && p.accepted == [] && p.takers == [] && p.done == {}
  }
}
