/** The ring buffer under one mutex with two condition variables, as a state machine: any number
    of threads, one step for each lock operation, wait, notification and protected access. The
    counters are 64-bit words and wrap around. */
module LockedRing {
  import opened Memory
  import opened Bits
  import opened QueueSpec

  const MAXSIZE: nat := 1024
  const WORD: nat := 0x1_0000_0000_0000_0000

  /** Where a thread is. `wait` tells produce and consume from try_produce and try_consume. */
  datatype PC =
    | Idle
    | PutLock(v: Value, wait: bool)   // m_.lock()
    | PutTest(v: Value, wait: bool)   // full()?
    | PutAsleep(v: Value)             // full_check_.wait, m_ released
    | PutWoken(v: Value)              // out of the wait set, needs m_ again
    | PutStore(v: Value, wait: bool)  // buffer_[mask(out_++)] = obj
    | PutNotify                       // empty_check_.notify_one()
    | TakeLock(wait: bool)            // m_.lock()
    | TakeTest(wait: bool)            // empty()?
    | TakeAsleep                      // empty_check_.wait, m_ released
    | TakeWoken                       // out of the wait set, needs m_ again
    | TakeRead(wait: bool)            // buffer_[mask(in_)], in_++
    | TakeNotify(v: Value)            // full_check_.notify_one()
    | Unlock(result: Result)          // m_.unlock()
    | Return(result: Result)

  datatype State = State(
    buffer: seq<Value>,
    first: nat,             // in_
    last: nat,              // out_
    owner: Option<Tid>,     // of m_
    th: seq<PC>,
    // the bookkeeping of the proof
    vals: seq<Value>,       // everything put so far
    taken: nat)             // how many of them have been taken

  /** Which operation is called, and whether it waits; whom a notification wakes. */
  datatype Choice = Call(call: Call) | Wake(u: Tid) | Spurious | Plain

  /** The operation that a step calls, if it calls one. */
  function CallOf(c: Choice): Option<Call> {
    if c.Call? then Some(c.call) else None
  }

  function Mask(index: nat): (i: nat)
    ensures i == index % MAXSIZE
  {
    MaskIsModulo(index, MAXSIZE);
    And(index, MAXSIZE - 1)
  }

  /** The increment of a 64-bit word. */
  function Inc(w: nat): nat {
    (w + 1) % WORD
  }

  /** The difference of 64-bit words. */
  function Sub(a: nat, b: nat): nat {
    (a - b) % WORD
  }

  function Size(s: State): nat {
    Sub(s.last, s.first)
  }

  predicate Full(s: State) { Size(s) == MAXSIZE }

  predicate Empty(s: State) { s.last == s.first }

  predicate Enabled(s: State, t: Tid, c: Choice) {
    t < |s.th| && |s.buffer| == MAXSIZE &&
    match s.th[t]
    case Idle => c.Call?
    case PutLock(_, _) => c.Plain? && s.owner == None
    case TakeLock(_) => c.Plain? && s.owner == None
    case PutWoken(_) => c.Plain? && s.owner == None
    case TakeWoken => c.Plain? && s.owner == None
    case PutAsleep(_) => c.Spurious?
    case TakeAsleep => c.Spurious?
    case PutNotify =>
      if c.Wake? then c.u < |s.th| && s.th[c.u].TakeAsleep?
      else c.Plain? && forall u :: 0 <= u < |s.th| ==> !s.th[u].TakeAsleep?
    case TakeNotify(_) =>
      if c.Wake? then c.u < |s.th| && s.th[c.u].PutAsleep?
      else c.Plain? && forall u :: 0 <= u < |s.th| ==> !s.th[u].PutAsleep?
    case _ => c.Plain?
  }

  function At(s: State, t: Tid, pc: PC): State
    requires t < |s.th|
  {
    s.(th := s.th[t := pc])
  }

  function Acquire(s: State, t: Tid, pc: PC): State
    requires t < |s.th|
  {
    At(s, t, pc).(owner := Some(t))
  }

  function Release(s: State, t: Tid, pc: PC): State
    requires t < |s.th|
  {
    At(s, t, pc).(owner := None)
  }

  /** With the predicate false, `wait` releases the mutex and sleeps; the try forms give up. */
  function TestFull(s: State, t: Tid, v: Value, wait: bool): State
    requires t < |s.th|
  {
    if !Full(s) then At(s, t, PutStore(v, wait))
    else if wait then Release(s, t, PutAsleep(v))
    else At(s, t, Unlock(Declined))
  }

  function TestEmpty(s: State, t: Tid, wait: bool): State
    requires t < |s.th|
  {
    if !Empty(s) then At(s, t, TakeRead(wait))
    else if wait then Release(s, t, TakeAsleep)
    else At(s, t, Unlock(Declined))
  }

  function Store(s: State, t: Tid, v: Value): State
    requires t < |s.th| && |s.buffer| == MAXSIZE
  {
    At(s, t, PutNotify).(
      buffer := s.buffer[Mask(s.last) := v], last := Inc(s.last), vals := s.vals + [v])
  }

  /** consume notifies a producer; try_consume does not. */
  function Read(s: State, t: Tid, wait: bool): State
    requires t < |s.th| && |s.buffer| == MAXSIZE
  {
    var v := s.buffer[Mask(s.first)];
    At(s, t, if wait then TakeNotify(v) else Unlock(Got(v))).(
      first := Inc(s.first), taken := s.taken + 1)
  }

  function WakeTaker(s: State, t: Tid, u: Tid): State
    requires t < |s.th| && u < |s.th|
  {
    At(At(s, u, TakeWoken), t, Unlock(Accepted))
  }

  function WakePutter(s: State, t: Tid, u: Tid, v: Value): State
    requires t < |s.th| && u < |s.th| && s.th[u].PutAsleep?
  {
    At(At(s, u, PutWoken(s.th[u].v)), t, Unlock(Got(v)))
  }

  function Step(s: State, t: Tid, c: Choice): State
    requires Enabled(s, t, c)
  {
    match s.th[t]
    case Idle => At(s, t, if c.call.Put? then PutLock(c.call.v, c.call.waits) else TakeLock(c.call.waits))
    case PutLock(v, wait) => Acquire(s, t, PutTest(v, wait))
    case PutTest(v, wait) => TestFull(s, t, v, wait)
    case PutAsleep(v) => At(s, t, PutWoken(v))
    case PutWoken(v) => Acquire(s, t, PutTest(v, true))
    case PutStore(v, _) => Store(s, t, v)
    case PutNotify => if c.Wake? then WakeTaker(s, t, c.u) else At(s, t, Unlock(Accepted))
    case TakeLock(wait) => Acquire(s, t, TakeTest(wait))
    case TakeTest(wait) => TestEmpty(s, t, wait)
    case TakeAsleep => At(s, t, TakeWoken)
    case TakeWoken => Acquire(s, t, TakeTest(true))
    case TakeRead(wait) => Read(s, t, wait)
    case TakeNotify(v) => if c.Wake? then WakePutter(s, t, c.u, v) else At(s, t, Unlock(Got(v)))
    case Unlock(r) => Release(s, t, Return(r))
    case Return(_) => At(s, t, Idle)
  }

  ghost predicate Init(s: State) {
    && |s.buffer| == MAXSIZE && s.first == 0 == s.last && s.owner == None
    && (forall t :: 0 <= t < |s.th| ==> s.th[t] == Idle) && s.vals == [] && s.taken == 0
  }
}
