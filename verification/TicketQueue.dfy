/** The bounded multi-producer multi-consumer queue whose cells carry sequence numbers, as a
    state machine: any number of threads, one step for each access to shared memory. */
module TicketQueue {
  import opened Memory
  import opened Bits
  import opened QueueSpec

  datatype Cell = Cell(sequence: nat, data: Value)

  /** For the proof: the counter when the call began, and the retries that saw it move. */
  datatype Since = Since(start: nat, tries: nat)

  /** Where a thread is: the access it makes next and the locals it needs for it. A load that
      follows a stale position knows that the counter has reached `low`; `lin` is the value of
      the ticket taken. */
  datatype PC =
    | Idle
    | EnqLoad(v: Value, low: nat, b: Since)  // pos = enqueue_pos_.load()
    | EnqSeq(v: Value, pos: nat, b: Since)   // cell->sequence_.load()
    | EnqCas(v: Value, pos: nat, b: Since)   // enqueue_pos_ CAS pos -> pos + 1
    | EnqWrite(v: Value, pos: nat, b: Since) // cell->data_ = data
    | EnqStore(v: Value, pos: nat, b: Since) // cell->sequence_.store(pos + 1)
    | DeqLoad(low: nat, b: Since)            // pos = dequeue_pos_.load()
    | DeqSeq(pos: nat, b: Since)             // cell->sequence_.load()
    | DeqCas(pos: nat, b: Since)             // dequeue_pos_ CAS pos -> pos + 1
    | DeqRead(pos: nat, lin: Value, b: Since) // data = cell->data_
    | DeqStore(pos: nat, v: Value, b: Since) // cell->sequence_.store(pos + capacity)
    | Return(result: Result)

  datatype State = State(
    cells: seq<Cell>,
    enq: nat,                 // enqueue_pos_
    deq: nat,                 // dequeue_pos_
    th: seq<PC>,
    // the bookkeeping of the proof
    vals: seq<Value>,         // the value of every ticket claimed so far
    cur: seq<nat>,            // the ticket each cell is serving
    prod: map<nat, Tid>,      // the claimed tickets not yet published, by producer
    cons: map<nat, Tid>)      // the taken tickets not yet released, by consumer

  datatype Choice = Call(call: Call) | Weak(fails: bool) | Plain

  /** The operation that a step calls, if it calls one. */
  function CallOf(c: Choice): Option<Call> {
    if c.Call? then Some(c.call) else None
  }

  function CellOf(pos: nat, capacity: nat): (i: nat)
    requires PowerOfTwo(capacity)
    ensures i == pos % capacity < capacity
  {
    MaskIsModulo(pos, capacity);
    And(pos, capacity - 1)
  }

  predicate Enabled(s: State, t: Tid, c: Choice) {
    t < |s.th| &&
    match s.th[t]
    case Idle => c.Call? && !c.call.waits
    case EnqCas(_, _, _) => c.Weak?
    case DeqCas(_, _) => c.Weak?
    case _ => c.Plain?
  }

  function At(s: State, t: Tid, pc: PC): State
    requires t < |s.th|
  {
    s.(th := s.th[t := pc])
  }

  function Begin(s: State, t: Tid, call: Call): State
    requires t < |s.th|
  {
    match call
    case Put(v, _) => At(s, t, EnqLoad(v, s.enq, Since(s.enq, 0)))
    case Take(_) => At(s, t, DeqLoad(s.deq, Since(s.deq, 0)))
  }

  // enqueue

  function SeeEnq(s: State, t: Tid, v: Value, pos: nat, b: Since): State
    requires t < |s.th| && PowerOfTwo(|s.cells|)
  {
    var sequence := s.cells[CellOf(pos, |s.cells|)].sequence;
    At(s, t,
       if sequence == pos then EnqCas(v, pos, b)
       else if sequence < pos then Return(Declined)
       else EnqLoad(v, pos + 1, b.(tries := b.tries + 1)))
  }

  function ClaimEnq(s: State, t: Tid, v: Value, pos: nat, b: Since): State
    requires t < |s.th|
  {
    At(s, t, EnqWrite(v, pos, b)).(
      enq := pos + 1, vals := s.vals + [v], prod := s.prod[pos := t])
  }

  /** A failed compare-and-exchange loads the counter into pos. */
  function CasEnq(s: State, t: Tid, v: Value, pos: nat, b: Since, fails: bool): State
    requires t < |s.th|
  {
    if s.enq == pos && !fails then ClaimEnq(s, t, v, pos, b)
    else At(s, t, EnqSeq(v, s.enq, if s.enq == pos then b else b.(tries := b.tries + 1)))
  }

  function WriteEnq(s: State, t: Tid, v: Value, pos: nat, b: Since): State
    requires t < |s.th| && PowerOfTwo(|s.cells|)
  {
    var i := CellOf(pos, |s.cells|);
    At(s, t, EnqStore(v, pos, b)).(cells := s.cells[i := s.cells[i].(data := v)])
  }

  function StoreEnq(s: State, t: Tid, pos: nat): State
    requires t < |s.th| && PowerOfTwo(|s.cells|)
  {
    var i := CellOf(pos, |s.cells|);
    At(s, t, Return(Accepted)).(
      cells := s.cells[i := s.cells[i].(sequence := pos + 1)], prod := s.prod - {pos})
  }

  // dequeue

  function SeeDeq(s: State, t: Tid, pos: nat, b: Since): State
    requires t < |s.th| && PowerOfTwo(|s.cells|)
  {
    var sequence := s.cells[CellOf(pos, |s.cells|)].sequence;
    At(s, t,
       if sequence == pos + 1 then DeqCas(pos, b)
       else if sequence < pos + 1 then Return(Declined)
       else DeqLoad(pos + 1, b.(tries := b.tries + 1)))
  }

  function ClaimDeq(s: State, t: Tid, pos: nat, b: Since): State
    requires t < |s.th|
  {
    At(s, t, DeqRead(pos, if pos < |s.vals| then s.vals[pos] else 0, b)).(deq := pos + 1, cons := s.cons[pos := t])
  }

  function CasDeq(s: State, t: Tid, pos: nat, b: Since, fails: bool): State
    requires t < |s.th|
  {
    if s.deq == pos && !fails then ClaimDeq(s, t, pos, b)
    else At(s, t, DeqSeq(s.deq, if s.deq == pos then b else b.(tries := b.tries + 1)))
  }

  function ReadDeq(s: State, t: Tid, pos: nat, b: Since): State
    requires t < |s.th| && PowerOfTwo(|s.cells|)
  {
    At(s, t, DeqStore(pos, s.cells[CellOf(pos, |s.cells|)].data, b))
  }

  function StoreDeq(s: State, t: Tid, pos: nat, v: Value): State
    requires t < |s.th| && PowerOfTwo(|s.cells|) && |s.cur| == |s.cells|
  {
    var i := CellOf(pos, |s.cells|);
    At(s, t, Return(Got(v))).(
      cells := s.cells[i := s.cells[i].(sequence := pos + |s.cells|)],
      cur := s.cur[i := pos + |s.cells|], cons := s.cons - {pos})
  }

  function Step(s: State, t: Tid, c: Choice): State
    requires Enabled(s, t, c) && PowerOfTwo(|s.cells|) && |s.cur| == |s.cells|
  {
    match s.th[t]
    case Idle => Begin(s, t, c.call)
    case EnqLoad(v, _, b) => At(s, t, EnqSeq(v, s.enq, b))
    case EnqSeq(v, pos, b) => SeeEnq(s, t, v, pos, b)
    case EnqCas(v, pos, b) => CasEnq(s, t, v, pos, b, c.fails)
    case EnqWrite(v, pos, b) => WriteEnq(s, t, v, pos, b)
    case EnqStore(_, pos, _) => StoreEnq(s, t, pos)
    case DeqLoad(_, b) => At(s, t, DeqSeq(s.deq, b))
    case DeqSeq(pos, b) => SeeDeq(s, t, pos, b)
    case DeqCas(pos, b) => CasDeq(s, t, pos, b, c.fails)
    case DeqRead(pos, _, b) => ReadDeq(s, t, pos, b)
    case DeqStore(pos, v, _) => StoreDeq(s, t, pos, v)
    case Return(_) => At(s, t, Idle)
  }

  /** What the constructor makes of its cells, whatever their number. */
  ghost predicate Numbered(s: State) {
    && (forall i :: 0 <= i < |s.cells| ==> s.cells[i].sequence == i)
    && s.enq == 0 && s.deq == 0
    && (forall t :: 0 <= t < |s.th| ==> s.th[t] == Idle)
    && s.vals == [] && s.prod == map[] && s.cons == map[]
    && s.cur == seq(|s.cells|, i => i)
  }

  /** The constructor asserts a power of two of at least 2. */
  ghost predicate Init(s: State) {
    |s.cells| >= 2 && And(|s.cells|, |s.cells| - 1) == 0 && Numbered(s)
  }
}
