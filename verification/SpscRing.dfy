/** The single-producer single-consumer ring under release and acquire: each counter is the list
    of messages stored to it, an acquire load may return any message not older than one already
    seen, and vector clocks say which accesses to the ring happen before which. */
module SpscRing {
  import opened Memory

  /** How many ring accesses of the producer and of the consumer happen before. */
  datatype Clock = Clock(p: nat, c: nat)

  /** A release store: its value and what happens before it. */
  datatype Message = Message(value: nat, clock: Clock)

  /** What is in a slot: raw memory, an element, or what is left of one that was moved from. */
  datatype Content = Raw | Live(v: Value) | Moved

  /** A slot, and the number of each side's last access to it, 0 for none. */
  datatype Slot = Slot(content: Content, lastP: nat, lastC: nat)

  datatype PushPC =
    | PushIdle
    | LoadTail(v: Value)              // tail = tail_.load(relaxed)
    | SeeHead(v: Value, tail: nat)    // head = head_.load(acquire)
    | Build(v: Value, tail: nat)      // new (ring_ + tail % capacity_) T(val)
    | StoreTail(v: Value, tail: nat)  // tail_.store(1 + tail, release)
    | PushReturn(ok: bool)

  datatype PopPC =
    | PopIdle
    | LoadHead                        // head = head_.load(relaxed)
    | SeeTail(head: nat)              // tail = tail_.load(acquire)
    | MoveOut(head: nat)              // new (&place) T(std::move(ring_[head % capacity_]))
    | Destroy(head: nat, v: Value)    // ring_[head % capacity_].~T()
    | StoreHead(head: nat, v: Value)  // head_.store(1 + head, release)
    | PopReturn(got: Option<Value>)

  /** A side: its place, what happens before it, the newest message of the other that it saw. */
  datatype Producer = Producer(pc: PushPC, clock: Clock, seen: nat)
  datatype Consumer = Consumer(pc: PopPC, clock: Clock, seen: nat)

  datatype State = State(
    heads: seq<Message>,    // the stores to head_, oldest first
    tails: seq<Message>,    // the stores to tail_, oldest first
    ring: seq<Slot>,
    p: Producer,
    c: Consumer,
    // the bookkeeping of the proof
    built: seq<Value>,      // the elements constructed in the ring, in order
    destroyed: seq<Value>,  // the elements destroyed in the ring, in order
    cur: seq<nat>)          // the position each slot holds or will hold next

  datatype Choice = Push(v: Value) | Pop | See(k: nat) | Go

  function Max(a: nat, b: nat): nat { if a < b then b else a }

  function Join(a: Clock, b: Clock): Clock { Clock(Max(a.p, b.p), Max(a.c, b.c)) }

  function Last(m: seq<Message>): nat
    requires m != []
  {
    m[|m| - 1].value
  }

  predicate WellFormed(s: State) {
    s.heads != [] && s.tails != [] && |s.ring| > 0 && |s.cur| == |s.ring|
  }

  predicate PushEnabled(s: State, c: Choice) {
    WellFormed(s) &&
    match s.p.pc
    case PushIdle => c.Push?
    case SeeHead(_, _) => c.See? && s.p.seen <= c.k < |s.heads|
    case _ => c.Go?
  }

  predicate PopEnabled(s: State, c: Choice) {
    WellFormed(s) &&
    match s.c.pc
    case PopIdle => c.Pop?
    case SeeTail(_) => c.See? && s.c.seen <= c.k < |s.tails|
    case _ => c.Go?
  }

  function PushAt(s: State, pc: PushPC): State { s.(p := s.p.(pc := pc)) }

  function PopAt(s: State, pc: PopPC): State { s.(c := s.c.(pc := pc)) }

  /** An acquire load of message k of head_. */
  function AcquireHead(s: State, v: Value, tail: nat, k: nat): State
    requires k < |s.heads|
  {
    var m := s.heads[k];
    s.(p := Producer(if tail - m.value != |s.ring| then Build(v, tail) else PushReturn(false),
                     Join(s.p.clock, m.clock), k))
  }

  function Construct(s: State, v: Value, tail: nat): State
    requires WellFormed(s)
  {
    var i, e := tail % |s.ring|, s.p.clock.p + 1;
    s.(ring := s.ring[i := s.ring[i].(content := Live(v), lastP := e)], built := s.built + [v],
       p := s.p.(pc := StoreTail(v, tail), clock := s.p.clock.(p := e)))
  }

  function ReleaseTail(s: State, tail: nat): State {
    PushAt(s, PushReturn(true)).(tails := s.tails + [Message(tail + 1, s.p.clock)])
  }

  /** An acquire load of message k of tail_. */
  function AcquireTail(s: State, head: nat, k: nat): State
    requires k < |s.tails|
  {
    var m := s.tails[k];
    s.(c := Consumer(if head < m.value then MoveOut(head) else PopReturn(None),
                     Join(s.c.clock, m.clock), k))
  }

  function TakeElement(s: State, head: nat): State
    requires WellFormed(s)
  {
    var i, e := head % |s.ring|, s.c.clock.c + 1;
    s.(ring := s.ring[i := s.ring[i].(content := Moved, lastC := e)],
       c := s.c.(pc := Destroy(head, if s.ring[i].content.Live? then s.ring[i].content.v else 0),
                 clock := s.c.clock.(c := e)))
  }

  function EndLife(s: State, head: nat, v: Value): State
    requires WellFormed(s)
  {
    var i, e := head % |s.ring|, s.c.clock.c + 1;
    s.(ring := s.ring[i := s.ring[i].(content := Raw, lastC := e)],
       destroyed := s.destroyed + [v], cur := s.cur[i := head + |s.ring|],
       c := s.c.(pc := StoreHead(head, v), clock := s.c.clock.(c := e)))
  }

  function ReleaseHead(s: State, head: nat, v: Value): State {
    PopAt(s, PopReturn(Some(v))).(heads := s.heads + [Message(head + 1, s.c.clock)])
  }

  /** A step of the producer. A relaxed load of its own counter sees its last store. */
  function PushStep(s: State, c: Choice): State
    requires PushEnabled(s, c)
  {
    match s.p.pc
    case PushIdle => PushAt(s, LoadTail(c.v))
    case LoadTail(v) => PushAt(s, SeeHead(v, Last(s.tails)))
    case SeeHead(v, tail) => AcquireHead(s, v, tail, c.k)
    case Build(v, tail) => Construct(s, v, tail)
    case StoreTail(_, tail) => ReleaseTail(s, tail)
    case PushReturn(_) => PushAt(s, PushIdle)
  }

  /** A step of the consumer. */
  function PopStep(s: State, c: Choice): State
    requires PopEnabled(s, c)
  {
    match s.c.pc
    case PopIdle => PopAt(s, LoadHead)
    case LoadHead => PopAt(s, SeeTail(Last(s.heads)))
    case SeeTail(head) => AcquireTail(s, head, c.k)
    case MoveOut(head) => TakeElement(s, head)
    case Destroy(head, v) => EndLife(s, head, v)
    case StoreHead(head, v) => ReleaseHead(s, head, v)
    case PopReturn(_) => PopAt(s, PopIdle)
  }

  const CAPACITY: nat := 1024

  ghost predicate Init(s: State) {
    && s.heads == [Message(0, Clock(0, 0))] && s.tails == [Message(0, Clock(0, 0))]
    && |s.ring| == CAPACITY && (forall i :: 0 <= i < |s.ring| ==> s.ring[i] == Slot(Raw, 0, 0))
    && s.p == Producer(PushIdle, Clock(0, 0), 0) && s.c == Consumer(PopIdle, Clock(0, 0), 0)
    && s.built == [] && s.destroyed == [] && s.cur == seq(|s.ring|, i => i)
  }

  /** One turn of the loop of ~SPSC. */
  function DestroyOldest(s: State): State
    requires WellFormed(s)
  {
    var head := Last(s.heads);
    var i := head % |s.ring|;
    s.(ring := s.ring[i := s.ring[i].(content := Raw)],
       heads := s.heads + [Message(head + 1, s.c.clock)],
       destroyed := s.destroyed + [if s.ring[i].content.Live? then s.ring[i].content.v else 0],
       cur := s.cur[i := head + |s.ring|])
  }

  /** ~SPSC, once both sides have returned and been joined: destroy what is left, oldest first. */
  function Destruct(s: State): State
    requires WellFormed(s)
    decreases |s.built| - |s.destroyed|
  {
    if Last(s.heads) == Last(s.tails) || |s.destroyed| >= |s.built| then s
    else Destruct(DestroyOldest(s))
  }
}
