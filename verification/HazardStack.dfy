/** The stack with hazard pointers as a state machine: any number of threads, any number of
    hazard slots, one step for each access to shared memory. `delete` makes an address
    available again, and `new` may return any available address. */
module HazardStack {
  import opened Memory
  import opened StackSpec

  /** An entry of the reclaim list: the retired node and the next entry. */
  datatype Box = Box(node: Addr, next: Addr)

  /** Who holds an allocated box. */
  datatype BoxOwner = Shared(i: nat) | Claimed(t: Tid, i: nat) | Carried(t: Tid)

  /** Where a thread is: the access it makes next and the locals it needs for it. */
  datatype PC =
    | Idle
    | PushNew(v: Value)                      // new node{obj}
    | PushLoad(node: Addr, v: Value)         // next = head.load()
    | PushCas(node: Addr, v: Value)          // head CAS next -> node
    | SlotCas(i: nat)                        // hazard_pointers[i].id CAS free -> mine
    | PopLoad                                // old_head = head.load()
    | PopHazard(top: Addr)                   // hp.store(old)
    | PopCheck(top: Addr)                    // head.load() == old?
    | PopNext(top: Addr)                     // old->next
    | PopCas(top: Addr, next: Addr)          // head CAS old -> next
    | PopClear(top: Addr, lin: Option<Value>) // hp.store(nullptr)
    | PopSwap(top: Addr, lin: Option<Value>) // res.swap(old->data)
    | HandScan(node: Addr, k: nat)           // hazard_pointers[k].pointer == node?
    | BoxNew(node: Addr)                     // new data_to_reclaim{node}
    | BoxLoad(box: Addr, rest: Option<Addr>) // box->next = nodes_to_reclaim.load()
    | BoxCas(box: Addr, rest: Option<Addr>)  // nodes_to_reclaim CAS box->next -> box
    | Claim                                  // nodes_to_reclaim.exchange(nullptr)
    | Walk(current: Addr)                    // next = current->next
    | BoxScan(current: Addr, next: Addr, node: Addr, k: nat)
    | Return(result: Result)
    | ExitId(slot: nat)                      // hp->id = thread::id()
    | ExitPointer(slot: nat)                 // hp->pointer = nullptr
    | Exited

  /** A thread: its hazard slot, the value its pop took, the boxes it claimed and has not
      yet looked at (bottom first), and its place in the code. */
  datatype Local = Local(slot: Option<nat>, res: Option<Value>, claimed: seq<Addr>, pc: PC)

  datatype State = State(
    head: Addr,
    reclaim: Addr,                  // nodes_to_reclaim
    pointers: seq<Addr>,            // hazard_pointers[k].pointer
    ids: seq<Option<Tid>>,          // hazard_pointers[k].id
    nodes: map<Addr, Node>,
    boxes: map<Addr, Box>,
    th: seq<Local>,
    // the bookkeeping of the proof
    stack: seq<Addr>,               // the linked nodes, bottom first
    vals: seq<Value>,               // and what they carry
    pending: seq<Addr>,             // the shared reclaim list, bottom first
    own: map<Addr, Owner<Addr>>,
    boxOwn: map<Addr, BoxOwner>)

  /** What a step leaves open: the operation called, the address `new` returns, whether a weak
      compare-and-exchange fails spuriously. */
  datatype Choice = Call(call: Call) | Exit | Address(a: Addr) | Weak(fails: bool) | Plain

  /** The operation that a step calls, if it calls one. */
  function CallOf(c: Choice): Option<Call> {
    if c.Call? then Some(c.call) else None
  }

  predicate Fresh(s: State, a: Addr) {
    a != NULL && a !in s.nodes && a !in s.boxes
  }

  predicate Enabled(s: State, t: Tid, c: Choice) {
    t < |s.th| &&
    match s.th[t].pc
    case Idle => c.Call? || (c.Exit? && s.th[t].slot.Some?)
    case PushNew(_) => c.Address? && Fresh(s, c.a)
    case BoxNew(_) => c.Address? && Fresh(s, c.a)
    case BoxCas(b, _) => c.Weak? && b in s.boxes
    case SlotCas(k) => c.Plain? && k <= |s.ids|
    case HandScan(_, k) => c.Plain? && k <= |s.pointers|
    case BoxScan(_, _, _, k) => c.Plain? && k <= |s.pointers|
    case PopHazard(_) => c.Plain? && HasSlot(s, t)
    case PopClear(_, _) => c.Plain? && HasSlot(s, t)
    case ExitId(k) => c.Plain? && k < |s.ids|
    case ExitPointer(k) => c.Plain? && k < |s.pointers|
    case Exited => false
    case _ =>
      && c.Plain?
      && NodesTouched(s, t) <= s.nodes.Keys && BoxesTouched(s, t) <= s.boxes.Keys
  }

  predicate HasSlot(s: State, t: Tid)
    requires t < |s.th|
  {
    s.th[t].slot.Some? && s.th[t].slot.value < |s.pointers|
  }

  /** The stack nodes that the next step of thread t reads, writes or deletes. */
  function NodesTouched(s: State, t: Tid): set<Addr>
    requires t < |s.th|
  {
    match s.th[t].pc
    case PushLoad(a, _) => {a}
    case PushCas(a, _) => {a}
    case PopNext(top) => {top}
    case PopSwap(top, _) => {top}
    case HandScan(x, k) => if k == |s.pointers| then {x} else {}
    case BoxScan(_, _, x, k) => if k == |s.pointers| then {x} else {}
    case _ => {}
  }

  /** The boxes that the next step of thread t reads, writes or deletes. */
  function BoxesTouched(s: State, t: Tid): set<Addr>
    requires t < |s.th|
  {
    match s.th[t].pc
    case BoxLoad(b, _) => {b}
    case BoxCas(b, _) => {b}
    case Walk(b) => if b == NULL then {} else {b}
    case BoxScan(b, _, _, k) => if k == |s.pointers| then {b} else {}
    case _ => {}
  }

  function At(s: State, t: Tid, pc: PC): State
    requires t < |s.th|
  {
    s.(th := s.th[t := s.th[t].(pc := pc)])
  }

  function Begin(s: State, t: Tid, c: Choice): State
    requires t < |s.th|
  {
    match c
    case Call(Push(v)) => At(s, t, PushNew(v))
    case Call(Pop) => At(s, t, if s.th[t].slot.Some? then PopLoad else SlotCas(0))
    case _ => if s.th[t].slot.Some? then At(s, t, ExitId(s.th[t].slot.value)) else s
  }

  // push

  function Allocate(s: State, t: Tid, v: Value, a: Addr): State
    requires t < |s.th|
  {
    At(s, t, PushLoad(a, v)).(nodes := s.nodes[a := Node(Some(v), NULL)], own := s.own[a := Private(t)])
  }

  function Relink(s: State, t: Tid, a: Addr, v: Value): State
    requires t < |s.th| && a in s.nodes
  {
    At(s, t, PushCas(a, v)).(nodes := s.nodes[a := s.nodes[a].(next := s.head)])
  }

  function Publish(s: State, t: Tid, a: Addr, v: Value): State
    requires t < |s.th|
  {
    At(s, t, Return(Pushed)).(
      head := a, stack := s.stack + [a], vals := s.vals + [v], own := s.own[a := Linked(|s.stack|)])
  }

  /** head.compare_exchange(next, node): a failure loads the head into `next`. */
  function CasPush(s: State, t: Tid, a: Addr, v: Value): State
    requires t < |s.th| && a in s.nodes
  {
    if s.head == s.nodes[a].next then Publish(s, t, a, v) else Relink(s, t, a, v)
  }

  // pop

  function TakeSlot(s: State, t: Tid, k: nat): State
    requires t < |s.th| && k < |s.ids|
  {
    s.(ids := s.ids[k := Some(t)], th := s.th[t := s.th[t].(slot := Some(k), pc := PopLoad)])
  }

  function CasSlot(s: State, t: Tid, k: nat): State
    requires t < |s.th| && k <= |s.ids|
  {
    if k == |s.ids| then At(s, t, Return(Refused))
    else if s.ids[k] == None then TakeSlot(s, t, k)
    else At(s, t, SlotCas(k + 1))
  }

  function SetHazard(s: State, t: Tid, top: Addr): State
    requires t < |s.th| && HasSlot(s, t)
  {
    At(s, t, PopCheck(top)).(pointers := s.pointers[s.th[t].slot.value := top])
  }

  function CheckHead(s: State, t: Tid, top: Addr): State
    requires t < |s.th|
  {
    At(s, t,
       if s.head != top then PopHazard(s.head)
       else if top == NULL then PopClear(NULL, None)
       else PopNext(top))
  }

  function ReadNext(s: State, t: Tid, top: Addr): State
    requires t < |s.th| && top in s.nodes
  {
    At(s, t, PopCas(top, s.nodes[top].next))
  }

  /** The head goes to `next`, whatever that is. */
  function Unlink(s: State, t: Tid, top: Addr, next: Addr): State
    requires t < |s.th|
  {
    var n := if s.stack == [] || s.vals == [] then 0 else 1;
    At(s, t, PopClear(top, if n == 1 then Some(s.vals[|s.vals| - 1]) else None)).(
      head := next, stack := s.stack[..|s.stack| - n], vals := s.vals[..|s.vals| - n],
      own := s.own[top := Hand(t)])
  }

  function CasPop(s: State, t: Tid, top: Addr, next: Addr): State
    requires t < |s.th|
  {
    if s.head == top then Unlink(s, t, top, next) else At(s, t, PopHazard(s.head))
  }

  function ClearHazard(s: State, t: Tid, top: Addr, lin: Option<Value>): State
    requires t < |s.th| && HasSlot(s, t)
  {
    At(s, t, if top == NULL then Return(Popped(None)) else PopSwap(top, lin)).(
      pointers := s.pointers[s.th[t].slot.value := NULL])
  }

  function SwapData(s: State, t: Tid, x: Addr): State
    requires t < |s.th| && x in s.nodes
  {
    s.(nodes := s.nodes[x := s.nodes[x].(data := None)],
       th := s.th[t := s.th[t].(res := s.nodes[x].data, pc := HandScan(x, 0))])
  }

  // reclamation

  function FreeHand(s: State, t: Tid, x: Addr): State
    requires t < |s.th|
  {
    At(s, t, Claim).(nodes := s.nodes - {x}, own := s.own - {x})
  }

  /** One turn of the hazard scan for the node just popped. */
  function ScanHand(s: State, t: Tid, x: Addr, k: nat): State
    requires t < |s.th| && k <= |s.pointers|
  {
    if k == |s.pointers| then FreeHand(s, t, x)
    else At(s, t, if s.pointers[k] == x then BoxNew(x) else HandScan(x, k + 1))
  }

  function Retire(s: State, t: Tid, x: Addr, b: Addr): State
    requires t < |s.th|
  {
    At(s, t, BoxLoad(b, None)).(
      boxes := s.boxes[b := Box(x, NULL)], boxOwn := s.boxOwn[b := Carried(t)],
      own := s.own[x := Retired(b)])
  }

  function RelinkBox(s: State, t: Tid, b: Addr, rest: Option<Addr>): State
    requires t < |s.th| && b in s.boxes
  {
    At(s, t, BoxCas(b, rest)).(boxes := s.boxes[b := s.boxes[b].(next := s.reclaim)])
  }

  /** After its box is on the shared list, a thread claims the list or walks on. */
  function AfterList(rest: Option<Addr>): PC {
    if rest.None? then Claim else Walk(rest.value)
  }

  function PublishBox(s: State, t: Tid, b: Addr, rest: Option<Addr>): State
    requires t < |s.th|
  {
    At(s, t, AfterList(rest)).(
      reclaim := b, pending := s.pending + [b], boxOwn := s.boxOwn[b := Shared(|s.pending|)])
  }

  /** compare_exchange_weak: it may fail although the values agree. */
  function CasReclaim(s: State, t: Tid, b: Addr, rest: Option<Addr>, fails: bool): State
    requires t < |s.th| && b in s.boxes
  {
    if s.reclaim == s.boxes[b].next && !fails then PublishBox(s, t, b, rest) else RelinkBox(s, t, b, rest)
  }

  function ClaimAll(s: State, t: Tid): State
    requires t < |s.th|
  {
    s.(reclaim := NULL, pending := [],
       boxOwn := map b | b in s.boxOwn ::
         if s.boxOwn[b].Shared? then Claimed(t, s.boxOwn[b].i) else s.boxOwn[b],
       th := s.th[t := s.th[t].(claimed := s.pending, pc := Walk(s.reclaim))])
  }

  function TakeBox(s: State, t: Tid, b: Addr): State
    requires t < |s.th| && b in s.boxes
  {
    var claimed := s.th[t].claimed;
    s.(boxOwn := s.boxOwn[b := Carried(t)],
       th := s.th[t := s.th[t].(claimed := if claimed == [] then [] else claimed[..|claimed| - 1],
                                pc := BoxScan(b, s.boxes[b].next, s.boxes[b].node, 0))])
  }

  function WalkOn(s: State, t: Tid, b: Addr): State
    requires t < |s.th| && (b == NULL || b in s.boxes)
  {
    if b == NULL then At(s, t, Return(Popped(s.th[t].res))) else TakeBox(s, t, b)
  }

  function FreeBox(s: State, t: Tid, b: Addr, next: Addr, x: Addr): State
    requires t < |s.th|
  {
    At(s, t, Walk(next)).(
      nodes := s.nodes - {x}, own := s.own - {x}, boxes := s.boxes - {b}, boxOwn := s.boxOwn - {b})
  }

  /** One turn of the hazard scan for a node on the claimed list. */
  function ScanBox(s: State, t: Tid, b: Addr, next: Addr, x: Addr, k: nat): State
    requires t < |s.th| && k <= |s.pointers|
  {
    if k == |s.pointers| then FreeBox(s, t, b, next, x)
    else At(s, t, if s.pointers[k] == x then BoxLoad(b, Some(next)) else BoxScan(b, next, x, k + 1))
  }

  function Finish(s: State, t: Tid): State
    requires t < |s.th|
  {
    s.(th := s.th[t := s.th[t].(res := None, pc := Idle)])
  }

  // thread exit: the id goes first, then the pointer

  function DropId(s: State, t: Tid, k: nat): State
    requires t < |s.th| && k < |s.ids|
  {
    s.(ids := s.ids[k := None], th := s.th[t := s.th[t].(slot := None, pc := ExitPointer(k))])
  }

  function DropPointer(s: State, t: Tid, k: nat): State
    requires t < |s.th| && k < |s.pointers|
  {
    At(s, t, Exited).(pointers := s.pointers[k := NULL])
  }

  function Step(s: State, t: Tid, c: Choice): State
    requires Enabled(s, t, c)
  {
    match s.th[t].pc
    case Idle => Begin(s, t, c)
    case PushNew(v) => Allocate(s, t, v, c.a)
    case PushLoad(a, v) => Relink(s, t, a, v)
    case PushCas(a, v) => CasPush(s, t, a, v)
    case SlotCas(k) => CasSlot(s, t, k)
    case PopLoad => At(s, t, PopHazard(s.head))
    case PopHazard(top) => SetHazard(s, t, top)
    case PopCheck(top) => CheckHead(s, t, top)
    case PopNext(top) => ReadNext(s, t, top)
    case PopCas(top, next) => CasPop(s, t, top, next)
    case PopClear(top, lin) => ClearHazard(s, t, top, lin)
    case PopSwap(top, _) => SwapData(s, t, top)
    case HandScan(x, k) => ScanHand(s, t, x, k)
    case BoxNew(x) => Retire(s, t, x, c.a)
    case BoxLoad(b, rest) => RelinkBox(s, t, b, rest)
    case BoxCas(b, rest) => CasReclaim(s, t, b, rest, c.fails)
    case Claim => ClaimAll(s, t)
    case Walk(b) => WalkOn(s, t, b)
    case BoxScan(b, next, x, k) => ScanBox(s, t, b, next, x, k)
    case Return(_) => Finish(s, t)
    case ExitId(k) => DropId(s, t, k)
    case ExitPointer(k) => DropPointer(s, t, k)
    case Exited => s
  }

  ghost predicate Init(s: State) {
    && s.head == NULL && s.reclaim == NULL && |s.pointers| == |s.ids|
    && (forall k :: 0 <= k < |s.ids| ==> s.pointers[k] == NULL && s.ids[k] == None)
    && s.nodes == map[] && s.boxes == map[] && s.own == map[] && s.boxOwn == map[]
    && s.stack == [] && s.vals == [] && s.pending == []
    && forall t :: 0 <= t < |s.th| ==> s.th[t] == Local(None, None, [], Idle)
  }
}
