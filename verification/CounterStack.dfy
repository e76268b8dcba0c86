/** The stack that counts the threads inside `pop`, as a state machine: any number of threads,
    one step for each access to shared memory. Retired nodes wait on a list threaded through
    their own `next` fields, which slow poppers may still be reading. */
module CounterStack {
  import opened Memory
  import opened StackSpec

  /** Where a retired node is: on the pending list or on the list of a thread that claimed it,
      numbered bottom first. */
  datatype Shelf = Waiting(i: nat) | Claimed(t: Tid, i: nat)

  predicate IsWaiting(o: Owner<Shelf>) { o.Retired? && o.place.Waiting? }
  predicate IsClaimed(o: Owner<Shelf>) { o.Retired? && o.place.Claimed? }

  /** Where a thread is: the access it makes next and the locals it needs for it. `hand` is
      old_head, which a thread that chains only that node no longer has in hand. */
  datatype PC =
    | Idle
    | PushNew(v: Value)                        // new node{obj}
    | PushLoad(node: Addr, v: Value)           // next = head.load()
    | PushCas(node: Addr, v: Value)            // head CAS next -> node
    | Enter                                    // threads_in_pop++
    | PopLoad                                  // old_head = head.load()
    | PopNext(top: Addr)                       // old_head->next
    | PopCas(top: Addr, next: Addr)            // head CAS old_head -> next
    | Swap(hand: Addr, lin: Option<Value>)     // res.swap(old_head->data)
    | Test(hand: Addr)                         // threads_in_pop == 1 ?
    | Exchange(hand: Addr)                     // to_be_deleted.exchange(nullptr)
    | Leave(hand: Addr, list: Addr)            // --threads_in_pop == 0 ?
    | FreeNext(hand: Addr, list: Addr)         // next = list->next
    | FreeNode(hand: Addr, list: Addr, next: Addr) // delete list
    | Walk(hand: Addr, first: Addr, last: Addr)    // list->next
    | ChainLoad(hand: Addr, first: Addr, last: Addr)              // to_be_deleted
    | ChainStore(hand: Addr, first: Addr, last: Addr, val: Addr)  // last->next = val
    | ChainCas(hand: Addr, first: Addr, last: Addr)  // to_be_deleted CAS last->next -> first
    | Depart                                   // --threads_in_pop
    | FreeHand(hand: Addr)                     // delete old_head
    | Return(result: Result)

  /** A thread: the value its pop took, the nodes it claimed (bottom first), its place. */
  datatype Local = Local(res: Option<Value>, claimed: seq<Addr>, pc: PC)

  datatype State = State(
    head: Addr,
    count: nat,                     // threads_in_pop
    pend: Addr,                     // to_be_deleted
    nodes: map<Addr, Node>,
    th: seq<Local>,
    // the bookkeeping of the proof
    stack: seq<Addr>,               // the linked nodes, bottom first
    vals: seq<Value>,               // and what they carry
    waiting: seq<Addr>,             // the pending list, bottom first
    own: map<Addr, Owner<Shelf>>,
    inside: set<Tid>)               // the threads that threads_in_pop counts

  datatype Choice = Call(call: Call) | Address(a: Addr) | Weak(fails: bool) | Plain

  /** The operation that a step calls, if it calls one. */
  function CallOf(c: Choice): Option<Call> {
    if c.Call? then Some(c.call) else None
  }

  /** The nodes that the next step of thread t reads, writes or deletes. */
  function Touched(s: State, t: Tid): set<Addr>
    requires t < |s.th|
  {
    match s.th[t].pc
    case PushLoad(a, _) => {a}
    case PushCas(a, _) => {a}
    case PopNext(top) => {top}
    case Swap(x, _) => {x}
    case FreeNext(_, x) => {x}
    case FreeNode(_, x, _) => {x}
    case Walk(_, _, x) => {x}
    case ChainStore(_, _, x, _) => {x}
    case ChainCas(_, _, x) => {x}
    case FreeHand(x) => {x}
    case _ => {}
  }

  predicate Enabled(s: State, t: Tid, c: Choice) {
    t < |s.th| && Touched(s, t) <= s.nodes.Keys &&
    match s.th[t].pc
    case Idle => c.Call?
    case PushNew(_) => c.Address? && c.a != NULL && c.a !in s.nodes
    case PushCas(_, _) => c.Weak?
    case Leave(_, _) => c.Plain? && s.count > 0
    case Depart => c.Plain? && s.count > 0
    case _ => c.Plain?
  }

  function At(s: State, t: Tid, pc: PC): State
    requires t < |s.th|
  {
    s.(th := s.th[t := s.th[t].(pc := pc)])
  }

  // push

  function Allocate(s: State, t: Tid, v: Value, a: Addr): State
    requires t < |s.th|
  {
    At(s, t, PushLoad(a, v)).(nodes := s.nodes[a := Node(Some(v), NULL)], own := s.own[a := Private(t)])
  }

  function Relink(s: State, t: Tid, a: Addr, v: Value): State
    requires t < |s.th| && a in s.nodes
  {
    At(s, t, PushCas(a, v)).(nodes := s.nodes[a := s.nodes[a].(next := s.head)])
  }

  function Publish(s: State, t: Tid, a: Addr, v: Value): State
    requires t < |s.th|
  {
    At(s, t, Return(Pushed)).(
      head := a, stack := s.stack + [a], vals := s.vals + [v], own := s.own[a := Linked(|s.stack|)])
  }

  /** compare_exchange_weak: it may fail although the values agree. */
  function CasPush(s: State, t: Tid, a: Addr, v: Value, fails: bool): State
    requires t < |s.th| && a in s.nodes
  {
    if s.head == s.nodes[a].next && !fails then Publish(s, t, a, v) else Relink(s, t, a, v)
  }

  // pop

  function CountIn(s: State, t: Tid): State
    requires t < |s.th|
  {
    At(s, t, PopLoad).(count := s.count + 1, inside := s.inside + {t})
  }

  /** What a popper does with the head it has just seen. */
  function Look(s: State, t: Tid): State
    requires t < |s.th|
  {
    At(s, t, if s.head == NULL then Depart else PopNext(s.head))
  }

  function ReadNext(s: State, t: Tid, top: Addr): State
    requires t < |s.th| && top in s.nodes
  {
    At(s, t, PopCas(top, s.nodes[top].next))
  }

  /** The head goes to `next`, whatever that is. */
  function Unlink(s: State, t: Tid, top: Addr, next: Addr): State
    requires t < |s.th|
  {
    var n := if s.stack == [] || s.vals == [] then 0 else 1;
    At(s, t, Swap(top, if n == 1 then Some(s.vals[|s.vals| - 1]) else None)).(
      head := next, stack := s.stack[..|s.stack| - n], vals := s.vals[..|s.vals| - n],
      own := s.own[top := Hand(t)])
  }

  function CasPop(s: State, t: Tid, top: Addr, next: Addr): State
    requires t < |s.th|
  {
    if s.head == top then Unlink(s, t, top, next) else Look(s, t)
  }

  function SwapData(s: State, t: Tid, x: Addr): State
    requires t < |s.th| && x in s.nodes
  {
    s.(nodes := s.nodes[x := s.nodes[x].(data := None)],
       th := s.th[t := s.th[t].(res := s.nodes[x].data, pc := Test(x))])
  }

  // reclamation

  /** With anyone else inside, the node goes on a one-node list of its own. */
  function KeepForLater(s: State, t: Tid, x: Addr): State
    requires t < |s.th|
  {
    s.(own := s.own[x := Retired(Claimed(t, 0))],
       th := s.th[t := s.th[t].(claimed := [x], pc := ChainLoad(NULL, x, x))])
  }

  function TestAlone(s: State, t: Tid, x: Addr): State
    requires t < |s.th|
  {
    if s.count == 1 then At(s, t, Exchange(x)) else KeepForLater(s, t, x)
  }

  function ClaimAll(s: State, t: Tid, x: Addr): State
    requires t < |s.th|
  {
    s.(pend := NULL, waiting := [],
       own := map a | a in s.own ::
         if IsWaiting(s.own[a]) then Retired(Claimed(t, s.own[a].place.i)) else s.own[a],
       th := s.th[t := s.th[t].(claimed := s.waiting, pc := Leave(x, s.pend))])
  }

  /** Last one out deletes the list; otherwise a list that is not empty goes back. */
  function CountOut(s: State, t: Tid, x: Addr, list: Addr): State
    requires t < |s.th| && s.count > 0
  {
    At(s, t,
       if list == NULL then FreeHand(x)
       else if s.count == 1 then FreeNext(x, list)
       else Walk(x, list, list)).(count := s.count - 1, inside := s.inside - {t})
  }

  function ReadFree(s: State, t: Tid, x: Addr, list: Addr): State
    requires t < |s.th| && list in s.nodes
  {
    At(s, t, FreeNode(x, list, s.nodes[list].next))
  }

  function FreeOne(s: State, t: Tid, x: Addr, list: Addr, next: Addr): State
    requires t < |s.th|
  {
    var claimed := s.th[t].claimed;
    s.(nodes := s.nodes - {list}, own := s.own - {list},
       th := s.th[t := s.th[t].(claimed := if claimed == [] then [] else claimed[..|claimed| - 1],
                                pc := if next == NULL then FreeHand(x) else FreeNext(x, next))])
  }

  function WalkOn(s: State, t: Tid, x: Addr, first: Addr, last: Addr): State
    requires t < |s.th| && last in s.nodes
  {
    At(s, t, if s.nodes[last].next == NULL then ChainLoad(x, first, last)
             else Walk(x, first, s.nodes[last].next))
  }

  function StoreLast(s: State, t: Tid, x: Addr, first: Addr, last: Addr, val: Addr): State
    requires t < |s.th| && last in s.nodes
  {
    At(s, t, ChainCas(x, first, last)).(nodes := s.nodes[last := s.nodes[last].(next := val)])
  }

  function PutBack(s: State, t: Tid, x: Addr, first: Addr): State
    requires t < |s.th|
  {
    s.(pend := first, waiting := s.waiting + s.th[t].claimed,
       own := map a | a in s.own ::
         if IsClaimed(s.own[a]) && s.own[a].place.t == t then Retired(Waiting(|s.waiting| + s.own[a].place.i))
         else s.own[a],
       th := s.th[t := s.th[t].(claimed := [], pc := if x == NULL then Depart else FreeHand(x))])
  }

  function CasPending(s: State, t: Tid, x: Addr, first: Addr, last: Addr): State
    requires t < |s.th| && last in s.nodes
  {
    if s.pend == s.nodes[last].next then PutBack(s, t, x, first)
    else At(s, t, ChainStore(x, first, last, s.pend))
  }

  function LeaveLast(s: State, t: Tid): State
    requires t < |s.th| && s.count > 0
  {
    At(s, t, Return(Popped(s.th[t].res))).(count := s.count - 1, inside := s.inside - {t})
  }

  function DeleteHand(s: State, t: Tid, x: Addr): State
    requires t < |s.th|
  {
    At(s, t, Return(Popped(s.th[t].res))).(nodes := s.nodes - {x}, own := s.own - {x})
  }

  function Finish(s: State, t: Tid): State
    requires t < |s.th|
  {
    s.(th := s.th[t := s.th[t].(res := None, pc := Idle)])
  }

  function Step(s: State, t: Tid, c: Choice): State
    requires Enabled(s, t, c)
  {
    match s.th[t].pc
    case Idle => At(s, t, if c.call.Push? then PushNew(c.call.v) else Enter)
    case PushNew(v) => Allocate(s, t, v, c.a)
    case PushLoad(a, v) => Relink(s, t, a, v)
    case PushCas(a, v) => CasPush(s, t, a, v, c.fails)
    case Enter => CountIn(s, t)
    case PopLoad => Look(s, t)
    case PopNext(top) => ReadNext(s, t, top)
    case PopCas(top, next) => CasPop(s, t, top, next)
    case Swap(x, _) => SwapData(s, t, x)
    case Test(x) => TestAlone(s, t, x)
    case Exchange(x) => ClaimAll(s, t, x)
    case Leave(x, list) => CountOut(s, t, x, list)
    case FreeNext(x, list) => ReadFree(s, t, x, list)
    case FreeNode(x, list, next) => FreeOne(s, t, x, list, next)
    case Walk(x, first, last) => WalkOn(s, t, x, first, last)
    case ChainLoad(x, first, last) => At(s, t, ChainStore(x, first, last, s.pend))
    case ChainStore(x, first, last, val) => StoreLast(s, t, x, first, last, val)
    case ChainCas(x, first, last) => CasPending(s, t, x, first, last)
    case Depart => LeaveLast(s, t)
    case FreeHand(x) => DeleteHand(s, t, x)
    case Return(_) => Finish(s, t)
  }

  ghost predicate Init(s: State) {
    && s.head == NULL && s.count == 0 && s.pend == NULL && s.nodes == map[]
    && s.stack == [] && s.vals == [] && s.waiting == [] && s.own == map[] && s.inside == {}
    && forall t :: 0 <= t < |s.th| ==> s.th[t] == Local(None, [], Idle)
  }
}
