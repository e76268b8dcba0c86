/** The invariant of the hazard-pointer stack and its preservation by every step. */
module HazardSafety {
  import opened Memory
  import opened StackSpec
  import opened LinkedStack
  import opened HazardStack

  /** The node a thread has seen at the head after publishing it, and has not moved on from. */
  function ValidNode(pc: PC): Addr {
    match pc
    case PopNext(top) => top
    case PopCas(top, _) => top
    case _ => NULL
  }

  /** The node a thread has published in its slot and may have validated. */
  function Published(pc: PC): Addr {
    match pc
    case PopCheck(top) => top
    case PopNext(top) => top
    case PopCas(top, _) => top
    case _ => NULL
  }

  /** The node a thread scans the hazard slots for, and how many slots it has passed. */
  function ScanNode(pc: PC): Addr {
    match pc
    case HandScan(x, _) => x
    case BoxScan(_, _, x, _) => x
    case _ => NULL
  }

  function ScanPos(pc: PC): nat {
    match pc
    case HandScan(_, k) => k
    case BoxScan(_, _, _, k) => k
    case _ => 0
  }

  /** The unpublished node, popped node and box in a thread's locals, or NULL. */
  function PrivateNode(pc: PC): Addr {
    match pc
    case PushLoad(a, _) => a
    case PushCas(a, _) => a
    case _ => NULL
  }

  function HandNode(pc: PC): Addr {
    match pc
    case PopClear(top, _) => top
    case PopSwap(top, _) => top
    case HandScan(x, _) => x
    case BoxNew(x) => x
    case _ => NULL
  }

  function CarriedBox(pc: PC): Addr {
    match pc
    case BoxLoad(b, _) => b
    case BoxCas(b, _) => b
    case BoxScan(b, _, _, _) => b
    case _ => NULL
  }

  /** The box the claimed list starts with, in the states that walk it. */
  function WalkFrom(pc: PC): Option<Addr> {
    match pc
    case Walk(b) => Some(b)
    case BoxScan(_, next, _, _) => Some(next)
    case BoxLoad(_, rest) => rest
    case BoxCas(_, rest) => rest
    case _ => None
  }

  function NeedsSlot(pc: PC): bool {
    pc.PopLoad? || pc.PopHazard? || pc.PopCheck? || pc.PopNext? || pc.PopCas? || pc.PopClear?
  }

  /** The shared reclaim list is exactly the chain from `nodes_to_reclaim`. */
  ghost predicate ListOk(reclaim: Addr, pending: seq<Addr>,
                         boxes: map<Addr, Box>, boxOwn: map<Addr, BoxOwner>) {
    && reclaim == Top(pending)
    && NULL !in boxes && boxOwn.Keys == boxes.Keys
    && (forall i :: 0 <= i < |pending| ==>
          pending[i] in boxOwn && boxOwn[pending[i]] == Shared(i))
    && (pending != [] ==> boxes[pending[0]].next == NULL)
    && (forall i, j :: 0 <= i && j == i + 1 < |pending| ==> boxes[pending[j]].next == pending[i])
    && (forall b {:trigger boxOwn[b].Shared?} :: b in boxOwn && boxOwn[b].Shared? ==>
          boxOwn[b].i < |pending| && pending[boxOwn[b].i] == b)
  }

  /** Boxes and boxed nodes correspond one to one. */
  ghost predicate BoxedOk(boxes: map<Addr, Box>, own: map<Addr, Owner<Addr>>) {
    && (forall b {:trigger boxes[b].node} :: b in boxes ==>
          boxes[b].node in own && own[boxes[b].node] == Retired(b))
    && (forall a {:trigger own[a].Retired?} :: a in own && own[a].Retired? ==>
          own[a].place in boxes && boxes[own[a].place].node == a)
  }

  /** A node held by a thread is in that thread's locals. */
  ghost predicate HeldOk(own: map<Addr, Owner<Addr>>, th: seq<Local>) {
    && (forall a {:trigger own[a].Private?} :: a in own && own[a].Private? ==>
          own[a].t < |th| && PrivateNode(th[own[a].t].pc) == a)
    && (forall a {:trigger own[a].Hand?} :: a in own && own[a].Hand? ==>
          own[a].t < |th| && HandNode(th[own[a].t].pc) == a)
  }

  /** A box held by a thread is in that thread's locals. */
  ghost predicate KeptOk(boxOwn: map<Addr, BoxOwner>, th: seq<Local>) {
    && (forall b {:trigger boxOwn[b].Carried?} :: b in boxOwn && boxOwn[b].Carried? ==>
          boxOwn[b].t < |th| && CarriedBox(th[boxOwn[b].t].pc) == b)
    && (forall b {:trigger boxOwn[b].Claimed?} :: b in boxOwn && boxOwn[b].Claimed? ==>
          && boxOwn[b].t < |th| && boxOwn[b].i < |th[boxOwn[b].t].claimed|
          && th[boxOwn[b].t].claimed[boxOwn[b].i] == b)
  }

  /** The nodes in the locals of thread t. */
  ghost predicate NodesOk(nodes: map<Addr, Node>, own: map<Addr, Owner<Addr>>, t: Tid, l: Local) {
    && (PrivateNode(l.pc) != NULL ==>
          && PrivateNode(l.pc) in own && own[PrivateNode(l.pc)] == Private(t)
          && PrivateNode(l.pc) in nodes && nodes[PrivateNode(l.pc)].data == Some(l.pc.v))
    && (l.pc.PushLoad? || l.pc.PushCas? ==> PrivateNode(l.pc) != NULL)
    && (HandNode(l.pc) != NULL ==>
          && HandNode(l.pc) in own && own[HandNode(l.pc)] == Hand(t) && HandNode(l.pc) in nodes
          && (l.pc.PopClear? || l.pc.PopSwap? ==> l.pc.lin.Some? && nodes[HandNode(l.pc)].data == l.pc.lin))
    && (l.pc.PopClear? && l.pc.top == NULL ==> l.pc.lin == None)
    && (l.pc.PopSwap? || l.pc.HandScan? || l.pc.BoxNew? ==> HandNode(l.pc) != NULL)
    && (l.pc.HandScan? || l.pc.BoxNew? || l.pc.Claim? || WalkFrom(l.pc).Some? || CarriedBox(l.pc) != NULL ==>
          l.res.Some?)
  }

  /** The hazard slot of thread t. */
  ghost predicate SlotOk(pointers: seq<Addr>, ids: seq<Option<Tid>>, t: Tid, l: Local) {
    && |pointers| == |ids|
    && (l.slot.Some? ==> l.slot.value < |ids| && ids[l.slot.value] == Some(t))
    && (NeedsSlot(l.pc) ==> l.slot.Some?)
    && (l.pc.SlotCas? ==> l.slot.None? && l.pc.i <= |ids|)
    && (l.pc.ExitId? ==> l.slot == Some(l.pc.slot))
    && (l.pc.ExitPointer? ==> l.pc.slot < |ids|)
    && (Published(l.pc) != NULL ==> pointers[l.slot.value] == Published(l.pc))
    && ScanPos(l.pc) <= |ids|
  }

  /** The node thread t has validated: allocated, published, its successor as read. */
  ghost predicate ValidOk(nodes: map<Addr, Node>, own: map<Addr, Owner<Addr>>, l: Local) {
    && (l.pc.PopNext? || l.pc.PopCas? ==>
          l.pc.top != NULL && l.pc.top in nodes && l.pc.top in own && !own[l.pc.top].Private?)
    && (l.pc.PopCas? ==> nodes[l.pc.top].next == l.pc.next)
  }

  /** The boxes in the locals of thread t. */
  ghost predicate ClaimsOk(boxes: map<Addr, Box>, boxOwn: map<Addr, BoxOwner>, t: Tid, l: Local) {
    && (l.pc.BoxLoad? || l.pc.BoxCas? || l.pc.BoxScan? ==>
          && CarriedBox(l.pc) != NULL && CarriedBox(l.pc) in boxes
          && CarriedBox(l.pc) in boxOwn && boxOwn[CarriedBox(l.pc)] == Carried(t))
    && (l.pc.BoxScan? ==> boxes[l.pc.current].node == l.pc.node)
    && (if WalkFrom(l.pc).Some? then WalkFrom(l.pc).value == Top(l.claimed) else l.claimed == [])
    && (forall i :: 0 <= i < |l.claimed| ==>
          && l.claimed[i] in boxes && l.claimed[i] in boxOwn
          && boxOwn[l.claimed[i]] == Claimed(t, i))
    && (l.claimed != [] ==> boxes[l.claimed[0]].next == NULL)
    && (forall i, j :: 0 <= i && j == i + 1 < |l.claimed| ==>
          boxes[l.claimed[j]].next == l.claimed[i])
  }

  ghost predicate ThreadOk(s: State, t: Tid)
    requires t < |s.th|
  {
    && NodesOk(s.nodes, s.own, t, s.th[t]) && SlotOk(s.pointers, s.ids, t, s.th[t])
    && ValidOk(s.nodes, s.own, s.th[t]) && ClaimsOk(s.boxes, s.boxOwn, t, s.th[t])
  }

  ghost predicate ThreadsOk(s: State) {
    forall t {:trigger s.th[t]} :: 0 <= t < |s.th| ==> ThreadOk(s, t)
  }

  /** A validated node is protected from every scan: the scan has not reached its slot yet. */
  ghost predicate ScansOk(th: seq<Local>) {
    forall u, t ::
      && 0 <= u < |th| && 0 <= t < |th|
      && ValidNode(th[t].pc) != NULL && ScanNode(th[u].pc) == ValidNode(th[t].pc)
      ==> th[t].slot.Some? && ScanPos(th[u].pc) <= th[t].slot.value
  }

  ghost predicate MemoryOk(s: State) {
    && StackOk(s.head, s.stack, s.vals, s.nodes, s.own)
    && ListOk(s.reclaim, s.pending, s.boxes, s.boxOwn) && BoxedOk(s.boxes, s.own)
    && HeldOk(s.own, s.th) && KeptOk(s.boxOwn, s.th)
  }

  ghost predicate Inv(s: State) {
    MemoryOk(s) && ThreadsOk(s) && ScansOk(s.th)
  }

  /** A slot cleared by its former owner is not one in which its new owner has published. */
  ghost predicate Orderly(s: State, t: Tid) {
    t < |s.th| && s.th[t].pc.ExitPointer? ==>
      forall u :: 0 <= u < |s.th| && s.th[u].slot == Some(s.th[t].pc.slot) ==> Published(s.th[u].pc) == NULL
  }

  // Frames: what a step of t may change without disturbing the others.

  /** Thread u holds node `a`, by an owner map. */
  ghost predicate Holds(own: map<Addr, Owner<Addr>>, u: Tid, a: Addr) {
    a in own && (own[a] == Private(u) || own[a] == Hand(u))
  }

  ghost predicate NodesFrame(s: State, s': State, t: Tid) {
    && (forall a, u :: u != t && Holds(s.own, u, a) && a in s.nodes ==>
          a in s'.own && s'.own[a] == s.own[a] && a in s'.nodes && s'.nodes[a].data == s.nodes[a].data)
    && (forall a {:trigger s.own[a].Private?} :: a in s.own && a in s.nodes && !s.own[a].Private? ==>
          || (a in s'.own && !s'.own[a].Private? && a in s'.nodes && s'.nodes[a].next == s.nodes[a].next)
          || (forall u :: 0 <= u < |s.th| ==> ValidNode(s.th[u].pc) != a))
  }

  ghost predicate SlotsFrame(s: State, s': State, t: Tid) {
    && |s'.pointers| == |s.pointers| && |s'.ids| == |s.ids|
    && forall u :: 0 <= u < |s.th| && u != t && s.th[u].slot.Some? ==>
         var k := s.th[u].slot.value;
         k < |s.ids| && k < |s.pointers| ==>
           s'.ids[k] == s.ids[k] && (Published(s.th[u].pc) != NULL ==> s'.pointers[k] == s.pointers[k])
  }

  /** Thread u holds box `b`, by an owner map. */
  ghost predicate Keeps(own: map<Addr, BoxOwner>, u: Tid, b: Addr) {
    b in own && (own[b] == Carried(u) || (own[b].Claimed? && own[b].t == u))
  }

  ghost predicate BoxesFrame(s: State, s': State, t: Tid) {
    forall b, u :: u != t && Keeps(s.boxOwn, u, b) && b in s.boxes ==>
      b in s'.boxOwn && s'.boxOwn[b] == s.boxOwn[b] && b in s'.boxes && s'.boxes[b] == s.boxes[b]
  }

  lemma FrameNodes(s: State, s': State, t: Tid, u: Tid)
    requires ThreadsOk(s) && NodesFrame(s, s', t) && u < |s.th| && u != t
    ensures NodesOk(s'.nodes, s'.own, u, s.th[u]) && ValidOk(s'.nodes, s'.own, s.th[u])
  {
    var pc := s.th[u].pc;
    assert PrivateNode(pc) != NULL ==> Holds(s.own, u, PrivateNode(pc));
    assert HandNode(pc) != NULL ==> Holds(s.own, u, HandNode(pc));
  }

  lemma FrameSlots(s: State, s': State, t: Tid, u: Tid)
    requires ThreadsOk(s) && SlotsFrame(s, s', t) && u < |s.th| && u != t
    ensures SlotOk(s'.pointers, s'.ids, u, s.th[u])
  {
  }

  lemma FrameBoxes(s: State, s': State, t: Tid, u: Tid)
    requires ThreadsOk(s) && BoxesFrame(s, s', t) && u < |s.th| && u != t
    ensures ClaimsOk(s'.boxes, s'.boxOwn, u, s.th[u])
  {
    var l := s.th[u];
    assert CarriedBox(l.pc) != NULL ==> Keeps(s.boxOwn, u, CarriedBox(l.pc));
    forall i | 0 <= i < |l.claimed|
      ensures Keeps(s.boxOwn, u, l.claimed[i])
    {
    }
  }

  lemma FrameThreads(s: State, s': State, t: Tid, l: Local)
    requires t < |s.th| && s'.th == s.th[t := l]
    requires ThreadsOk(s) && NodesFrame(s, s', t) && SlotsFrame(s, s', t) && BoxesFrame(s, s', t)
    requires ThreadOk(s', t)
    ensures ThreadsOk(s')
  {
    forall u | 0 <= u < |s.th| && u != t
      ensures ThreadOk(s', u)
    {
      FrameNodes(s, s', t, u);
      FrameSlots(s, s', t, u);
      FrameBoxes(s, s', t, u);
    }
  }

  // One node or one box changes.

  /** The exchange hands the whole shared list to t. */
  lemma ClaimBoxes(s: State, s': State, t: Tid)
    requires t < |s.th| && ListOk(s.reclaim, s.pending, s.boxes, s.boxOwn) && KeptOk(s.boxOwn, s.th)
    requires s.th[t].claimed == [] && CarriedBox(s.th[t].pc) == NULL && NULL !in s.boxOwn
    requires s' == ClaimAll(s, t)
    ensures ListOk(NULL, [], s.boxes, s'.boxOwn) && KeptOk(s'.boxOwn, s'.th)
    ensures BoxesFrame(s, s', t) && ClaimsOk(s.boxes, s'.boxOwn, t, s'.th[t])
  {
  }

  /** The walk takes the first claimed box. */
  lemma TakeClaim(boxes: map<Addr, Box>, boxOwn: map<Addr, BoxOwner>, t: Tid, l: Local)
    requires ClaimsOk(boxes, boxOwn, t, l) && l.pc.Walk? && l.pc.current != NULL
    ensures l.claimed != [] && l.claimed == l.claimed[..|l.claimed| - 1] + [l.pc.current]
    ensures l.pc.current in boxes && l.pc.current in boxOwn
    ensures boxOwn[l.pc.current] == Claimed(t, |l.claimed| - 1)
    ensures boxes[l.pc.current].next == Top(l.claimed[..|l.claimed| - 1])
  {
    assert l.claimed[|l.claimed| - 1] == l.pc.current;
  }

  lemma RestOfClaim(boxes: map<Addr, Box>, boxOwn: map<Addr, BoxOwner>, t: Tid, l: Local, l': Local)
    requires ClaimsOk(boxes, boxOwn, t, l) && l.pc.Walk? && l.pc.current != NULL && l.claimed != []
    requires l'.claimed == l.claimed[..|l.claimed| - 1] && l.pc.current in boxes
    requires boxOwn[l.pc.current] == Claimed(t, |l.claimed| - 1)
    requires boxes[l.pc.current].next == Top(l'.claimed)
    requires l'.pc == BoxScan(l.pc.current, boxes[l.pc.current].next, boxes[l.pc.current].node, 0)
    ensures ClaimsOk(boxes, boxOwn[l.pc.current := Carried(t)], t, l')
  {
    forall i | 0 <= i < |l'.claimed|
      ensures l'.claimed[i] == l.claimed[i] && l'.claimed[i] != l.pc.current
    {
      assert boxOwn[l.claimed[i]] == Claimed(t, i);
    }
  }

  lemma PushList(reclaim: Addr, pending: seq<Addr>, boxes: map<Addr, Box>,
                 boxOwn: map<Addr, BoxOwner>, b: Addr)
    requires ListOk(reclaim, pending, boxes, boxOwn)
    requires b in boxOwn && !boxOwn[b].Shared? && boxes[b].next == reclaim
    ensures ListOk(b, pending + [b], boxes, boxOwn[b := Shared(|pending|)])
  {
  }

  lemma FrameScans(th: seq<Local>, t: Tid, l: Local)
    requires t < |th| && ScansOk(th)
    requires ValidNode(l.pc) != NULL ==> l.slot.Some? && ScanNode(l.pc) == NULL
    requires ValidNode(l.pc) == NULL || (ValidNode(l.pc) == ValidNode(th[t].pc) && l.slot == th[t].slot) ||
      forall u :: 0 <= u < |th| ==> ScanNode(th[u].pc) != ValidNode(l.pc)
    requires ScanNode(l.pc) == NULL ||
      forall u :: 0 <= u < |th| && ValidNode(th[u].pc) == ScanNode(l.pc) ==>
        th[u].slot.Some? && ScanPos(l.pc) <= th[u].slot.value
    ensures ScansOk(th[t := l])
  {
  }

  /** The locals l publish nothing, validate nothing and begin at most a new scan. */
  ghost predicate Quiet(s: State, s': State, t: Tid, l: Local)
    requires t < |s.th|
  {
    && s'.th == s.th[t := l] && SlotsFrame(s, s', t) && SlotOk(s'.pointers, s'.ids, t, l)
    && !l.pc.PopNext? && !l.pc.PopCas?
    && (ScanNode(l.pc) == NULL || ScanPos(l.pc) == 0)
  }

  lemma QuietScans(s: State, s': State, t: Tid, l: Local)
    requires ThreadsOk(s) && ScansOk(s.th) && t < |s.th| && Quiet(s, s', t, l)
    ensures ScansOk(s'.th)
  {
    FrameScans(s.th, t, l);
  }

  /** The locals l hold what they held before. */
  ghost predicate SameHoldings(l0: Local, l: Local) {
    && l.claimed == l0.claimed && WalkFrom(l.pc) == WalkFrom(l0.pc)
    && PrivateNode(l.pc) == PrivateNode(l0.pc) && HandNode(l.pc) == HandNode(l0.pc)
    && CarriedBox(l.pc) == CarriedBox(l0.pc)
  }

  /** A step that changes nothing but locals, hazard slots and ids. */
  lemma KeepControl(s: State, s': State, t: Tid, l: Local)
    requires Inv(s) && t < |s.th|
    requires s' == s.(pointers := s'.pointers, ids := s'.ids, th := s.th[t := l])
    requires SlotsFrame(s, s', t) && SlotOk(s'.pointers, s'.ids, t, l) && SameHoldings(s.th[t], l)
    requires NodesOk(s.nodes, s.own, t, l) && ValidOk(s.nodes, s.own, l)
    requires ClaimsOk(s.boxes, s.boxOwn, t, l)
    requires ScansOk(s'.th)
    ensures Inv(s')
  {
    FrameThreads(s, s', t, l);
  }

  lemma KeepQuiet(s: State, s': State, t: Tid, l: Local)
    requires Inv(s) && t < |s.th| && Quiet(s, s', t, l) && SameHoldings(s.th[t], l)
    requires s' == s.(pointers := s'.pointers, ids := s'.ids, th := s.th[t := l])
    requires NodesOk(s.nodes, s.own, t, l) && ClaimsOk(s.boxes, s.boxOwn, t, l)
    ensures Inv(s')
  {
    QuietScans(s, s', t, l);
    KeepControl(s, s', t, l);
  }

  /** Locals that publish nothing, validate nothing and begin at most a new scan. */
  ghost predicate Passive(l0: Local, l: Local) {
    && l.slot == l0.slot && (NeedsSlot(l.pc) ==> NeedsSlot(l0.pc))
    && !l.pc.PopCheck? && !l.pc.PopNext? && !l.pc.PopCas? && !l.pc.SlotCas?
    && !l.pc.ExitId? && !l.pc.ExitPointer? && ScanPos(l.pc) == 0
  }

  lemma PassiveQuiet(s: State, s': State, t: Tid, l: Local)
    requires ThreadsOk(s) && t < |s.th| && s'.th == s.th[t := l] && Passive(s.th[t], l)
    requires s'.pointers == s.pointers && s'.ids == s.ids
    ensures Quiet(s, s', t, l)
  {
  }

  /** A step that changes nodes or boxes. */
  lemma KeepMemory(s: State, s': State, t: Tid, l: Local)
    requires Inv(s) && t < |s.th| && s'.th == s.th[t := l] && Passive(s.th[t], l)
    requires s'.pointers == s.pointers && s'.ids == s.ids
    requires MemoryOk(s') && NodesFrame(s, s', t) && BoxesFrame(s, s', t)
    requires NodesOk(s'.nodes, s'.own, t, l) && ClaimsOk(s'.boxes, s'.boxOwn, t, l)
    ensures Inv(s')
  {
    PassiveQuiet(s, s', t, l);
    QuietScans(s, s', t, l);
    FrameThreads(s, s', t, l);
  }

  lemma WriteFrame(s: State, s': State, t: Tid, a: Addr, n: Node, o: Owner<Addr>)
    requires s'.nodes == s.nodes[a := n] && s'.own == s.own[a := o]
    requires a in s.own && (s.own[a].Private? || s.own[a].Hand?) ==> s.own[a].t == t
    requires a in s.own && !s.own[a].Private? ==> !o.Private? && a in s.nodes && n.next == s.nodes[a].next
    ensures NodesFrame(s, s', t)
  {
  }

  lemma WriteHeld(own: map<Addr, Owner<Addr>>, th: seq<Local>, t: Tid, l: Local, a: Addr, o: Owner<Addr>)
    requires HeldOk(own, th) && t < |th| && a != NULL && NULL !in own
    requires PrivateNode(th[t].pc) in {NULL, a} && HandNode(th[t].pc) in {NULL, a}
    requires o.Private? ==> o.t == t && PrivateNode(l.pc) == a
    requires o.Hand? ==> o.t == t && HandNode(l.pc) == a
    ensures HeldOk(own[a := o], th[t := l])
  {
  }

  /** Node `a`, which t holds or makes, is written; the stack keeps its shape or gains or loses `a`. */
  lemma WriteNode(s: State, s': State, t: Tid, l: Local, a: Addr, n: Node, o: Owner<Addr>)
    requires MemoryOk(s) && t < |s.th|
    requires s' == s.(head := s'.head, stack := s'.stack, vals := s'.vals,
                      nodes := s.nodes[a := n], own := s.own[a := o], th := s.th[t := l])
    requires StackOk(s'.head, s'.stack, s'.vals, s'.nodes, s'.own)
    requires a != NULL && !o.Retired?
    requires a in s.own ==> !s.own[a].Retired? && (s.own[a].Private? || s.own[a].Hand? ==> s.own[a].t == t)
    requires a in s.own && !s.own[a].Private? ==> !o.Private? && n.next == s.nodes[a].next
    requires o.Private? ==> o.t == t && PrivateNode(l.pc) == a
    requires o.Hand? ==> o.t == t && HandNode(l.pc) == a
    requires PrivateNode(s.th[t].pc) in {NULL, a} && HandNode(s.th[t].pc) in {NULL, a}
    requires l.claimed == s.th[t].claimed && CarriedBox(l.pc) == CarriedBox(s.th[t].pc)
    ensures MemoryOk(s') && NodesFrame(s, s', t) && BoxesFrame(s, s', t)
  {
    WriteFrame(s, s', t, a, n, o);
    WriteHeld(s.own, s.th, t, l, a, o);
  }

  lemma KeepWrite(s: State, s': State, t: Tid, l: Local, a: Addr, n: Node, o: Owner<Addr>)
    requires Inv(s) && t < |s.th| && Passive(s.th[t], l)
    requires NodesOk(s'.nodes, s'.own, t, l) && ClaimsOk(s'.boxes, s'.boxOwn, t, l)
    requires s' == s.(head := s'.head, stack := s'.stack, vals := s'.vals,
                      nodes := s.nodes[a := n], own := s.own[a := o], th := s.th[t := l])
    requires StackOk(s'.head, s'.stack, s'.vals, s'.nodes, s'.own)
    requires a != NULL && !o.Retired?
    requires a in s.own ==> !s.own[a].Retired? && (s.own[a].Private? || s.own[a].Hand? ==> s.own[a].t == t)
    requires a in s.own && !s.own[a].Private? ==> !o.Private? && n.next == s.nodes[a].next
    requires o.Private? ==> o.t == t && PrivateNode(l.pc) == a
    requires o.Hand? ==> o.t == t && HandNode(l.pc) == a
    requires PrivateNode(s.th[t].pc) in {NULL, a} && HandNode(s.th[t].pc) in {NULL, a}
    requires l.claimed == s.th[t].claimed && CarriedBox(l.pc) == CarriedBox(s.th[t].pc)
    ensures Inv(s')
  {
    WriteNode(s, s', t, l, a, n, o);
    KeepMemory(s, s', t, l);
  }

  lemma RewriteKept(boxOwn: map<Addr, BoxOwner>, th: seq<Local>, t: Tid, l: Local, b: Addr, o: BoxOwner)
    requires KeptOk(boxOwn, th) && t < |th| && CarriedBox(th[t].pc) in {NULL, b} && NULL !in boxOwn
    requires b in boxOwn && (boxOwn[b] == Carried(t) || (boxOwn[b].Claimed? && boxOwn[b].t == t))
    requires !o.Claimed? && (o.Carried? ==> o.t == t && CarriedBox(l.pc) == b)
    requires l.claimed == th[t].claimed || (th[t].claimed != [] && th[t].claimed == l.claimed + [b])
    ensures KeptOk(boxOwn[b := o], th[t := l])
  {
  }

  /** Box `b`, which t holds, is written; the shared list keeps its shape or gains `b`. */
  lemma RewriteBox(s: State, s': State, t: Tid, l: Local, b: Addr, n: Box, o: BoxOwner)
    requires MemoryOk(s) && t < |s.th|
    requires s' == s.(reclaim := s'.reclaim, pending := s'.pending,
                      boxes := s.boxes[b := n], boxOwn := s.boxOwn[b := o], th := s.th[t := l])
    requires ListOk(s'.reclaim, s'.pending, s'.boxes, s'.boxOwn)
    requires b in s.boxOwn && b in s.boxes && n.node == s.boxes[b].node
    requires s.boxOwn[b] == Carried(t) || (s.boxOwn[b].Claimed? && s.boxOwn[b].t == t)
    requires !o.Claimed? && (o.Carried? ==> o.t == t && CarriedBox(l.pc) == b)
    requires CarriedBox(s.th[t].pc) in {NULL, b}
    requires l.claimed == s.th[t].claimed
          || (s.th[t].claimed != [] && s.th[t].claimed == l.claimed + [b])
    requires PrivateNode(l.pc) == PrivateNode(s.th[t].pc) && HandNode(l.pc) == HandNode(s.th[t].pc)
    ensures MemoryOk(s') && NodesFrame(s, s', t) && BoxesFrame(s, s', t)
  {
    assert s.own[n.node := Retired(b)] == s.own;
    RewriteKept(s.boxOwn, s.th, t, l, b, o);
  }

  lemma DeleteNode(s: State, s': State, t: Tid, l: Local, x: Addr)
    requires MemoryOk(s) && t < |s.th|
    requires s' == s.(nodes := s.nodes - {x}, own := s.own - {x}, th := s.th[t := l])
    requires x in s.own && s.own[x] == Hand(t)
    requires PrivateNode(s.th[t].pc) == NULL && HandNode(s.th[t].pc) == x
    requires forall u :: 0 <= u < |s.th| ==> ValidNode(s.th[u].pc) != x
    requires l.claimed == s.th[t].claimed && CarriedBox(l.pc) == CarriedBox(s.th[t].pc)
    ensures MemoryOk(s') && NodesFrame(s, s', t) && BoxesFrame(s, s', t)
  {
  }

  lemma DeleteBox(s: State, s': State, t: Tid, l: Local, x: Addr, b: Addr)
    requires MemoryOk(s) && t < |s.th|
    requires s' == s.(nodes := s.nodes - {x}, own := s.own - {x},
                      boxes := s.boxes - {b}, boxOwn := s.boxOwn - {b}, th := s.th[t := l])
    requires b in s.boxes && b in s.boxOwn && s.boxOwn[b] == Carried(t) && x == s.boxes[b].node
    requires CarriedBox(s.th[t].pc) == b && l.claimed == s.th[t].claimed
    ensures ListOk(s'.reclaim, s'.pending, s'.boxes, s'.boxOwn) && BoxedOk(s'.boxes, s'.own)
    ensures KeptOk(s'.boxOwn, s'.th) && BoxesFrame(s, s', t)
  {
  }

  lemma DeleteBoxedNode(s: State, s': State, t: Tid, l: Local, x: Addr, b: Addr)
    requires MemoryOk(s) && t < |s.th|
    requires s' == s.(nodes := s.nodes - {x}, own := s.own - {x},
                      boxes := s.boxes - {b}, boxOwn := s.boxOwn - {b}, th := s.th[t := l])
    requires b in s.boxes && x == s.boxes[b].node && PrivateNode(s.th[t].pc) == NULL == HandNode(s.th[t].pc)
    requires forall u :: 0 <= u < |s.th| ==> ValidNode(s.th[u].pc) != x
    ensures StackOk(s'.head, s'.stack, s'.vals, s'.nodes, s'.own) && HeldOk(s'.own, s'.th)
    ensures NodesFrame(s, s', t)
  {
  }

  lemma RetireBoxes(s: State, s': State, t: Tid, x: Addr, b: Addr)
    requires MemoryOk(s) && t < |s.th| && s' == Retire(s, t, x, b)
    requires Fresh(s, b) && x in s.own && s.own[x] == Hand(t)
    requires CarriedBox(s.th[t].pc) == NULL
    ensures ListOk(s'.reclaim, s'.pending, s'.boxes, s'.boxOwn) && BoxedOk(s'.boxes, s'.own)
    ensures KeptOk(s'.boxOwn, s'.th) && BoxesFrame(s, s', t)
  {
  }

  lemma RetireNodes(s: State, s': State, t: Tid, x: Addr, b: Addr)
    requires MemoryOk(s) && t < |s.th| && s' == Retire(s, t, x, b)
    requires x in s.own && s.own[x] == Hand(t)
    requires PrivateNode(s.th[t].pc) == NULL && HandNode(s.th[t].pc) == x
    ensures StackOk(s'.head, s'.stack, s'.vals, s'.nodes, s'.own)
    ensures HeldOk(s'.own, s'.th) && NodesFrame(s, s', t)
  {
  }

  /** The claimed boxes of t are untouched by what it does to the box it carries. */
  lemma OwnClaims(boxes: map<Addr, Box>, boxOwn: map<Addr, BoxOwner>,
                  boxes': map<Addr, Box>, boxOwn': map<Addr, BoxOwner>, t: Tid, l: Local, l': Local)
    requires ClaimsOk(boxes, boxOwn, t, l) && CarriedBox(l.pc) != NULL
    requires l'.claimed == l.claimed && WalkFrom(l'.pc) == WalkFrom(l.pc) && !l'.pc.BoxScan?
    requires forall c :: c in boxes && c != CarriedBox(l.pc) ==> c in boxes' && boxes'[c] == boxes[c]
    requires forall c :: c in boxOwn && c != CarriedBox(l.pc) ==> c in boxOwn' && boxOwn'[c] == boxOwn[c]
    requires CarriedBox(l'.pc) == NULL ==> !l'.pc.BoxLoad? && !l'.pc.BoxCas?
    requires CarriedBox(l'.pc) != NULL ==>
      && CarriedBox(l'.pc) == CarriedBox(l.pc) && CarriedBox(l.pc) in boxes'
      && CarriedBox(l.pc) in boxOwn' && boxOwn'[CarriedBox(l.pc)] == Carried(t)
    requires l.pc.BoxLoad? || l.pc.BoxCas? || l.pc.BoxScan?
    ensures ClaimsOk(boxes', boxOwn', t, l')
  {
  }

  lemma CarriesBox(s: State, t: Tid)
    requires t < |s.th| && ThreadOk(s, t)
    requires s.th[t].pc.BoxLoad? || s.th[t].pc.BoxCas? || s.th[t].pc.BoxScan?
    ensures CarriedBox(s.th[t].pc) != NULL && CarriedBox(s.th[t].pc) in s.boxes
    ensures CarriedBox(s.th[t].pc) in s.boxOwn && s.boxOwn[CarriedBox(s.th[t].pc)] == Carried(t)
    ensures s.th[t].pc.BoxScan? ==> s.boxes[s.th[t].pc.current].node == s.th[t].pc.node
  {
  }

  /** What t holds after a step on the box it carries. */
  lemma AfterBox(s: State, s': State, t: Tid, l: Local)
    requires t < |s.th| && ThreadOk(s, t) && CarriedBox(s.th[t].pc) != NULL
    requires (s.th[t].pc.BoxLoad? || s.th[t].pc.BoxCas? || s.th[t].pc.BoxScan?) && !l.pc.BoxScan?
    requires l.slot == s.th[t].slot && l.res == s.th[t].res && l.claimed == s.th[t].claimed
    requires PrivateNode(l.pc) == NULL == HandNode(l.pc) && !l.pc.PushLoad? && !l.pc.PushCas?
    requires !l.pc.PopClear? && !l.pc.PopSwap? && !l.pc.HandScan? && !l.pc.BoxNew?
    requires WalkFrom(l.pc) == WalkFrom(s.th[t].pc)
    requires var b := CarriedBox(s.th[t].pc);
      && (forall c :: c in s.boxes && c != b ==> c in s'.boxes && s'.boxes[c] == s.boxes[c])
      && (forall c :: c in s.boxOwn && c != b ==> c in s'.boxOwn && s'.boxOwn[c] == s.boxOwn[c])
      && (CarriedBox(l.pc) == NULL ==> !l.pc.BoxLoad? && !l.pc.BoxCas?)
      && (CarriedBox(l.pc) != NULL ==>
            CarriedBox(l.pc) == b && b in s'.boxes && b in s'.boxOwn && s'.boxOwn[b] == Carried(t))
    ensures NodesOk(s'.nodes, s'.own, t, l) && ClaimsOk(s'.boxes, s'.boxOwn, t, l)
  {
    OwnClaims(s.boxes, s.boxOwn, s'.boxes, s'.boxOwn, t, s.th[t], l);
  }

  lemma RelinkBoxMemory(s: State, s': State, t: Tid, b: Addr, rest: Option<Addr>)
    requires MemoryOk(s) && t < |s.th| && b in s.boxes && s' == RelinkBox(s, t, b, rest)
    requires s.th[t].pc == BoxLoad(b, rest) || s.th[t].pc == BoxCas(b, rest)
    requires b in s.boxOwn && s.boxOwn[b] == Carried(t)
    ensures MemoryOk(s') && NodesFrame(s, s', t) && BoxesFrame(s, s', t)
  {
    assert s.boxOwn[b := Carried(t)] == s.boxOwn;
    RewriteBox(s, s', t, s'.th[t], b, s'.boxes[b], Carried(t));
  }

  lemma PublishBoxMemory(s: State, s': State, t: Tid, b: Addr, rest: Option<Addr>)
    requires MemoryOk(s) && t < |s.th| && b in s.boxes && s' == PublishBox(s, t, b, rest)
    requires s.th[t].pc == BoxCas(b, rest) && s.boxes[b].next == s.reclaim
    requires b in s.boxOwn && s.boxOwn[b] == Carried(t)
    ensures MemoryOk(s') && NodesFrame(s, s', t) && BoxesFrame(s, s', t)
  {
    PushList(s.reclaim, s.pending, s.boxes, s.boxOwn, b);
    assert s.boxes[b := s.boxes[b]] == s.boxes;
    RewriteBox(s, s', t, s'.th[t], b, s.boxes[b], Shared(|s.pending|));
  }

  /** No other thread has validated the node whose scan has passed every slot. */
  lemma ScannedNotValid(s: State, t: Tid)
    requires ThreadsOk(s) && ScansOk(s.th) && t < |s.th|
    requires ScanNode(s.th[t].pc) != NULL && ScanPos(s.th[t].pc) == |s.ids|
    ensures forall u :: 0 <= u < |s.th| ==> ValidNode(s.th[u].pc) != ScanNode(s.th[t].pc)
  {
    forall u | 0 <= u < |s.th|
      ensures ValidNode(s.th[u].pc) != ScanNode(s.th[t].pc)
    {
      assert ThreadOk(s, u);
    }
  }

  /** A scan that goes past slot k leaves no thread behind that validated its node in slot k. */
  lemma PassedNotValid(s: State, t: Tid)
    requires ThreadsOk(s) && ScansOk(s.th) && t < |s.th|
    requires ScanNode(s.th[t].pc) != NULL && ScanPos(s.th[t].pc) < |s.ids|
    requires |s.pointers| == |s.ids| && s.pointers[ScanPos(s.th[t].pc)] != ScanNode(s.th[t].pc)
    ensures forall u :: 0 <= u < |s.th| && ValidNode(s.th[u].pc) == ScanNode(s.th[t].pc) ==>
      s.th[u].slot.Some? && ScanPos(s.th[t].pc) + 1 <= s.th[u].slot.value
  {
    forall u | 0 <= u < |s.th| && ValidNode(s.th[u].pc) == ScanNode(s.th[t].pc)
      ensures s.th[u].slot.Some? && ScanPos(s.th[t].pc) + 1 <= s.th[u].slot.value
    {
      assert ThreadOk(s, u);
    }
  }

  lemma KeepCall(s: State, t: Tid, call: Call)
    requires Inv(s) && t < |s.th| && s.th[t].pc == Idle
    ensures Inv(Begin(s, t, Choice.Call(call)))
  {
    var s' := Begin(s, t, Choice.Call(call));
    KeepQuiet(s, s', t, s'.th[t]);
  }

  lemma KeepExit(s: State, t: Tid)
    requires Inv(s) && t < |s.th| && s.th[t].pc == Idle && s.th[t].slot.Some?
    ensures Inv(Begin(s, t, Exit))
  {
    var s' := Begin(s, t, Exit);
    KeepQuiet(s, s', t, s'.th[t]);
  }

  lemma KeepTakeSlot(s: State, t: Tid, k: nat)
    requires Inv(s) && t < |s.th| && s.th[t].pc == SlotCas(k) && k < |s.ids| && s.ids[k] == None
    ensures Inv(TakeSlot(s, t, k))
  {
    var s' := TakeSlot(s, t, k);
    KeepQuiet(s, s', t, s'.th[t]);
  }

  lemma MissSlotOwn(s: State, t: Tid, k: nat, l: Local)
    requires t < |s.th| && ThreadOk(s, t) && s.th[t].pc == SlotCas(k) && k <= |s.ids|
    requires l == s.th[t].(pc := if k == |s.ids| then Return(Refused) else SlotCas(k + 1))
    ensures NodesOk(s.nodes, s.own, t, l) && ClaimsOk(s.boxes, s.boxOwn, t, l)
    ensures SlotOk(s.pointers, s.ids, t, l) && SameHoldings(s.th[t], l)
  {
  }

  lemma KeepMissSlot(s: State, t: Tid, k: nat)
    requires Inv(s) && t < |s.th| && s.th[t].pc == SlotCas(k) && k <= |s.ids| && (k < |s.ids| ==> s.ids[k].Some?)
    ensures Inv(CasSlot(s, t, k))
  {
    var l := s.th[t].(pc := if k == |s.ids| then Return(Refused) else SlotCas(k + 1));
    MissSlotOwn(s, t, k, l);
    KeepQuiet(s, CasSlot(s, t, k), t, l);
  }

  lemma KeepLoadHead(s: State, t: Tid)
    requires Inv(s) && t < |s.th| && s.th[t].pc == PopLoad
    ensures Inv(At(s, t, PopHazard(s.head)))
  {
    var s' := At(s, t, PopHazard(s.head));
    KeepQuiet(s, s', t, s'.th[t]);
  }

  lemma KeepSetHazard(s: State, t: Tid, top: Addr)
    requires Inv(s) && t < |s.th| && s.th[t].pc == PopHazard(top)
    ensures HasSlot(s, t) && Inv(SetHazard(s, t, top))
  {
    var s' := SetHazard(s, t, top);
    KeepQuiet(s, s', t, s'.th[t]);
  }

  lemma KeepCheckHead(s: State, t: Tid, top: Addr)
    requires Inv(s) && t < |s.th| && s.th[t].pc == PopCheck(top)
    ensures Inv(CheckHead(s, t, top))
  {
    var s' := CheckHead(s, t, top);
    FrameScans(s.th, t, s'.th[t]);
    KeepControl(s, s', t, s'.th[t]);
  }

  lemma KeepReadNext(s: State, t: Tid, top: Addr)
    requires Inv(s) && t < |s.th| && s.th[t].pc == PopNext(top)
    ensures top in s.nodes && Inv(ReadNext(s, t, top))
  {
    var s' := ReadNext(s, t, top);
    FrameScans(s.th, t, s'.th[t]);
    KeepControl(s, s', t, s'.th[t]);
  }

  lemma KeepCasPopLoses(s: State, t: Tid, top: Addr, next: Addr)
    requires Inv(s) && t < |s.th| && s.th[t].pc == PopCas(top, next) && s.head != top
    ensures Inv(At(s, t, PopHazard(s.head)))
  {
    var s' := At(s, t, PopHazard(s.head));
    KeepQuiet(s, s', t, s'.th[t]);
  }

  /** What a thread writes in its own slot is of no concern to the others. */
  lemma OwnSlotFrame(s: State, s': State, t: Tid, k: nat, x: Addr)
    requires ThreadsOk(s) && t < |s.th| && s.th[t].slot == Some(k) && k < |s.pointers|
    requires s'.pointers == s.pointers[k := x] && s'.ids == s.ids
    ensures SlotsFrame(s, s', t)
  {
    assert ThreadOk(s, t);
    forall u | 0 <= u < |s.th| && u != t && s.th[u].slot.Some?
      ensures s.th[u].slot.value != k
    {
      assert ThreadOk(s, u);
    }
  }

  /** What t holds after it has cleared its slot. */
  lemma ClearHazardOwn(s: State, s': State, t: Tid, top: Addr, lin: Option<Value>, l: Local)
    requires t < |s.th| && ThreadOk(s, t) && s.th[t].pc == PopClear(top, lin)
    requires l == s.th[t].(pc := if top == NULL then Return(Popped(None)) else PopSwap(top, lin))
    requires HasSlot(s, t) ==> s'.pointers == s.pointers[s.th[t].slot.value := NULL] && s'.ids == s.ids
    ensures HasSlot(s, t) && SlotOk(s'.pointers, s'.ids, t, l) && SameHoldings(s.th[t], l)
    ensures NodesOk(s.nodes, s.own, t, l) && ClaimsOk(s.boxes, s.boxOwn, t, l)
  {
  }

  lemma KeepClearHazard(s: State, t: Tid, top: Addr, lin: Option<Value>)
    requires Inv(s) && t < |s.th| && s.th[t].pc == PopClear(top, lin)
    ensures HasSlot(s, t) && Inv(ClearHazard(s, t, top, lin))
  {
    assert ThreadOk(s, t);
    var s' := ClearHazard(s, t, top, lin);
    var l := s.th[t].(pc := if top == NULL then Return(Popped(None)) else PopSwap(top, lin));
    ClearHazardOwn(s, s', t, top, lin, l);
    OwnSlotFrame(s, s', t, s.th[t].slot.value, NULL);
    KeepQuiet(s, s', t, l);
  }

  lemma KeepScanHandMoves(s: State, t: Tid, x: Addr, k: nat)
    requires Inv(s) && t < |s.th| && s.th[t].pc == HandScan(x, k) && k < |s.pointers|
    ensures Inv(ScanHand(s, t, x, k))
  {
    var s' := ScanHand(s, t, x, k);
    if s.pointers[k] != x {
      PassedNotValid(s, t);
    }
    FrameScans(s.th, t, s'.th[t]);
    KeepControl(s, s', t, s'.th[t]);
  }

  lemma KeepScanBoxMoves(s: State, t: Tid, b: Addr, next: Addr, x: Addr, k: nat)
    requires Inv(s) && t < |s.th| && s.th[t].pc == BoxScan(b, next, x, k) && k < |s.pointers|
    ensures Inv(ScanBox(s, t, b, next, x, k))
  {
    var s' := ScanBox(s, t, b, next, x, k);
    if s.pointers[k] != x {
      PassedNotValid(s, t);
    }
    FrameScans(s.th, t, s'.th[t]);
    KeepControl(s, s', t, s'.th[t]);
  }

  lemma KeepFinish(s: State, t: Tid, r: Result)
    requires Inv(s) && t < |s.th| && s.th[t].pc == Return(r)
    ensures Inv(Finish(s, t))
  {
    var s' := Finish(s, t);
    KeepQuiet(s, s', t, s'.th[t]);
  }

  lemma KeepDropId(s: State, t: Tid, k: nat)
    requires Inv(s) && t < |s.th| && s.th[t].pc == ExitId(k)
    ensures k < |s.ids| && Inv(DropId(s, t, k))
  {
    var s' := DropId(s, t, k);
    KeepQuiet(s, s', t, s'.th[t]);
  }

  lemma DropPointerOwn(s: State, t: Tid, k: nat, l: Local)
    requires t < |s.th| && ThreadOk(s, t) && s.th[t].pc == ExitPointer(k) && l == s.th[t].(pc := Exited)
    ensures k < |s.pointers| && SlotOk(s.pointers[k := NULL], s.ids, t, l) && SameHoldings(s.th[t], l)
    ensures NodesOk(s.nodes, s.own, t, l) && ClaimsOk(s.boxes, s.boxOwn, t, l)
  {
  }

  lemma KeepDropPointer(s: State, t: Tid, k: nat)
    requires Inv(s) && t < |s.th| && s.th[t].pc == ExitPointer(k) && Orderly(s, t)
    ensures k < |s.pointers| && Inv(DropPointer(s, t, k))
  {
    assert ThreadOk(s, t);
    DropPointerOwn(s, t, k, s.th[t].(pc := Exited));
    KeepQuiet(s, DropPointer(s, t, k), t, s.th[t].(pc := Exited));
  }

  lemma KeepAllocate(s: State, t: Tid, v: Value, a: Addr)
    requires Inv(s) && t < |s.th| && s.th[t].pc == PushNew(v) && Fresh(s, a)
    ensures Inv(Allocate(s, t, v, a))
  {
    var s' := Allocate(s, t, v, a);
    WriteStack(s.head, s.stack, s.vals, s.nodes, s.own, a, s'.nodes[a], Private(t));
    KeepWrite(s, s', t, s'.th[t], a, s'.nodes[a], Private(t));
  }

  lemma RelinkOwn(s: State, s': State, t: Tid, a: Addr, v: Value)
    requires t < |s.th| && ThreadOk(s, t) && (s.th[t].pc == PushLoad(a, v) || s.th[t].pc == PushCas(a, v))
    requires a in s.nodes && s' == Relink(s, t, a, v)
    ensures a != NULL && a in s.own && s.own[a] == Private(t) && s.own[a := Private(t)] == s.own
    ensures NodesOk(s'.nodes, s'.own, t, s'.th[t]) && ClaimsOk(s'.boxes, s'.boxOwn, t, s'.th[t])
  {
    assert s.own[a := s.own[a]] == s.own;
  }

  lemma KeepRelink(s: State, t: Tid, a: Addr, v: Value)
    requires Inv(s) && t < |s.th| && (s.th[t].pc == PushLoad(a, v) || s.th[t].pc == PushCas(a, v))
    ensures a in s.nodes && Inv(Relink(s, t, a, v))
  {
    assert ThreadOk(s, t);
    var s' := Relink(s, t, a, v);
    RelinkOwn(s, s', t, a, v);
    WriteStack(s.head, s.stack, s.vals, s.nodes, s.own, a, s'.nodes[a], Private(t));
    KeepWrite(s, s', t, s'.th[t], a, s'.nodes[a], Private(t));
  }

  lemma PublishOwn(s: State, s': State, t: Tid, a: Addr, v: Value)
    requires t < |s.th| && ThreadOk(s, t) && s.th[t].pc == PushCas(a, v) && a in s.nodes && s' == Publish(s, t, a, v)
    ensures a != NULL && a in s.own && s.own[a] == Private(t) && s.nodes[a].data == Some(v)
    ensures s.nodes[a := s.nodes[a]] == s.nodes
    ensures NodesOk(s'.nodes, s'.own, t, s'.th[t]) && ClaimsOk(s'.boxes, s'.boxOwn, t, s'.th[t])
  {
  }

  lemma KeepPublish(s: State, t: Tid, a: Addr, v: Value)
    requires Inv(s) && t < |s.th| && s.th[t].pc == PushCas(a, v) && a in s.nodes && s.nodes[a].next == s.head
    ensures Inv(Publish(s, t, a, v))
  {
    var s' := Publish(s, t, a, v);
    assert ThreadOk(s, t);
    PublishOwn(s, s', t, a, v);
    PushStack(s.head, s.stack, s.vals, s.nodes, s.own, a, v);
    KeepWrite(s, s', t, s'.th[t], a, s.nodes[a], Linked(|s.stack|));
  }

  /** What t holds after it has unlinked the top node. */
  lemma UnlinkOwn(s: State, s': State, t: Tid, top: Addr, next: Addr)
    requires t < |s.th| && s.th[t].pc == PopCas(top, next) && s.head == top && ThreadOk(s, t)
    requires StackOk(s.head, s.stack, s.vals, s.nodes, s.own) && s' == Unlink(s, t, top, next)
    ensures top != NULL && top in s.own && s.own[top].Linked? && s.nodes[top := s.nodes[top]] == s.nodes
    ensures StackOk(s'.head, s'.stack, s'.vals, s'.nodes, s'.own)
    ensures NodesOk(s'.nodes, s'.own, t, s'.th[t]) && ClaimsOk(s'.boxes, s'.boxOwn, t, s'.th[t])
  {
    PopStack(s.head, s.stack, s.vals, s.nodes, s.own, Hand(t));
  }

  lemma KeepUnlink(s: State, t: Tid, top: Addr, next: Addr)
    requires Inv(s) && t < |s.th| && s.th[t].pc == PopCas(top, next) && s.head == top
    ensures Inv(Unlink(s, t, top, next))
  {
    var s' := Unlink(s, t, top, next);
    assert ThreadOk(s, t);
    UnlinkOwn(s, s', t, top, next);
    KeepWrite(s, s', t, s'.th[t], top, s.nodes[top], Hand(t));
  }

  lemma KeepSwapData(s: State, t: Tid, a: Addr, lin: Option<Value>)
    requires Inv(s) && t < |s.th| && s.th[t].pc == PopSwap(a, lin)
    ensures a in s.nodes && Inv(SwapData(s, t, a))
  {
    var s' := SwapData(s, t, a);
    assert s.own[a := s.own[a]] == s.own;
    WriteStack(s.head, s.stack, s.vals, s.nodes, s.own, a, s'.nodes[a], Hand(t));
    KeepWrite(s, s', t, s'.th[t], a, s'.nodes[a], Hand(t));
  }

  lemma KeepFreeHand(s: State, t: Tid, x: Addr)
    requires Inv(s) && t < |s.th| && s.th[t].pc == HandScan(x, |s.pointers|)
    ensures Inv(FreeHand(s, t, x))
  {
    var s' := FreeHand(s, t, x);
    ScannedNotValid(s, t);
    DeleteNode(s, s', t, s'.th[t], x);
    KeepMemory(s, s', t, s'.th[t]);
  }

  lemma RelinkBoxOwn(s: State, s': State, t: Tid, b: Addr, rest: Option<Addr>, l: Local)
    requires t < |s.th| && ThreadOk(s, t) && (s.th[t].pc == BoxLoad(b, rest) || s.th[t].pc == BoxCas(b, rest))
    requires b in s.boxes && s' == RelinkBox(s, t, b, rest) && l == s.th[t].(pc := BoxCas(b, rest))
    ensures NodesOk(s'.nodes, s'.own, t, l) && ClaimsOk(s'.boxes, s'.boxOwn, t, l) && Passive(s.th[t], l)
  {
    CarriesBox(s, t);
    AfterBox(s, s', t, l);
  }

  lemma KeepRelinkBox(s: State, t: Tid, b: Addr, rest: Option<Addr>)
    requires Inv(s) && t < |s.th| && (s.th[t].pc == BoxLoad(b, rest) || s.th[t].pc == BoxCas(b, rest))
    ensures b in s.boxes && Inv(RelinkBox(s, t, b, rest))
  {
    var s' := RelinkBox(s, t, b, rest);
    var l := s.th[t].(pc := BoxCas(b, rest));
    CarriesBox(s, t);
    RelinkBoxOwn(s, s', t, b, rest, l);
    RelinkBoxMemory(s, s', t, b, rest);
    KeepMemory(s, s', t, l);
  }

  lemma PublishBoxOwn(s: State, s': State, t: Tid, b: Addr, rest: Option<Addr>, l: Local)
    requires t < |s.th| && ThreadOk(s, t) && s.th[t].pc == BoxCas(b, rest)
    requires s' == PublishBox(s, t, b, rest) && l == s.th[t].(pc := AfterList(rest))
    ensures NodesOk(s'.nodes, s'.own, t, l) && ClaimsOk(s'.boxes, s'.boxOwn, t, l) && Passive(s.th[t], l)
  {
    CarriesBox(s, t);
    AfterBox(s, s', t, l);
  }

  lemma KeepPublishBox(s: State, t: Tid, b: Addr, rest: Option<Addr>)
    requires Inv(s) && t < |s.th| && s.th[t].pc == BoxCas(b, rest) && b in s.boxes && s.boxes[b].next == s.reclaim
    ensures Inv(PublishBox(s, t, b, rest))
  {
    var s' := PublishBox(s, t, b, rest);
    var l := s.th[t].(pc := AfterList(rest));
    CarriesBox(s, t);
    PublishBoxOwn(s, s', t, b, rest, l);
    PublishBoxMemory(s, s', t, b, rest);
    KeepMemory(s, s', t, l);
  }

  lemma KeepClaimAll(s: State, t: Tid)
    requires Inv(s) && t < |s.th| && s.th[t].pc == Claim
    ensures Inv(ClaimAll(s, t))
  {
    var s' := ClaimAll(s, t);
    ClaimBoxes(s, s', t);
    KeepMemory(s, s', t, s'.th[t]);
  }

  lemma KeepWalkEnds(s: State, t: Tid)
    requires Inv(s) && t < |s.th| && s.th[t].pc == Walk(NULL)
    ensures Inv(WalkOn(s, t, NULL))
  {
    var s' := WalkOn(s, t, NULL);
    assert ThreadOk(s, t);
    KeepMemory(s, s', t, s'.th[t]);
  }

  lemma TakeBoxMemory(s: State, s': State, t: Tid, b: Addr)
    requires MemoryOk(s) && t < |s.th| && s.th[t].pc == Walk(b) && b in s.boxes && s' == TakeBox(s, t, b)
    requires s.th[t].claimed != [] && s.th[t].claimed == s'.th[t].claimed + [b]
    requires b in s.boxOwn && s.boxOwn[b] == Claimed(t, |s.th[t].claimed| - 1)
    ensures MemoryOk(s') && NodesFrame(s, s', t) && BoxesFrame(s, s', t)
  {
    assert s.boxes[b := s.boxes[b]] == s.boxes;
    RewriteBox(s, s', t, s'.th[t], b, s.boxes[b], Carried(t));
  }

  lemma KeepTakeBox(s: State, t: Tid, b: Addr)
    requires Inv(s) && t < |s.th| && s.th[t].pc == Walk(b) && b != NULL
    ensures b in s.boxes && Inv(TakeBox(s, t, b))
  {
    var s' := TakeBox(s, t, b);
    assert ThreadOk(s, t);
    TakeClaim(s.boxes, s.boxOwn, t, s.th[t]);
    RestOfClaim(s.boxes, s.boxOwn, t, s.th[t], s'.th[t]);
    TakeBoxMemory(s, s', t, b);
    KeepMemory(s, s', t, s'.th[t]);
  }

  lemma KeepRetire(s: State, t: Tid, x: Addr, b: Addr)
    requires Inv(s) && t < |s.th| && s.th[t].pc == BoxNew(x) && Fresh(s, b)
    ensures Inv(Retire(s, t, x, b))
  {
    var s' := Retire(s, t, x, b);
    RetireNodes(s, s', t, x, b);
    RetireBoxes(s, s', t, x, b);
    KeepMemory(s, s', t, s'.th[t]);
  }

  lemma FreeBoxOwn(s: State, s': State, t: Tid, b: Addr, next: Addr, x: Addr, l: Local)
    requires t < |s.th| && ThreadOk(s, t) && s.th[t].pc == BoxScan(b, next, x, |s.pointers|)
    requires s' == FreeBox(s, t, b, next, x) && l == s.th[t].(pc := Walk(next))
    ensures NodesOk(s'.nodes, s'.own, t, l) && ClaimsOk(s'.boxes, s'.boxOwn, t, l) && Passive(s.th[t], l)
  {
    CarriesBox(s, t);
    AfterBox(s, s', t, l);
  }

  lemma FreeBoxMemory(s: State, s': State, t: Tid, b: Addr, next: Addr, x: Addr, l: Local)
    requires Inv(s) && t < |s.th| && s.th[t].pc == BoxScan(b, next, x, |s.pointers|)
    requires s' == FreeBox(s, t, b, next, x) && l == s.th[t].(pc := Walk(next))
    ensures MemoryOk(s') && NodesFrame(s, s', t) && BoxesFrame(s, s', t)
  {
    CarriesBox(s, t);
    ScannedNotValid(s, t);
    DeleteBox(s, s', t, l, x, b);
    DeleteBoxedNode(s, s', t, l, x, b);
  }

  lemma KeepFreeBox(s: State, t: Tid, b: Addr, next: Addr, x: Addr)
    requires Inv(s) && t < |s.th| && s.th[t].pc == BoxScan(b, next, x, |s.pointers|)
    ensures Inv(FreeBox(s, t, b, next, x))
  {
    var s' := FreeBox(s, t, b, next, x);
    var l := s.th[t].(pc := Walk(next));
    assert ThreadOk(s, t);
    FreeBoxOwn(s, s', t, b, next, x, l);
    FreeBoxMemory(s, s', t, b, next, x, l);
    KeepMemory(s, s', t, l);
  }
}
