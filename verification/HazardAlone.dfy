/** What a pop of the hazard-pointer stack does when it is left to itself: it frees exactly the node it
    popped and the nodes on the reclaim list that no slot holds, and leaves its own slot clear. */
module HazardAlone {
  import opened Memory
  import opened Runs
  import opened StackSpec
  import opened LinkedStack
  import opened HazardStack
  import opened HazardSafety
  import opened HazardTheorems
  import opened HazardReclaim
  import opened HazardSlots

  function NodeIn(boxes: map<Addr, Box>, b: Addr): Addr {
    if b in boxes then boxes[b].node else NULL
  }

  /** The nodes in the entries of a list. */
  function NodesIn(boxes: map<Addr, Box>, list: seq<Addr>): set<Addr> {
    set b | b in list :: NodeIn(boxes, b)
  }

  /** The pointers in the slots when thread t has cleared its own. */
  function Pointers(s: State, t: Tid): seq<Addr>
    requires t < |s.th|
  {
    if Looking(s.th[t].pc) || s.th[t].pc.PopClear? then
      if HasSlot(s, t) then s.pointers[s.th[t].slot.value := NULL] else s.pointers
    else s.pointers
  }

  /** The thread has its slot, and its pop has not taken effect yet. */
  predicate Looking(pc: PC) {
    pc.PopLoad? || pc.PopHazard? || pc.PopCheck? || pc.PopNext? || pc.PopCas?
  }

  function Unheld(nodes: set<Addr>, pointers: seq<Addr>): set<Addr> {
    set x | x in nodes && x !in pointers
  }

  /** Node x, in a scan that has passed k slots. */
  function InScan(x: Addr, k: nat, pointers: seq<Addr>): set<Addr> {
    if k <= |pointers| && x in pointers[k..] then {} else {x}
  }

  /** The nodes that a pop of thread t frees if nobody else moves. */
  function ToFree(s: State, t: Tid): set<Addr>
    requires t < |s.th|
  {
    var l, held := s.th[t], Pointers(s, t);
    var listed, claimed := NodesIn(s.boxes, s.pending), NodesIn(s.boxes, l.claimed);
    if Looking(l.pc) then if s.head == NULL then {} else Unheld({s.head} + listed, held)
    else match l.pc
      case PopClear(top, _) => if top == NULL then {} else Unheld({top} + listed, held)
      case PopSwap(top, _) => Unheld({top} + listed, held)
      case HandScan(x, k) => InScan(x, k, held) + Unheld(listed, held)
      case BoxNew(x) => Unheld({x} + listed, held)
      case BoxLoad(b, None) => Unheld({NodeIn(s.boxes, b)} + listed, held)
      case BoxCas(b, None) => Unheld({NodeIn(s.boxes, b)} + listed, held)
      case BoxLoad(_, Some(_)) => Unheld(claimed, held)
      case BoxCas(_, Some(_)) => Unheld(claimed, held)
      case Claim => Unheld(listed, held)
      case Walk(_) => Unheld(claimed, held)
      case BoxScan(_, _, x, k) => InScan(x, k, held) + Unheld(claimed, held)
      case _ => {}
  }

  /** What a pop leaves: the nodes allocated, the pointers in the slots, the values on the stack, its
      result. */
  datatype Outcome = Outcome(nodes: set<Addr>, pointers: seq<Addr>, vals: seq<Value>, result: Option<Value>)

  function OutcomeOf(s: State, t: Tid): Outcome {
    if t >= |s.th| then Outcome({}, [], [], None) else
      var l := s.th[t];
      var top := if s.vals == [] then None else Some(s.vals[|s.vals| - 1]);
      Outcome(s.nodes.Keys - ToFree(s, t), Pointers(s, t),
              if Looking(l.pc) && s.vals != [] then s.vals[..|s.vals| - 1] else s.vals,
              if Looking(l.pc) then top
              else if l.pc.PopClear? || l.pc.PopSwap? then l.pc.lin
              else if l.pc.Return? && l.pc.result.Popped? then l.pc.result.v else l.res)
  }

  // Up to the winning exchange.

  lemma LoadForetold(s: State, t: Tid)
    requires t < |s.th| && s.th[t].pc.PopLoad?
    ensures OutcomeOf(At(s, t, PopHazard(s.head)), t) == OutcomeOf(s, t)
  {
  }

  lemma SetForetold(s: State, t: Tid, top: Addr)
    requires t < |s.th| && s.th[t].pc == PopHazard(top) && HasSlot(s, t)
    ensures OutcomeOf(SetHazard(s, t, top), t) == OutcomeOf(s, t)
  {
    var k := s.th[t].slot.value;
    assert s.pointers[k := top][k := NULL] == s.pointers[k := NULL];
  }

  lemma CheckForetold(s: State, t: Tid, top: Addr)
    requires StackOk(s.head, s.stack, s.vals, s.nodes, s.own) && t < |s.th| && s.th[t].pc == PopCheck(top)
    ensures OutcomeOf(CheckHead(s, t, top), t) == OutcomeOf(s, t)
  {
  }

  lemma ReadForetold(s: State, t: Tid, top: Addr)
    requires t < |s.th| && s.th[t].pc == PopNext(top) && top in s.nodes
    ensures OutcomeOf(ReadNext(s, t, top), t) == OutcomeOf(s, t)
  {
  }

  lemma CasForetold(s: State, t: Tid, top: Addr, next: Addr)
    requires StackOk(s.head, s.stack, s.vals, s.nodes, s.own) && t < |s.th| && ThreadOk(s, t)
    requires s.th[t].pc == PopCas(top, next)
    ensures OutcomeOf(CasPop(s, t, top, next), t) == OutcomeOf(s, t)
  {
  }

  lemma ClearForetold(s: State, t: Tid, top: Addr, lin: Option<Value>)
    requires t < |s.th| && ThreadOk(s, t) && s.th[t].pc == PopClear(top, lin)
    ensures HasSlot(s, t) && OutcomeOf(ClearHazard(s, t, top, lin), t) == OutcomeOf(s, t)
  {
  }

  lemma SwapForetold(s: State, t: Tid, top: Addr, lin: Option<Value>)
    requires t < |s.th| && ThreadOk(s, t) && s.th[t].pc == PopSwap(top, lin)
    ensures top in s.nodes && OutcomeOf(SwapData(s, t, top), t) == OutcomeOf(s, t)
  {
    assert s.pointers[0..] == s.pointers;
  }

  // The reclamation.

  lemma InNextScan(x: Addr, k: nat, pointers: seq<Addr>)
    requires k < |pointers|
    ensures InScan(x, k, pointers) == if pointers[k] == x then {} else InScan(x, k + 1, pointers)
    ensures pointers[k] == x ==> x in pointers
  {
    assert pointers[k..] == [pointers[k]] + pointers[k + 1..];
  }

  lemma HandForetold(s: State, t: Tid, x: Addr, k: nat)
    requires t < |s.th| && s.th[t].pc == HandScan(x, k) && k <= |s.pointers|
    ensures OutcomeOf(ScanHand(s, t, x, k), t) == OutcomeOf(s, t)
  {
    if k < |s.pointers| {
      InNextScan(x, k, s.pointers);
    }
  }

  lemma BoxForetold(s: State, t: Tid, b: Addr, next: Addr, x: Addr, k: nat)
    requires t < |s.th| && s.th[t].pc == BoxScan(b, next, x, k) && k < |s.pointers|
    ensures OutcomeOf(ScanBox(s, t, b, next, x, k), t) == OutcomeOf(s, t)
  {
    InNextScan(x, k, s.pointers);
  }

  lemma SameNodesIn(boxes: map<Addr, Box>, boxes': map<Addr, Box>, list: seq<Addr>)
    requires forall b :: b in list ==> NodeIn(boxes', b) == NodeIn(boxes, b)
    ensures NodesIn(boxes', list) == NodesIn(boxes, list)
  {
  }

  lemma NodesInMore(boxes: map<Addr, Box>, list: seq<Addr>, b: Addr)
    ensures NodesIn(boxes, list + [b]) == NodesIn(boxes, list) + {NodeIn(boxes, b)}
  {
  }

  lemma RetireForetold(s: State, t: Tid, x: Addr, b: Addr)
    requires t < |s.th| && s.th[t].pc == BoxNew(x) && b !in s.pending
    ensures OutcomeOf(Retire(s, t, x, b), t) == OutcomeOf(s, t)
  {
    SameNodesIn(s.boxes, Retire(s, t, x, b).boxes, s.pending);
  }

  lemma RelinkForetold(s: State, t: Tid, b: Addr, rest: Option<Addr>)
    requires t < |s.th| && b in s.boxes && (s.th[t].pc == BoxLoad(b, rest) || s.th[t].pc == BoxCas(b, rest))
    ensures OutcomeOf(RelinkBox(s, t, b, rest), t) == OutcomeOf(s, t)
  {
    var s' := RelinkBox(s, t, b, rest);
    SameNodesIn(s.boxes, s'.boxes, s.pending);
    SameNodesIn(s.boxes, s'.boxes, s.th[t].claimed);
  }

  lemma PublishForetold(s: State, t: Tid, b: Addr, rest: Option<Addr>)
    requires t < |s.th| && s.th[t].pc == BoxCas(b, rest)
    ensures OutcomeOf(PublishBox(s, t, b, rest), t) == OutcomeOf(s, t)
  {
    NodesInMore(s.boxes, s.pending, b);
  }

  lemma ClaimForetold(s: State, t: Tid)
    requires t < |s.th| && s.th[t].pc == Claim
    ensures OutcomeOf(ClaimAll(s, t), t) == OutcomeOf(s, t)
  {
  }

  lemma TakeForetold(s: State, t: Tid, b: Addr, rest: seq<Addr>)
    requires t < |s.th| && s.th[t].pc == Walk(b) && b in s.boxes && s.th[t].claimed == rest + [b]
    ensures OutcomeOf(TakeBox(s, t, b), t) == OutcomeOf(s, t)
  {
    assert TakeBox(s, t, b).th[t].claimed == rest;
    NodesInMore(s.boxes, rest, b);
    assert s.pointers[0..] == s.pointers;
  }

  lemma DeleteForetold(s: State, t: Tid, b: Addr, next: Addr, x: Addr)
    requires t < |s.th| && s.th[t].pc == BoxScan(b, next, x, |s.pointers|) && b !in s.th[t].claimed
    ensures OutcomeOf(FreeBox(s, t, b, next, x), t) == OutcomeOf(s, t)
  {
    SameNodesIn(s.boxes, s.boxes - {b}, s.th[t].claimed);
  }

  // The whole pop.

  /** The thread is in a pop and has its slot; it may have its result already. */
  predicate Popping(pc: PC) {
    || Looking(pc) || pc.PopClear? || pc.PopSwap? || InReclaim(pc)
    || (pc.Return? && pc.result.Popped?)
  }

  lemma LookingForetold(s: State, t: Tid, c: Choice)
    requires Inv(s) && Enabled(s, t, c) && (Looking(s.th[t].pc) || s.th[t].pc.PopClear? || s.th[t].pc.PopSwap?)
    ensures OutcomeOf(Step(s, t, c), t) == OutcomeOf(s, t)
  {
    assert ThreadOk(s, t);
    match s.th[t].pc
    case PopLoad => LoadForetold(s, t);
    case PopHazard(top) => SetForetold(s, t, top);
    case PopCheck(top) => CheckForetold(s, t, top);
    case PopNext(top) => ReadForetold(s, t, top);
    case PopCas(top, next) => CasForetold(s, t, top, next);
    case PopClear(top, lin) => ClearForetold(s, t, top, lin);
    case PopSwap(top, lin) => SwapForetold(s, t, top, lin);
  }

  /** An entry in hand, or a new one, is on no list. */
  lemma NotListed(s: State, t: Tid, b: Addr)
    requires ListOk(s.reclaim, s.pending, s.boxes, s.boxOwn) && t < |s.th| && ThreadOk(s, t)
    ensures b !in s.boxes ==> b !in s.pending
    ensures s.th[t].pc.BoxScan? && s.th[t].pc.current == b ==> b !in s.th[t].claimed
  {
  }

  lemma TopIsListed(boxes: map<Addr, Box>, list: seq<Addr>)
    requires forall i :: 0 <= i < |list| ==> list[i] in boxes
    ensures list == [] || Top(list) in boxes
  {
  }

  lemma WalkForetold(s: State, t: Tid, b: Addr)
    requires t < |s.th| && ThreadOk(s, t) && s.th[t].pc == Walk(b) && NULL !in s.boxes
    ensures (b == NULL || b in s.boxes) && OutcomeOf(WalkOn(s, t, b), t) == OutcomeOf(s, t)
  {
    if b != NULL {
      TakeClaim(s.boxes, s.boxOwn, t, s.th[t]);
      TakeForetold(s, t, b, s.th[t].claimed[..|s.th[t].claimed| - 1]);
    } else {
      TopIsListed(s.boxes, s.th[t].claimed);
    }
  }

  lemma ReclaimForetold(s: State, t: Tid, c: Choice)
    requires ListOk(s.reclaim, s.pending, s.boxes, s.boxOwn) && Enabled(s, t, c) && ThreadOk(s, t)
    requires InReclaim(s.th[t].pc)
    ensures OutcomeOf(Step(s, t, c), t) == OutcomeOf(s, t)
  {
    match s.th[t].pc
    case HandScan(x, k) => HandForetold(s, t, x, k);
    case BoxNew(x) =>
      NotListed(s, t, c.a);
      RetireForetold(s, t, x, c.a);
    case BoxLoad(b, rest) => RelinkForetold(s, t, b, rest);
    case BoxCas(b, rest) =>
      RelinkForetold(s, t, b, rest);
      PublishForetold(s, t, b, rest);
    case Claim => ClaimForetold(s, t);
    case Walk(b) => WalkForetold(s, t, b);
    case BoxScan(b, next, x, k) =>
      if k < |s.pointers| {
        BoxForetold(s, t, b, next, x, k);
      } else {
        NotListed(s, t, b);
        DeleteForetold(s, t, b, next, x);
      }
  }

  lemma StaysPopping(s: State, t: Tid, c: Choice)
    requires Enabled(s, t, c) && Popping(s.th[t].pc) && !s.th[t].pc.Return?
    ensures t < |Step(s, t, c).th| && Popping(Step(s, t, c).th[t].pc)
  {
    if InReclaim(s.th[t].pc) {
      ReclaimStays(s, t, c);
    } else {
      match s.th[t].pc
      case PopCheck(_) =>
      case PopCas(_, _) =>
      case _ =>
    }
  }

  lemma ReclaimStays(s: State, t: Tid, c: Choice)
    requires Enabled(s, t, c) && InReclaim(s.th[t].pc)
    ensures t < |Step(s, t, c).th| && Popping(Step(s, t, c).th[t].pc)
  {
    match s.th[t].pc
    case HandScan(_, _) =>
    case BoxCas(_, _) =>
    case Walk(_) =>
    case BoxScan(_, _, _, _) =>
    case _ =>
  }

  /** Thread t is in a pop, and nobody else moves until it has its result. */
  ghost predicate PopRun(r: seq<State>, t: Tid) {
    IsRun(r, (s: State) => Inv(s) && t < |s.th| && Popping(s.th[t].pc),
          (s: State, s': State) => t < |s.th| && !s.th[t].pc.Return? && Alone(t, s, s'))
  }

  lemma AloneForetold(s: State, s': State, t: Tid)
    requires Inv(s) && t < |s.th| && Popping(s.th[t].pc) && !s.th[t].pc.Return? && Alone(t, s, s')
    ensures Inv(s') && t < |s'.th| && Popping(s'.th[t].pc) && OutcomeOf(s', t) == OutcomeOf(s, t)
  {
    var c :| Enabled(s, t, c) && c != Weak(true) && !s.th[t].pc.Idle? && Orderly(s, t) && s' == Step(s, t, c);
    KeepStep(s, t, c);
    StaysPopping(s, t, c);
    assert ThreadOk(s, t);
    if InReclaim(s.th[t].pc) {
      ReclaimForetold(s, t, c);
    } else {
      LookingForetold(s, t, c);
    }
  }

  lemma NothingLeft(s: State, t: Tid)
    requires t < |s.th| && s.th[t].pc.Return? && s.th[t].pc.result.Popped?
    ensures OutcomeOf(s, t) == Outcome(s.nodes.Keys, s.pointers, s.vals, s.th[t].pc.result.v)
  {
  }

  /** A pop left to itself, from wherever it is, leaves and returns exactly what was foretold. */
  lemma PopForetold(r: seq<State>, t: Tid)
    requires PopRun(r, t) && t < |r[|r| - 1].th| && r[|r| - 1].th[t].pc.Return?
    ensures var first, last := r[0], r[|r| - 1];
      && last.nodes.Keys == first.nodes.Keys - ToFree(first, t) && last.pointers == Pointers(first, t)
      && last.vals == OutcomeOf(first, t).vals
      && last.th[t].pc.result == Popped(OutcomeOf(first, t).result)
  {
    var inv, step := (s: State) => Inv(s) && t < |s.th| && Popping(s.th[t].pc),
                     (s: State, s': State) => t < |s.th| && !s.th[t].pc.Return? && Alone(t, s, s');
    forall s, s' | inv(s) && step(s, s')
      ensures inv(s') && OutcomeOf(s', t) == OutcomeOf(s, t)
    {
      AloneForetold(s, s', t);
    }
    Foretold(r, inv, step, s => OutcomeOf(s, t));
    NothingLeft(r[|r| - 1], t);
  }

  /** A pop that runs alone returns the top value, clears its slot, and frees its node and the nodes on
      the reclaim list, except exactly those that another thread's slot holds. */
  lemma PopAlone(r: seq<State>, t: Tid)
    requires PopRun(r, t) && r[0].th[t].pc.PopLoad? && r[0].head != NULL
    requires t < |r[|r| - 1].th| && r[|r| - 1].th[t].pc.Return?
    ensures var first, last := r[0], r[|r| - 1];
      && first.vals != [] && last.vals == first.vals[..|first.vals| - 1]
      && last.th[t].pc.result == Popped(Some(first.vals[|first.vals| - 1]))
      && last.pointers == Pointers(first, t)
      && forall x :: x in last.nodes <==>
           x in first.nodes && !((x == first.head || x in NodesIn(first.boxes, first.pending)) && x !in Pointers(first, t))
  {
    PopForetold(r, t);
  }

  lemma QuietPointers(s: State, t: Tid, x: Addr)
    requires SlotsClear(s) && t < |s.th| && Looking(s.th[t].pc) && HasSlot(s, t)
    requires forall u :: 0 <= u < |s.th| && u != t ==> !Using(s.th[u].pc)
    ensures x != NULL ==> x !in Pointers(s, t)
  {
  }

  /** When nobody else is looking for a node to pop, a pop that runs alone frees its node and every
      node on the reclaim list: nothing stays retired. */
  lemma QuietPopFreesAll(r: seq<State>, t: Tid)
    requires PopRun(r, t) && r[0].th[t].pc.PopLoad? && r[0].head != NULL && SlotsClear(r[0])
    requires forall u :: 0 <= u < |r[0].th| && u != t ==> !Using(r[0].th[u].pc)
    requires t < |r[|r| - 1].th| && r[|r| - 1].th[t].pc.Return?
    ensures r[|r| - 1].nodes.Keys == r[0].nodes.Keys - {r[0].head} - NodesIn(r[0].boxes, r[0].pending)
  {
    PopAlone(r, t);
    var first := r[0];
    assert ThreadOk(first, t);
    forall x | x in first.nodes
      ensures x !in Pointers(first, t)
    {
      QuietPointers(first, t, x);
    }
  }

  // One scan.

  /** If no slot from position k on holds the node, the thread's own steps pass them and free the node,
      and its entry if it has one. */
  lemma {:induction false} ScanFrees(r: seq<State>, t: Tid, x: Addr, k: nat)
    requires AloneRun(r, t) && ScansFor(r[0], t, x, k) && k <= |r[0].pointers| && |r| == |r[0].pointers| - k + 2
    requires forall i :: k <= i < |r[0].pointers| ==> r[0].pointers[i] != x
    ensures x !in r[|r| - 1].nodes
    ensures r[0].th[t].pc.BoxScan? ==> r[0].th[t].pc.current !in r[|r| - 1].boxes
    decreases |r|
  {
    LaterAlone(r, t);
    var c :| Enabled(r[0], t, c) && c != Weak(true) && !r[0].th[t].pc.Idle? && Orderly(r[0], t) && r[1] == Step(r[0], t, c);
    assert c == Plain;
    if k < |r[0].pointers| {
      ScanDecides(r[0], t, x, k);
      ScanKeepsPointers(r[0], t);
      ScanFrees(r[1..], t, x, k + 1);
    }
  }

  lemma ScanKeepsPointers(s: State, t: Tid)
    requires Enabled(s, t, Plain) && (s.th[t].pc.HandScan? || s.th[t].pc.BoxScan?)
    ensures Step(s, t, Plain).pointers == s.pointers
    ensures s.th[t].pc.BoxScan? && Step(s, t, Plain).th[t].pc.BoxScan? ==>
      Step(s, t, Plain).th[t].pc.current == s.th[t].pc.current
  {
  }

  lemma LaterAlone(r: seq<State>, t: Tid)
    requires AloneRun(r, t) && |r| > 1
    ensures Alone(t, r[0], r[1]) && AloneRun(r[1..], t)
  {
    var inv, step := (s: State) => Inv(s) && t < |s.th|, (s: State, s': State) => Alone(t, s, s');
    StepAt(r, inv, step, 0);
    AloneLowers(r[0], r[1], t);
    var rest := r[1..];
    forall i, j | 0 <= i && j == i + 1 < |rest|
      ensures step(rest[i], rest[j])
    {
      StepAt(r, inv, step, i + 1);
    }
    assert IsRun(rest, inv, step);
  }
}
