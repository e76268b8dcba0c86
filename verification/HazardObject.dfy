/** The hazard-pointer stack as an object: the shared variables of the source and the heap, one
    method for each access to them, and the state machine as what these methods do. A method is
    called by thread t when it is t's turn, so any interleaving of calls is a run. */
module HazardObject {
  import opened Memory
  import opened Runs
  import opened StackSpec
  import opened LinkedStack
  import opened HazardStack
  import opened HazardSafety
  import opened HazardTheorems

  /** What a step that fits does: it can be taken, and it refines the atomic stack. */
  lemma Good(s: State, t: Tid, c: Choice)
    requires Reachable(s) && Fits(s, t, c) && Orderly(s, t)
    ensures Enabled(s, t, c) && Reachable(Step(s, t, c))
    ensures StepBy(Abstract(s), Abstract(Step(s, t, c)), t, CallOf(c)) && ThreadOk(s, t)
  {
    ReachableInv(s);
    NeverStuck(s, t, c);
    ReachStep(s, t, c);
    StepRefines(s, t, c);
    assert ThreadOk(s, t);
  }

  lemma GoodCas(s: State, t: Tid, b: Addr, rest: Option<Addr>, fails: bool)
    requires Reachable(s) && t < |s.th| && s.th[t].pc == BoxCas(b, rest)
    ensures b in s.boxes && Enabled(s, t, Weak(fails))
    ensures Step(s, t, Weak(fails)) == CasReclaim(s, t, b, rest, fails)
    ensures Reachable(Step(s, t, Weak(fails))) && StepBy(Abstract(s), Abstract(Step(s, t, Weak(fails))), t, None)
  {
    Good(s, t, Weak(fails));
  }

  lemma PopWins(s: State, t: Tid, top: Addr, next: Addr)
    requires Reachable(s) && t < |s.th| && s.th[t].pc == PopCas(top, next) && s.head == top
    ensures top in s.nodes && s.nodes[top].next == next
    ensures TakesEffect(Abstract(s), Abstract(Unlink(s, t, top, next)), t)
  {
    ReachableInv(s);
    NoAba(s, t);
    assert ThreadOk(s, t);
    UnlinkRefines(s, t, top, next);
  }

  lemma GoodDelete(s: State, t: Tid)
    requires Reachable(s) && t < |s.th| && (s.th[t].pc.HandScan? || s.th[t].pc.BoxScan?)
    requires ScanPos(s.th[t].pc) == |s.pointers|
    ensures Enabled(s, t, Plain) && ScanNode(s.th[t].pc) in s.nodes && ThreadOk(s, t)
    ensures Reachable(Step(s, t, Plain)) && StepBy(Abstract(s), Abstract(Step(s, t, Plain)), t, None)
    ensures forall u :: 0 <= u < |s.th| ==> ValidNode(s.th[u].pc) != ScanNode(s.th[t].pc)
  {
    Good(s, t, Plain);
    ReachableInv(s);
    ScannedNotValid(s, t);
  }

  class Stack {
    var head: Addr
    var nodesToReclaim: Addr
    const pointer: array<Addr>
    const id: array<Option<Tid>>
    var nodes: map<Addr, Node>
    var boxes: map<Addr, Box>
    // the bookkeeping of the proof
    ghost var th: seq<Local>
    ghost var stack: seq<Addr>
    ghost var vals: seq<Value>
    ghost var pending: seq<Addr>
    ghost var own: map<Addr, Owner<Addr>>
    ghost var boxOwn: map<Addr, BoxOwner>

    ghost function View(): State
      reads this, pointer, id
    {
      State(head, nodesToReclaim, pointer[..], id[..], nodes, boxes, th, stack, vals, pending, own, boxOwn)
    }

    /** The object is in the last state of a run. */
    ghost predicate Valid()
      reads this, pointer, id
    {
      Reachable(View())
    }

    ghost predicate Turn(t: Tid, pc: PC)
      reads this, pointer, id
    {
      Valid() && t < |th| && th[t].pc == pc
    }

    /** The call was a step of thread t, and a step of the atomic stack or none. */
    twostate predicate Stepped(t: Tid, c: Choice)
      reads this, pointer, id
    {
      && Valid() && Enabled(old(View()), t, c) && View() == Step(old(View()), t, c)
      && StepBy(Abstract(old(View())), Abstract(View()), t, CallOf(c))
    }

    constructor (slots: nat, ghost threads: nat)
      ensures Valid() && Init(View()) && |th| == threads && pointer.Length == slots
      ensures fresh(pointer) && fresh(id)
    {
      pointer, id := new Addr[slots](_ => NULL), new Option<Tid>[slots](_ => None);
      head, nodesToReclaim, nodes, boxes := NULL, NULL, map[], map[];
      th, stack, vals, pending := seq(threads, _ => Local(None, None, [], Idle)), [], [], [];
      own, boxOwn := map[], map[];
      new;
      assert IsRun([View()], Init, Next);
    }

    ghost method Note(s: State)
      modifies `th, `stack, `vals, `pending, `own, `boxOwn
      ensures th == s.th && stack == s.stack && vals == s.vals && pending == s.pending
      ensures own == s.own && boxOwn == s.boxOwn
    {
      th, stack, vals, pending, own, boxOwn := s.th, s.stack, s.vals, s.pending, s.own, s.boxOwn;
    }

    /** In every state of the object no freed memory is about to be touched, and its values are
        linked from the head. */
    lemma InOrder()
      requires Valid()
      ensures Safe(View()) && IsLinked(nodes, head, vals)
    {
      ReachableInv(View());
      InvIsSafe(View());
      AbstractIsLinked(View());
    }

    /** A thread calls an operation, or starts to exit. */
    ghost method Enter(t: Tid, c: Choice)
      requires Turn(t, Idle) && Fits(View(), t, c)
      modifies this
      ensures Stepped(t, c) && (c.Call? ==> Begins(Abstract(old(View())), Abstract(View()), t, c.call))
    {
      ghost var s := View();
      Good(s, t, c);
      Note(Step(s, t, c));
      assert View() == Step(s, t, c);
    }

    /** A thread returns, reaches the end of the list it claimed, or finds no slot free. */
    ghost method Pass(t: Tid)
      requires Valid() && t < |th|
      requires th[t].pc.Return? || th[t].pc == Walk(NULL) || th[t].pc == SlotCas(id.Length)
      modifies this
      ensures Stepped(t, Plain)
    {
      ghost var s := View();
      Good(s, t, Plain);
      Note(Step(s, t, Plain));
      assert View() == Step(s, t, Plain);
    }

    // push

    method NewNode(ghost t: Tid, v: Value, a: Addr)
      requires Turn(t, PushNew(v)) && Fresh(View(), a)
      modifies this
      ensures Stepped(t, Address(a))
    {
      ghost var s := View();
      Good(s, t, Address(a));
      nodes := nodes[a := Node(Some(v), NULL)];
      Note(Step(s, t, Address(a)));
      assert View() == Step(s, t, Address(a));
    }

    /** new_head->next = head.load() */
    method LinkNode(ghost t: Tid, a: Addr, ghost v: Value)
      requires Turn(t, PushLoad(a, v))
      modifies this
      ensures Stepped(t, Plain)
    {
      ghost var s := View();
      Good(s, t, Plain);
      nodes := nodes[a := nodes[a].(next := head)];
      Note(Step(s, t, Plain));
      assert View() == Step(s, t, Plain);
    }

    /** A win publishes the node; a loss loads the head into new_head->next. */
    method CasHeadPush(ghost t: Tid, a: Addr, ghost v: Value) returns (won: bool)
      requires Turn(t, PushCas(a, v))
      modifies this
      ensures Stepped(t, Plain)
      ensures won ==> TakesEffect(Abstract(old(View())), Abstract(View()), t)
      ensures !won ==> th == old(th)
    {
      ghost var s := View();
      Good(s, t, Plain);
      won := head == nodes[a].next;
      if won {
        PublishRefines(s, t, a, v);
        head := a;
      } else {
        nodes := nodes[a := nodes[a].(next := head)];
      }
      Note(Step(s, t, Plain));
      assert View() == Step(s, t, Plain);
    }

    // pop

    /** hp_owner(): try to take slot k, which its former owner may not yet have cleared. */
    method CasSlotId(ghost t: Tid, me: Tid, k: nat) returns (won: bool)
      requires Turn(t, SlotCas(k)) && me == t && k < id.Length
      modifies this, id
      ensures Stepped(t, Plain)
      ensures won <==> old(id[k]) == None
      ensures if won then id[k] == Some(t) && th[t].slot == Some(k) else th[t].pc == SlotCas(k + 1)
    {
      ghost var s := View();
      Good(s, t, Plain);
      won := id[k] == None;
      if won {
        id[k] := Some(me);
      }
      Note(Step(s, t, Plain));
      assert View() == Step(s, t, Plain);
    }

    method LoadHead(ghost t: Tid) returns (top: Addr)
      requires Turn(t, PopLoad)
      modifies `th, `stack, `vals, `pending, `own, `boxOwn
      ensures Stepped(t, Plain) && th[t].pc == PopHazard(top)
    {
      ghost var s := View();
      Good(s, t, Plain);
      top := head;
      Note(Step(s, t, Plain));
      assert View() == Step(s, t, Plain);
    }

    /** hp.store(tmp) */
    method StoreHazard(ghost t: Tid, k: nat, top: Addr)
      requires Turn(t, PopHazard(top)) && th[t].slot == Some(k)
      modifies this, pointer
      ensures Stepped(t, Plain) && k < pointer.Length && pointer[k] == top
    {
      ghost var s := View();
      Good(s, t, Plain);
      pointer[k] := top;
      Note(Step(s, t, Plain));
      assert View() == Step(s, t, Plain);
    }

    /** Having seen the head again after publishing it, the thread has validated it. */
    method ReloadHead(ghost t: Tid, top: Addr) returns (again: Addr)
      requires Turn(t, PopCheck(top))
      modifies `th, `stack, `vals, `pending, `own, `boxOwn
      ensures Stepped(t, Plain) && again == head
      ensures again == top != NULL <==> ValidNode(th[t].pc) == top != NULL
    {
      ghost var s := View();
      Good(s, t, Plain);
      again := head;
      Note(Step(s, t, Plain));
      assert View() == Step(s, t, Plain);
    }

    /** old_head->next: the node is not freed. */
    method ReadNext(ghost t: Tid, top: Addr) returns (next: Addr)
      requires Turn(t, PopNext(top))
      modifies `th, `stack, `vals, `pending, `own, `boxOwn
      ensures Stepped(t, Plain) && top in nodes && next == nodes[top].next
    {
      ghost var s := View();
      Good(s, t, Plain);
      next := nodes[top].next;
      Note(Step(s, t, Plain));
      assert View() == Step(s, t, Plain);
    }

    /** A win takes the top value; the successor stored is the head's own. */
    method CasHeadPop(ghost t: Tid, top: Addr, next: Addr) returns (won: bool)
      requires Turn(t, PopCas(top, next))
      modifies this
      ensures Stepped(t, Plain)
      ensures won <==> old(head) == top
      ensures won ==> head == next && top in nodes && nodes[top].next == next
      ensures won ==> TakesEffect(Abstract(old(View())), Abstract(View()), t)
    {
      ghost var s := View();
      Good(s, t, Plain);
      won := head == top;
      if won {
        PopWins(s, t, top, next);
        head := next;
      }
      Note(Step(s, t, Plain));
      assert View() == Step(s, t, Plain);
    }

    /** hp.store(nullptr) */
    method ClearHazard(ghost t: Tid, k: nat, ghost top: Addr, ghost lin: Option<Value>)
      requires Turn(t, PopClear(top, lin)) && th[t].slot == Some(k)
      modifies this, pointer
      ensures Stepped(t, Plain)
    {
      ghost var s := View();
      Good(s, t, Plain);
      pointer[k] := NULL;
      Note(Step(s, t, Plain));
      assert View() == Step(s, t, Plain);
    }

    /** res.swap(old_head->data): the value that the pop took when it took effect. */
    method SwapData(ghost t: Tid, x: Addr, ghost lin: Option<Value>) returns (res: Option<Value>)
      requires Turn(t, PopSwap(x, lin))
      modifies this
      ensures Stepped(t, Plain) && res == lin && res.Some?
    {
      ghost var s := View();
      Good(s, t, Plain);
      res := nodes[x].data;
      nodes := nodes[x := nodes[x].(data := None)];
      Note(Step(s, t, Plain));
      assert View() == Step(s, t, Plain);
    }

    // reclamation

    /** One turn of outstanding_hazard_pointers_for. */
    method LoadHazard(ghost t: Tid, k: nat, x: Addr) returns (hit: bool)
      requires Valid() && t < |th| && k < pointer.Length && ScanNode(th[t].pc) == x && ScanPos(th[t].pc) == k
      requires th[t].pc.HandScan? || th[t].pc.BoxScan?
      modifies `th, `stack, `vals, `pending, `own, `boxOwn
      ensures Stepped(t, Plain) && hit == (pointer[k] == x)
      ensures hit <==> th[t].pc.BoxNew? || th[t].pc.BoxLoad?
      ensures !hit ==> ScanNode(th[t].pc) == x && ScanPos(th[t].pc) == k + 1
    {
      ghost var s := View();
      Good(s, t, Plain);
      ScanDecides(s, t, x, k);
      hit := pointer[k] == x;
      Note(Step(s, t, Plain));
      assert View() == Step(s, t, Plain);
    }

    /** delete old_head, after a scan that hit nothing: nobody has the node validated. */
    method DeleteHand(ghost t: Tid, x: Addr)
      requires Turn(t, HandScan(x, pointer.Length))
      modifies this
      ensures Stepped(t, Plain) && x !in nodes
      ensures forall u :: 0 <= u < |th| ==> ValidNode(th[u].pc) != x
    {
      ghost var s := View();
      GoodDelete(s, t);
      nodes := nodes - {x};
      Note(Step(s, t, Plain));
      assert View() == Step(s, t, Plain);
    }

    /** new data_to_reclaim{node} */
    method NewBox(ghost t: Tid, x: Addr, b: Addr)
      requires Turn(t, BoxNew(x)) && Fresh(View(), b)
      modifies this
      ensures Stepped(t, Address(b))
    {
      ghost var s := View();
      Good(s, t, Address(b));
      boxes := boxes[b := Box(x, NULL)];
      Note(Step(s, t, Address(b)));
      assert View() == Step(s, t, Address(b));
    }

    /** node->next = nodes_to_reclaim.load() */
    method LinkBox(ghost t: Tid, b: Addr, ghost rest: Option<Addr>)
      requires Turn(t, BoxLoad(b, rest))
      modifies this
      ensures Stepped(t, Plain)
    {
      ghost var s := View();
      Good(s, t, Plain);
      boxes := boxes[b := boxes[b].(next := nodesToReclaim)];
      Note(Step(s, t, Plain));
      assert View() == Step(s, t, Plain);
    }

    method CasReclaim(ghost t: Tid, b: Addr, ghost rest: Option<Addr>, fails: bool) returns (won: bool)
      requires Turn(t, BoxCas(b, rest))
      modifies this
      ensures Stepped(t, Weak(fails))
      ensures won ==> nodesToReclaim == b
    {
      ghost var s := View();
      GoodCas(s, t, b, rest, fails);
      won := nodesToReclaim == boxes[b].next && !fails;
      if won {
        nodesToReclaim := b;
        Note(PublishBox(s, t, b, rest));
        assert View() == PublishBox(s, t, b, rest);
      } else {
        boxes := boxes[b := boxes[b].(next := nodesToReclaim)];
        Note(RelinkBox(s, t, b, rest));
        assert View() == RelinkBox(s, t, b, rest);
      }
    }

    /** nodes_to_reclaim.exchange(nullptr): the whole list is now the thread's own. */
    method ExchangeReclaim(ghost t: Tid) returns (list: Addr)
      requires Turn(t, Claim)
      modifies this
      ensures Stepped(t, Plain)
      ensures list == old(nodesToReclaim) && nodesToReclaim == NULL && th[t].claimed == old(pending)
    {
      ghost var s := View();
      Good(s, t, Plain);
      list := nodesToReclaim;
      nodesToReclaim := NULL;
      Note(Step(s, t, Plain));
      assert View() == Step(s, t, Plain);
    }

    /** next = current->next, and the node to scan for */
    method ReadBox(ghost t: Tid, b: Addr) returns (next: Addr, node: Addr)
      requires Turn(t, Walk(b)) && b != NULL
      modifies `th, `stack, `vals, `pending, `own, `boxOwn
      ensures Stepped(t, Plain) && th[t].pc == BoxScan(b, next, node, 0)
    {
      ghost var s := View();
      Good(s, t, Plain);
      next, node := boxes[b].next, boxes[b].node;
      Note(Step(s, t, Plain));
      assert View() == Step(s, t, Plain);
    }

    /** delete current: the box goes, and its node with it, which nobody has validated. */
    method DeleteBox(ghost t: Tid, b: Addr, ghost next: Addr, x: Addr)
      requires Turn(t, BoxScan(b, next, x, pointer.Length))
      modifies this
      ensures Stepped(t, Plain) && x !in nodes && b !in boxes
      ensures forall u :: 0 <= u < |th| ==> ValidNode(th[u].pc) != x
    {
      ghost var s := View();
      GoodDelete(s, t);
      nodes, boxes := nodes - {x}, boxes - {b};
      Note(Step(s, t, Plain));
      assert View() == Step(s, t, Plain);
    }

    // ~hp_owner(), in the order of the code

    method DropId(ghost t: Tid, k: nat)
      requires Turn(t, ExitId(k))
      modifies this, id
      ensures Stepped(t, Plain)
    {
      ghost var s := View();
      Good(s, t, Plain);
      id[k] := None;
      Note(Step(s, t, Plain));
      assert View() == Step(s, t, Plain);
    }

    /** The slot may have a new owner by now, but not one that has published in it. */
    method DropPointer(ghost t: Tid, k: nat)
      requires Turn(t, ExitPointer(k)) && Orderly(View(), t)
      modifies this, pointer
      ensures Stepped(t, Plain)
    {
      ghost var s := View();
      Good(s, t, Plain);
      pointer[k] := NULL;
      Note(Step(s, t, Plain));
      assert View() == Step(s, t, Plain);
    }
  }
}
