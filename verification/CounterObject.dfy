/** The counting stack as an object: the shared variables of the source and the heap, one method
    for each access to them, and the state machine as what these methods do. A method is called
    by thread t when it is t's turn, so any interleaving of calls is a run. */
module CounterObject {
  import opened Memory
  import opened Runs
  import opened StackSpec
  import opened LinkedStack
  import opened CounterStack
  import opened CounterSafety
  import opened CounterTheorems

  /** What a step that fits does: it can be taken, and it refines the atomic stack. */
  lemma Good(s: State, t: Tid, c: Choice)
    requires Reachable(s) && Fits(s, t, c)
    ensures Enabled(s, t, c) && Reachable(Step(s, t, c))
    ensures StepBy(Abstract(s), Abstract(Step(s, t, c)), t, CallOf(c)) && ThreadOk(s, t)
  {
    ReachableInv(s);
    NeverStuck(s, t, c);
    ReachStep(s, t, c);
    StepRefines(s, t, c);
    assert ThreadOk(s, t);
  }

  lemma PopWins(s: State, t: Tid, top: Addr, next: Addr)
    requires Reachable(s) && t < |s.th| && s.th[t].pc == PopCas(top, next) && s.head == top
    ensures top in s.nodes && s.nodes[top].next == next
    ensures TakesEffect(Abstract(s), Abstract(Unlink(s, t, top, next)), t)
  {
    ReachableInv(s);
    NoAba(s, t);
    assert ThreadOk(s, t);
    UnlinkRefines(s, t, top, next);
  }

  /** What a thread is about to delete is allocated, and nobody reads it. */
  lemma GoodDelete(s: State, t: Tid, x: Addr)
    requires Reachable(s) && t < |s.th|
    requires (s.th[t].pc.FreeNode? && s.th[t].pc.list == x) || s.th[t].pc == FreeHand(x)
    ensures x in s.nodes && forall u :: 0 <= u < |s.th| ==> ReaderNode(s.th[u].pc) != x
  {
    ReachableInv(s);
    assert ThreadOk(s, t);
    if s.th[t].pc.FreeNode? {
      FirstClaimed(s.nodes, s.own, t, s.th[t]);
      ListNotRead(s, t, x);
    }
  }

  class Stack {
    var head: Addr
    var threadsInPop: nat
    var toBeDeleted: Addr
    var nodes: map<Addr, Node>
    // the bookkeeping of the proof
    ghost var th: seq<Local>
    ghost var stack: seq<Addr>
    ghost var vals: seq<Value>
    ghost var waiting: seq<Addr>
    ghost var own: map<Addr, Owner<Shelf>>
    ghost var inside: set<Tid>

    ghost function View(): State
      reads this
    {
      State(head, threadsInPop, toBeDeleted, nodes, th, stack, vals, waiting, own, inside)
    }

    /** The object is in the last state of a run. */
    ghost predicate Valid()
      reads this
    {
      Reachable(View())
    }

    ghost predicate Turn(t: Tid, pc: PC)
      reads this
    {
      Valid() && t < |th| && th[t].pc == pc
    }

    /** The call was a step of thread t, and a step of the atomic stack or none. */
    twostate predicate Stepped(t: Tid, c: Choice)
      reads this
    {
      && Valid() && Enabled(old(View()), t, c) && View() == Step(old(View()), t, c)
      && StepBy(Abstract(old(View())), Abstract(View()), t, CallOf(c))
    }

    constructor (ghost threads: nat)
      ensures Valid() && Init(View()) && |th| == threads
    {
      head, threadsInPop, toBeDeleted, nodes := NULL, 0, NULL, map[];
      th, stack, vals, waiting := seq(threads, _ => Local(None, [], Idle)), [], [], [];
      own, inside := map[], {};
      new;
      assert IsRun([View()], Init, Next);
    }

    ghost method Note(s: State)
      modifies `th, `stack, `vals, `waiting, `own, `inside
      ensures th == s.th && stack == s.stack && vals == s.vals && waiting == s.waiting
      ensures own == s.own && inside == s.inside
    {
      th, stack, vals, waiting, own, inside := s.th, s.stack, s.vals, s.waiting, s.own, s.inside;
    }

    /** What the theorems about runs say of the object as it stands. */
    lemma InOrder()
      requires Valid()
      ensures Safe(View()) && IsLinked(nodes, head, vals)
    {
      ReachableInv(View());
      InvIsSafe(View());
      AbstractIsLinked(View());
    }

    /** A thread calls an operation. */
    ghost method Enter(t: Tid, call: Call)
      requires Turn(t, Idle)
      modifies this
      ensures Stepped(t, Choice.Call(call)) && Begins(Abstract(old(View())), Abstract(View()), t, call)
    {
      Good(View(), t, Choice.Call(call));
      Note(Step(View(), t, Choice.Call(call)));
    }

    ghost method Leave(t: Tid, result: Result)
      requires Turn(t, Return(result))
      modifies this
      ensures Stepped(t, Plain)
    {
      Good(View(), t, Plain);
      Note(Step(View(), t, Plain));
    }

    // push

    method NewNode(ghost t: Tid, v: Value, a: Addr)
      requires Turn(t, PushNew(v)) && a != NULL && a !in nodes
      modifies this
      ensures Stepped(t, Address(a))
    {
      ghost var s := View();
      Good(s, t, Address(a));
      nodes := nodes[a := Node(Some(v), NULL)];
      Note(Step(s, t, Address(a)));
      assert View() == Step(s, t, Address(a));
    }

    /** new_head->next = head.load() */
    method LinkNode(ghost t: Tid, a: Addr, ghost v: Value)
      requires Turn(t, PushLoad(a, v))
      modifies this
      ensures Stepped(t, Plain)
    {
      ghost var s := View();
      Good(s, t, Plain);
      nodes := nodes[a := nodes[a].(next := head)];
      Note(Step(s, t, Plain));
      assert View() == Step(s, t, Plain);
    }

    /** A win publishes the node; a loss loads the head into new_head->next. */
    method CasHeadPush(ghost t: Tid, a: Addr, ghost v: Value, fails: bool) returns (won: bool)
      requires Turn(t, PushCas(a, v))
      modifies this
      ensures Stepped(t, Weak(fails))
      ensures won ==> TakesEffect(Abstract(old(View())), Abstract(View()), t)
      ensures !won ==> th == old(th)
    {
      ghost var s := View();
      Good(s, t, Weak(fails));
      won := head == nodes[a].next && !fails;
      if won {
        PublishRefines(s, t, a, v);
        head := a;
      } else {
        nodes := nodes[a := nodes[a].(next := head)];
      }
      Note(Step(s, t, Weak(fails)));
      assert View() == Step(s, t, Weak(fails));
    }

    // pop

    /** threads_in_pop++ */
    method CountIn(ghost t: Tid)
      requires Turn(t, PC.Enter)
      modifies this
      ensures Stepped(t, Plain)
    {
      ghost var s := View();
      Good(s, t, Plain);
      threadsInPop := threadsInPop + 1;
      Note(Step(s, t, Plain));
      assert View() == Step(s, t, Plain);
    }

    method LoadHead(ghost t: Tid) returns (top: Addr)
      requires Turn(t, PopLoad)
      modifies `th, `stack, `vals, `waiting, `own, `inside
      ensures Stepped(t, Plain) && top == head
    {
      ghost var s := View();
      Good(s, t, Plain);
      top := head;
      Note(Step(s, t, Plain));
      assert View() == Step(s, t, Plain);
    }

    /** old_head->next, of a node that is not freed but may be retired and rewritten. */
    method ReadNext(ghost t: Tid, top: Addr) returns (next: Addr)
      requires Turn(t, PopNext(top))
      modifies `th, `stack, `vals, `waiting, `own, `inside
      ensures Stepped(t, Plain) && top in nodes && next == nodes[top].next
    {
      ghost var s := View();
      Good(s, t, Plain);
      next := nodes[top].next;
      Note(Step(s, t, Plain));
      assert View() == Step(s, t, Plain);
    }

    /** A win takes the top value; the successor stored is the head's own. */
    method CasHeadPop(ghost t: Tid, top: Addr, next: Addr) returns (won: bool, expected: Addr)
      requires Turn(t, PopCas(top, next))
      modifies this
      ensures Stepped(t, Plain)
      ensures expected == old(head) && (won <==> expected == top)
      ensures won ==> head == next && top in nodes && nodes[top].next == next
      ensures won ==> TakesEffect(Abstract(old(View())), Abstract(View()), t)
    {
      ghost var s := View();
      Good(s, t, Plain);
      won, expected := head == top, head;
      if won {
        PopWins(s, t, top, next);
        head := next;
      }
      Note(Step(s, t, Plain));
      assert View() == Step(s, t, Plain);
    }

    /** res.swap(old_head->data): the value that the pop took when it took effect. */
    method SwapData(ghost t: Tid, x: Addr, ghost lin: Option<Value>) returns (res: Option<Value>)
      requires Turn(t, Swap(x, lin))
      modifies this
      ensures Stepped(t, Plain) && res == lin && res.Some?
    {
      ghost var s := View();
      Good(s, t, Plain);
      res := nodes[x].data;
      nodes := nodes[x := nodes[x].(data := None)];
      Note(Step(s, t, Plain));
      assert View() == Step(s, t, Plain);
    }

    // try_reclaim

    /** threads_in_pop == 1: nobody else is reading a node at this moment. */
    method TestAlone(ghost t: Tid, x: Addr) returns (alone: bool)
      requires Turn(t, Test(x))
      modifies `th, `stack, `vals, `waiting, `own, `inside
      ensures Stepped(t, Plain) && alone == (threadsInPop == 1)
      ensures if alone then th[t].pc == Exchange(x) else th[t].pc == ChainLoad(NULL, x, x) && th[t].claimed == [x]
      ensures alone ==> forall u :: 0 <= u < |th| && u != t ==> ReaderNode(th[u].pc) == NULL
    {
      ghost var s := View();
      Good(s, t, Plain);
      alone := threadsInPop == 1;
      if alone {
        ReachableInv(s);
        Alone(s, t);
      }
      Note(Step(s, t, Plain));
      assert View() == Step(s, t, Plain);
    }

    /** to_be_deleted.exchange(nullptr): the whole list is now the thread's own. */
    method ExchangePending(ghost t: Tid, x: Addr) returns (list: Addr)
      requires Turn(t, Exchange(x))
      modifies this
      ensures Stepped(t, Plain)
      ensures list == old(toBeDeleted) && toBeDeleted == NULL && th[t].claimed == old(waiting)
    {
      ghost var s := View();
      Good(s, t, Plain);
      list := toBeDeleted;
      toBeDeleted := NULL;
      Note(Step(s, t, Plain));
      assert View() == Step(s, t, Plain);
    }

    /** --threads_in_pop == 0, by a thread that claimed the list */
    method CountOut(ghost t: Tid, ghost x: Addr, ghost list: Addr) returns (last: bool)
      requires Turn(t, PC.Leave(x, list))
      modifies this
      ensures Stepped(t, Plain) && old(threadsInPop) > 0 && last == (threadsInPop == 0)
      ensures th[t].pc == if list == NULL then FreeHand(x) else if last then FreeNext(x, list) else Walk(x, list, list)
    {
      ghost var s := View();
      Good(s, t, Plain);
      threadsInPop := threadsInPop - 1;
      last := threadsInPop == 0;
      Note(Step(s, t, Plain));
      assert View() == Step(s, t, Plain);
    }

    /** --threads_in_pop, by a thread that has nothing to delete */
    method CountOutLast(ghost t: Tid)
      requires Turn(t, Depart)
      modifies this
      ensures Stepped(t, Plain) && old(threadsInPop) > 0
    {
      ghost var s := View();
      Good(s, t, Plain);
      threadsInPop := threadsInPop - 1;
      Note(Step(s, t, Plain));
      assert View() == Step(s, t, Plain);
    }

    /** delete_nodes: next = list->next */
    method ReadFree(ghost t: Tid, ghost x: Addr, list: Addr) returns (next: Addr)
      requires Turn(t, FreeNext(x, list))
      modifies `th, `stack, `vals, `waiting, `own, `inside
      ensures Stepped(t, Plain) && list in nodes && next == nodes[list].next
    {
      ghost var s := View();
      Good(s, t, Plain);
      next := nodes[list].next;
      Note(Step(s, t, Plain));
      assert View() == Step(s, t, Plain);
    }

    /** delete list: nobody reads the node. */
    method DeleteNode(ghost t: Tid, ghost x: Addr, list: Addr, ghost next: Addr)
      requires Turn(t, FreeNode(x, list, next))
      modifies this
      ensures Stepped(t, Plain) && list !in nodes
      ensures forall u :: 0 <= u < |th| ==> ReaderNode(th[u].pc) != list
    {
      ghost var s := View();
      Good(s, t, Plain);
      GoodDelete(s, t, list);
      nodes := nodes - {list};
      Note(Step(s, t, Plain));
      assert View() == Step(s, t, Plain);
    }

    /** delete old_head: nobody reads the node. */
    method DeleteHand(ghost t: Tid, x: Addr)
      requires Turn(t, FreeHand(x))
      modifies this
      ensures Stepped(t, Plain) && x !in nodes
      ensures forall u :: 0 <= u < |th| ==> ReaderNode(th[u].pc) != x
    {
      ghost var s := View();
      Good(s, t, Plain);
      GoodDelete(s, t, x);
      nodes := nodes - {x};
      Note(Step(s, t, Plain));
      assert View() == Step(s, t, Plain);
    }

    /** chain_pending_nodes: list->next */
    method ReadLast(ghost t: Tid, ghost x: Addr, ghost first: Addr, last: Addr) returns (next: Addr)
      requires Turn(t, Walk(x, first, last))
      modifies `th, `stack, `vals, `waiting, `own, `inside
      ensures Stepped(t, Plain) && last in nodes && next == nodes[last].next
    {
      ghost var s := View();
      Good(s, t, Plain);
      next := nodes[last].next;
      Note(Step(s, t, Plain));
      assert View() == Step(s, t, Plain);
    }

    method LoadPending(ghost t: Tid, ghost x: Addr, ghost first: Addr, ghost last: Addr) returns (val: Addr)
      requires Turn(t, ChainLoad(x, first, last))
      modifies `th, `stack, `vals, `waiting, `own, `inside
      ensures Stepped(t, Plain) && val == toBeDeleted
    {
      ghost var s := View();
      Good(s, t, Plain);
      val := toBeDeleted;
      Note(Step(s, t, Plain));
      assert View() == Step(s, t, Plain);
    }

    /** last->next = to_be_deleted, of a node that others may still read */
    method LinkLast(ghost t: Tid, ghost x: Addr, ghost first: Addr, last: Addr, val: Addr)
      requires Turn(t, ChainStore(x, first, last, val))
      modifies this
      ensures Stepped(t, Plain)
    {
      ghost var s := View();
      Good(s, t, Plain);
      nodes := nodes[last := nodes[last].(next := val)];
      Note(Step(s, t, Plain));
      assert View() == Step(s, t, Plain);
    }

    /** A win puts the thread's list in front of the pending one. */
    method CasPending(ghost t: Tid, ghost x: Addr, first: Addr, last: Addr) returns (won: bool, expected: Addr)
      requires Turn(t, ChainCas(x, first, last))
      modifies this
      ensures Stepped(t, Plain) && expected == old(toBeDeleted)
      ensures won ==> toBeDeleted == first && waiting == old(waiting + th[t].claimed) && th[t].claimed == []
    {
      ghost var s := View();
      Good(s, t, Plain);
      won, expected := toBeDeleted == nodes[last].next, toBeDeleted;
      if won {
        toBeDeleted := first;
      }
      Note(Step(s, t, Plain));
      assert View() == Step(s, t, Plain);
    }
  }
}
