/** The invariant of the counting stack and its preservation by every step. */
module CounterSafety {
  import opened Memory
  import opened StackSpec
  import opened LinkedStack
  import opened CounterStack

  /** The threads that `threads_in_pop` counts. */
  predicate Counted(pc: PC) {
    || pc.PopLoad? || pc.PopNext? || pc.PopCas? || pc.Swap? || pc.Test? || pc.Exchange? || pc.Leave?
    || pc.Depart? || ((pc.ChainLoad? || pc.ChainStore? || pc.ChainCas?) && pc.hand == NULL)
  }

  /** The node a popper has loaded from the head and may read. */
  function ReaderNode(pc: PC): Addr {
    match pc
    case PopNext(top) => top
    case PopCas(top, _) => top
    case _ => NULL
  }

  function PrivateNode(pc: PC): Addr {
    match pc
    case PushLoad(a, _) => a
    case PushCas(a, _) => a
    case _ => NULL
  }

  /** The node a thread popped and has not given to a list. */
  function HandNode(pc: PC): Addr {
    match pc
    case Swap(x, _) => x
    case Test(x) => x
    case Exchange(x) => x
    case Leave(x, _) => x
    case FreeNext(x, _) => x
    case FreeNode(x, _, _) => x
    case Walk(x, _, _) => x
    case ChainLoad(x, _, _) => x
    case ChainStore(x, _, _, _) => x
    case ChainCas(x, _, _) => x
    case FreeHand(x) => x
    case _ => NULL
  }

  /** Having found itself alone, a thread knows that nobody reads the node in its hand. */
  predicate HandSafe(pc: PC) {
    HandNode(pc) != NULL && !pc.Swap? && !pc.Test?
  }

  /** Last out, a thread knows that nobody reads the list it claimed. */
  predicate ListSafe(pc: PC) {
    pc.FreeNext? || pc.FreeNode?
  }

  /** The first node of a thread's claimed list, in the states that have one. */
  function ListTop(pc: PC): Option<Addr> {
    match pc
    case Leave(_, list) => Some(list)
    case FreeNext(_, list) => Some(list)
    case FreeNode(_, list, _) => Some(list)
    case Walk(_, first, _) => Some(first)
    case ChainLoad(_, first, _) => Some(first)
    case ChainStore(_, first, _, _) => Some(first)
    case ChainCas(_, first, _) => Some(first)
    case _ => None
  }

  /** The states in which an operation has no result yet. */
  predicate BeforeSwap(pc: PC) {
    || pc.Idle? || pc.PushNew? || pc.PushLoad? || pc.PushCas?
    || pc.Enter? || pc.PopLoad? || pc.PopNext? || pc.PopCas? || pc.Swap?
  }

  predicate Chaining(pc: PC) {
    pc.ChainLoad? || pc.ChainStore? || pc.ChainCas?
  }

  /** The pending list is exactly the chain from `to_be_deleted`. */
  ghost predicate ListOk(pend: Addr, waiting: seq<Addr>, nodes: map<Addr, Node>, own: map<Addr, Owner<Shelf>>) {
    && pend == Top(waiting) && NULL !in nodes && own.Keys == nodes.Keys
    && (forall i :: 0 <= i < |waiting| ==> waiting[i] in own && own[waiting[i]] == Retired(Waiting(i)))
    && (waiting != [] ==> nodes[waiting[0]].next == NULL)
    && (forall i, j :: 0 <= i && j == i + 1 < |waiting| ==> nodes[waiting[j]].next == waiting[i])
    && (forall a {:trigger IsWaiting(own[a])} :: a in own && IsWaiting(own[a]) ==>
          own[a].place.i < |waiting| && waiting[own[a].place.i] == a)
  }

  /** A node held by a thread is in that thread's locals. */
  ghost predicate HeldOk(own: map<Addr, Owner<Shelf>>, th: seq<Local>) {
    && (forall a {:trigger own[a].Private?} :: a in own && own[a].Private? ==>
          own[a].t < |th| && PrivateNode(th[own[a].t].pc) == a)
    && (forall a {:trigger own[a].Hand?} :: a in own && own[a].Hand? ==>
          own[a].t < |th| && HandNode(th[own[a].t].pc) == a)
    && (forall a {:trigger IsClaimed(own[a])} :: a in own && IsClaimed(own[a]) ==>
          && own[a].place.t < |th| && own[a].place.i < |th[own[a].place.t].claimed|
          && th[own[a].place.t].claimed[own[a].place.i] == a)
  }

  ghost predicate CountOk(count: nat, inside: set<Tid>, th: seq<Local>) {
    && count == |inside|
    && forall t: Tid :: t in inside <==> t < |th| && Counted(th[t].pc)
  }

  /** The nodes in the locals of thread t. */
  ghost predicate NodesOk(nodes: map<Addr, Node>, own: map<Addr, Owner<Shelf>>, t: Tid, l: Local) {
    && (l.pc.PushLoad? || l.pc.PushCas? ==>
          && PrivateNode(l.pc) != NULL
          && PrivateNode(l.pc) in own && own[PrivateNode(l.pc)] == Private(t)
          && PrivateNode(l.pc) in nodes && nodes[PrivateNode(l.pc)].data == Some(l.pc.v))
    && (HandNode(l.pc) != NULL ==>
          && HandNode(l.pc) in own && own[HandNode(l.pc)] == Hand(t) && HandNode(l.pc) in nodes
          && (l.pc.Swap? ==> l.pc.lin.Some? && nodes[HandNode(l.pc)].data == l.pc.lin))
    && (BeforeSwap(l.pc) ==> l.res == None)
    && (HandNode(l.pc) == NULL ==>
          !l.pc.Swap? && !l.pc.Test? && !l.pc.Exchange? && !l.pc.Leave?
          && !l.pc.FreeNext? && !l.pc.FreeNode? && !l.pc.Walk? && !l.pc.FreeHand?)
  }

  /** The node a popper reads is allocated and no longer private; the successor it read is the
      true one unless the node has been unlinked. */
  ghost predicate ReaderOk(nodes: map<Addr, Node>, own: map<Addr, Owner<Shelf>>, l: Local) {
    && (l.pc.PopNext? || l.pc.PopCas? ==>
          l.pc.top != NULL && l.pc.top in nodes && l.pc.top in own && !own[l.pc.top].Private?)
    && (l.pc.PopCas? ==> own[l.pc.top].Linked? ==> nodes[l.pc.top].next == l.pc.next)
  }

  /** The list that thread t has claimed. */
  ghost predicate ClaimsOk(nodes: map<Addr, Node>, own: map<Addr, Owner<Shelf>>, t: Tid, l: Local) {
    && (if ListTop(l.pc).Some? then ListTop(l.pc).value == Top(l.claimed) else l.claimed == [])
    && (!l.pc.Leave? && ListTop(l.pc).Some? ==> l.claimed != [])
    && (forall i :: 0 <= i < |l.claimed| ==>
          && l.claimed[i] in nodes && l.claimed[i] in own && own[l.claimed[i]] == Retired(Claimed(t, i)))
    && (forall i, j :: 0 <= i && j == i + 1 < |l.claimed| ==>
          nodes[l.claimed[j]].next == l.claimed[i])
    && (l.claimed != [] && !Chaining(l.pc) ==> nodes[l.claimed[0]].next == NULL)
    && (Chaining(l.pc) ==> l.pc.last == l.claimed[0])
    && (l.pc.Walk? ==>
          && l.pc.last in nodes && l.pc.last in own
          && IsClaimed(own[l.pc.last]) && own[l.pc.last].place.t == t)
    && (l.pc.FreeNode? ==> l.pc.next == Top(l.claimed[..|l.claimed| - 1]))
  }

  ghost predicate ThreadOk(s: State, t: Tid)
    requires t < |s.th|
  {
    && NodesOk(s.nodes, s.own, t, s.th[t]) && ReaderOk(s.nodes, s.own, s.th[t])
    && ClaimsOk(s.nodes, s.own, t, s.th[t])
  }

  ghost predicate ThreadsOk(s: State) {
    forall t {:trigger s.th[t]} :: 0 <= t < |s.th| ==> ThreadOk(s, t)
  }

  /** Nobody reads a node that its holder is about to delete. */
  ghost predicate ExclusiveOk(th: seq<Local>) {
    && (forall u, t ::
          0 <= u < |th| && 0 <= t < |th| && ReaderNode(th[u].pc) != NULL && HandSafe(th[t].pc) ==>
          ReaderNode(th[u].pc) != HandNode(th[t].pc))
    && (forall u, t ::
          0 <= u < |th| && 0 <= t < |th| && ReaderNode(th[u].pc) != NULL && ListSafe(th[t].pc) ==>
          ReaderNode(th[u].pc) !in th[t].claimed)
  }

  ghost predicate MemoryOk(s: State) {
    && StackOk(s.head, s.stack, s.vals, s.nodes, s.own)
    && ListOk(s.pend, s.waiting, s.nodes, s.own) && HeldOk(s.own, s.th)
  }

  ghost predicate Inv(s: State) {
    && MemoryOk(s) && ThreadsOk(s)
    && CountOk(s.count, s.inside, s.th) && ExclusiveOk(s.th)
  }

  // Frames: what a step of t may change without disturbing the others.

  ghost predicate Holds(own: map<Addr, Owner<Shelf>>, u: Tid, a: Addr) {
    a in own && (own[a] == Private(u) || own[a] == Hand(u) || (IsClaimed(own[a]) && own[a].place.t == u))
  }

  ghost predicate Frame(s: State, s': State, t: Tid) {
    && (forall a, u :: u != t && Holds(s.own, u, a) && a in s.nodes ==>
          a in s'.own && s'.own[a] == s.own[a] && a in s'.nodes && s'.nodes[a] == s.nodes[a])
    && (forall a {:trigger s.own[a].Private?} :: a in s.own && a in s.nodes && !s.own[a].Private? ==>
          || (&& a in s'.own && !s'.own[a].Private? && a in s'.nodes
              && (s'.own[a].Linked? ==> s.own[a].Linked? && s'.nodes[a].next == s.nodes[a].next))
          || (forall u :: 0 <= u < |s.th| ==> ReaderNode(s.th[u].pc) != a))
  }

  lemma FrameThread(s: State, s': State, t: Tid, u: Tid)
    requires ThreadsOk(s) && Frame(s, s', t) && u < |s.th| && u != t
    ensures NodesOk(s'.nodes, s'.own, u, s.th[u]) && ReaderOk(s'.nodes, s'.own, s.th[u])
    ensures ClaimsOk(s'.nodes, s'.own, u, s.th[u])
  {
    var l := s.th[u];
    assert PrivateNode(l.pc) != NULL ==> Holds(s.own, u, PrivateNode(l.pc));
    assert HandNode(l.pc) != NULL ==> Holds(s.own, u, HandNode(l.pc));
    assert l.pc.Walk? ==> Holds(s.own, u, l.pc.last);
    assert ReaderNode(l.pc) != NULL ==> !s.own[ReaderNode(l.pc)].Private?;
    forall i | 0 <= i < |l.claimed|
      ensures Holds(s.own, u, l.claimed[i])
    {
    }
  }

  lemma FrameThreads(s: State, s': State, t: Tid, l: Local)
    requires t < |s.th| && s'.th == s.th[t := l] && ThreadsOk(s) && Frame(s, s', t) && ThreadOk(s', t)
    ensures ThreadsOk(s')
  {
    forall u | 0 <= u < |s.th| && u != t
      ensures ThreadOk(s', u)
    {
      FrameThread(s, s', t, u);
    }
  }

  /** The locals l count as before, read nothing new and are sure of nothing new. */
  ghost predicate Passive(l0: Local, l: Local) {
    && Counted(l.pc) == Counted(l0.pc)
    && (ReaderNode(l.pc) == NULL || ReaderNode(l.pc) == ReaderNode(l0.pc))
    && (HandSafe(l.pc) ==> HandSafe(l0.pc) && HandNode(l.pc) == HandNode(l0.pc))
    && (ListSafe(l.pc) ==> ListSafe(l0.pc) && forall a :: a in l.claimed ==> a in l0.claimed)
  }

  lemma PassiveExclusive(th: seq<Local>, t: Tid, l: Local)
    requires t < |th| && ExclusiveOk(th) && Passive(th[t], l)
    ensures ExclusiveOk(th[t := l])
  {
  }

  lemma PassiveCount(s: State, t: Tid, l: Local)
    requires t < |s.th| && CountOk(s.count, s.inside, s.th) && Counted(l.pc) == Counted(s.th[t].pc)
    ensures CountOk(s.count, s.inside, s.th[t := l])
  {
  }

  lemma Single<T>(a: set<T>, x: T)
    requires |a| == 1 && x in a
    ensures a == {x}
  {
    assert |a - {x}| == 0;
    assert a == (a - {x}) + {x};
  }

  /** Alone inside, t is the only reader there can be. */
  lemma Alone(s: State, t: Tid)
    requires t < |s.th| && CountOk(s.count, s.inside, s.th) && s.count == 1 && Counted(s.th[t].pc)
    ensures forall u: Tid :: u < |s.th| && u != t ==> ReaderNode(s.th[u].pc) == NULL
  {
    Single(s.inside, t);
    forall u: Tid | u < |s.th| && u != t
      ensures ReaderNode(s.th[u].pc) == NULL
    {
      assert u !in s.inside;
    }
  }

  ghost predicate SameHoldings(l0: Local, l: Local) {
    && l.claimed == l0.claimed
    && PrivateNode(l.pc) == PrivateNode(l0.pc) && HandNode(l.pc) == HandNode(l0.pc)
  }

  /** A step that changes nothing but locals and the count. */
  lemma KeepControl(s: State, s': State, t: Tid, l: Local)
    requires Inv(s) && t < |s.th| && SameHoldings(s.th[t], l)
    requires s' == s.(count := s'.count, inside := s'.inside, th := s.th[t := l])
    requires NodesOk(s.nodes, s.own, t, l) && ReaderOk(s.nodes, s.own, l) && ClaimsOk(s.nodes, s.own, t, l)
    requires CountOk(s'.count, s'.inside, s'.th) && ExclusiveOk(s'.th)
    ensures Inv(s')
  {
    FrameThreads(s, s', t, l);
  }

  lemma KeepPassive(s: State, s': State, t: Tid, l: Local)
    requires Inv(s) && t < |s.th| && SameHoldings(s.th[t], l) && Passive(s.th[t], l)
    requires s' == s.(th := s.th[t := l])
    requires NodesOk(s.nodes, s.own, t, l) && ReaderOk(s.nodes, s.own, l) && ClaimsOk(s.nodes, s.own, t, l)
    ensures Inv(s')
  {
    PassiveCount(s, t, l);
    PassiveExclusive(s.th, t, l);
    KeepControl(s, s', t, l);
  }

  /** A step that changes nodes or lists. */
  lemma KeepMemory(s: State, s': State, t: Tid, l: Local)
    requires Inv(s) && t < |s.th| && s'.th == s.th[t := l] && Passive(s.th[t], l)
    requires s'.count == s.count && s'.inside == s.inside
    requires MemoryOk(s') && Frame(s, s', t)
    requires NodesOk(s'.nodes, s'.own, t, l) && ReaderOk(s'.nodes, s'.own, l)
    requires ClaimsOk(s'.nodes, s'.own, t, l)
    ensures Inv(s')
  {
    PassiveCount(s, t, l);
    PassiveExclusive(s.th, t, l);
    FrameThreads(s, s', t, l);
  }

  lemma WriteFrame(s: State, s': State, t: Tid, a: Addr, n: Node, o: Owner<Shelf>)
    requires s'.nodes == s.nodes[a := n] && s'.own == s.own[a := o]
    requires a in s.own ==> s.own[a].Linked? || Holds(s.own, t, a)
    requires a in s.own && !s.own[a].Private? ==> !o.Private? && !o.Linked?
    ensures Frame(s, s', t)
  {
  }

  lemma WriteHeld(own: map<Addr, Owner<Shelf>>, th: seq<Local>, t: Tid, l: Local, a: Addr, o: Owner<Shelf>)
    requires HeldOk(own, th) && t < |th| && a != NULL && PrivateNode(th[t].pc) in {NULL, a}
    requires HandNode(th[t].pc) in {NULL, a, HandNode(l.pc)} && (th[t].claimed == [] || l.claimed == th[t].claimed)
    requires NULL !in own && (o.Private? ==> o.t == t && PrivateNode(l.pc) == a)
    requires o.Hand? ==> o.t == t && HandNode(l.pc) == a
    requires IsClaimed(o) ==> o.place.t == t && o.place.i < |l.claimed| && l.claimed[o.place.i] == a
    ensures HeldOk(own[a := o], th[t := l])
  {
  }

  /** Node `a`, which t holds or makes, is written or changes owner; the stack keeps its shape
      or gains or loses `a`. */
  lemma WriteNode(s: State, s': State, t: Tid, l: Local, a: Addr, n: Node, o: Owner<Shelf>)
    requires MemoryOk(s) && t < |s.th|
    requires s' == s.(head := s'.head, stack := s'.stack, vals := s'.vals,
                      nodes := s.nodes[a := n], own := s.own[a := o], th := s.th[t := l])
    requires StackOk(s'.head, s'.stack, s'.vals, s'.nodes, s'.own)
    requires a != NULL && !IsWaiting(o)
    requires a in s.own ==> !IsWaiting(s.own[a]) && (s.own[a].Linked? || Holds(s.own, t, a))
    requires a in s.own && !s.own[a].Private? ==> !o.Private? && !o.Linked?
    requires o.Private? ==> o.t == t && PrivateNode(l.pc) == a
    requires o.Hand? ==> o.t == t && HandNode(l.pc) == a
    requires IsClaimed(o) ==> o.place.t == t && o.place.i < |l.claimed| && l.claimed[o.place.i] == a
    requires PrivateNode(s.th[t].pc) in {NULL, a}
    requires HandNode(s.th[t].pc) in {NULL, a, HandNode(l.pc)}
    requires s.th[t].claimed == [] || l.claimed == s.th[t].claimed
    ensures MemoryOk(s') && Frame(s, s', t)
  {
    WriteFrame(s, s', t, a, n, o);
    WriteHeld(s.own, s.th, t, l, a, o);
  }

  lemma KeepWrite(s: State, s': State, t: Tid, l: Local, a: Addr, n: Node, o: Owner<Shelf>)
    requires Inv(s) && t < |s.th| && Passive(s.th[t], l)
    requires NodesOk(s'.nodes, s'.own, t, l) && ReaderOk(s'.nodes, s'.own, l) && ClaimsOk(s'.nodes, s'.own, t, l)
    requires s' == s.(head := s'.head, stack := s'.stack, vals := s'.vals,
                      nodes := s.nodes[a := n], own := s.own[a := o], th := s.th[t := l])
    requires StackOk(s'.head, s'.stack, s'.vals, s'.nodes, s'.own)
    requires a != NULL && !IsWaiting(o)
    requires a in s.own ==> !IsWaiting(s.own[a]) && (s.own[a].Linked? || Holds(s.own, t, a))
    requires a in s.own && !s.own[a].Private? ==> !o.Private? && !o.Linked?
    requires o.Private? ==> o.t == t && PrivateNode(l.pc) == a
    requires o.Hand? ==> o.t == t && HandNode(l.pc) == a
    requires IsClaimed(o) ==> o.place.t == t && o.place.i < |l.claimed| && l.claimed[o.place.i] == a
    requires PrivateNode(s.th[t].pc) in {NULL, a}
    requires HandNode(s.th[t].pc) in {NULL, a, HandNode(l.pc)}
    requires s.th[t].claimed == [] || l.claimed == s.th[t].claimed
    ensures Inv(s')
  {
    WriteNode(s, s', t, l, a, n, o);
    KeepMemory(s, s', t, l);
  }

  /** Node `a` is the one in t's hand, or the first of its list, and l no longer has it. */
  ghost predicate LetsGo(own: map<Addr, Owner<Shelf>>, t: Tid, l0: Local, l: Local, a: Addr) {
    && a in own && a != NULL && PrivateNode(l0.pc) == NULL
    && if own[a] == Hand(t) then l.claimed == l0.claimed && HandNode(l0.pc) == a
       else HandNode(l.pc) == HandNode(l0.pc) && l0.claimed == l.claimed + [a]
            && own[a] == Retired(Claimed(t, |l.claimed|))
  }

  lemma DeleteHeld(own: map<Addr, Owner<Shelf>>, th: seq<Local>, t: Tid, l: Local, a: Addr)
    requires HeldOk(own, th) && t < |th| && NULL !in own && LetsGo(own, t, th[t], l, a)
    ensures HeldOk(own - {a}, th[t := l])
  {
    forall c | c in own && c != a && IsClaimed(own[c]) && own[c].place.t == t
      ensures own[c].place.i < |l.claimed| && l.claimed[own[c].place.i] == c
    {
      assert th[t].claimed[own[c].place.i] == c;
    }
  }

  lemma DeleteNode(s: State, s': State, t: Tid, l: Local, a: Addr)
    requires MemoryOk(s) && t < |s.th| && LetsGo(s.own, t, s.th[t], l, a)
    requires s' == s.(nodes := s.nodes - {a}, own := s.own - {a}, th := s.th[t := l])
    requires forall u :: 0 <= u < |s.th| ==> ReaderNode(s.th[u].pc) != a
    ensures MemoryOk(s') && Frame(s, s', t)
  {
    DeleteHeld(s.own, s.th, t, l, a);
  }

  lemma EnterExclusive(th: seq<Local>, t: Tid, l: Local)
    requires t < |th| && ExclusiveOk(th) && ReaderNode(l.pc) == NULL && !HandSafe(l.pc) && !ListSafe(l.pc)
    ensures ExclusiveOk(th[t := l])
  {
  }

  /** The head is in nobody's hand and on nobody's list. */
  lemma LookExclusive(s: State, t: Tid, l: Local)
    requires Inv(s) && t < |s.th| && ReaderNode(l.pc) == s.head
    requires !HandSafe(l.pc) && !ListSafe(l.pc)
    ensures ExclusiveOk(s.th[t := l])
  {
    if s.head != NULL {
      PopStack(s.head, s.stack, s.vals, s.nodes, s.own, Hand(t));
      forall u | 0 <= u < |s.th|
        ensures HandNode(s.th[u].pc) != s.head && s.head !in s.th[u].claimed
      {
        assert ThreadOk(s, u);
      }
    }
  }

  /** With no other reader, t may be sure of anything. */
  lemma SureExclusive(th: seq<Local>, t: Tid, l: Local)
    requires t < |th| && ExclusiveOk(th) && ReaderNode(l.pc) == NULL
    requires forall u :: 0 <= u < |th| && u != t ==> ReaderNode(th[u].pc) == NULL
    ensures ExclusiveOk(th[t := l])
  {
  }

  lemma GoneExclusive(th: seq<Local>, t: Tid, l: Local)
    requires t < |th| && ExclusiveOk(th) && ReaderNode(l.pc) == NULL && !ListSafe(l.pc)
    requires HandSafe(l.pc) ==> HandSafe(th[t].pc) && HandNode(l.pc) == HandNode(th[t].pc)
    ensures ExclusiveOk(th[t := l])
  {
  }

  lemma LeaveExclusive(s: State, t: Tid, l: Local)
    requires t < |s.th| && CountOk(s.count, s.inside, s.th) && ExclusiveOk(s.th)
    requires Counted(s.th[t].pc) && HandSafe(s.th[t].pc) && ReaderNode(l.pc) == NULL
    requires HandNode(l.pc) == HandNode(s.th[t].pc) && (ListSafe(l.pc) ==> s.count == 1)
    ensures ExclusiveOk(s.th[t := l])
  {
    if s.count == 1 {
      Alone(s, t);
      SureExclusive(s.th, t, l);
    } else {
      GoneExclusive(s.th, t, l);
    }
  }

  lemma LeaveCount(s: State, t: Tid, l: Local)
    requires t < |s.th| && CountOk(s.count, s.inside, s.th) && Counted(s.th[t].pc) && !Counted(l.pc)
    ensures s.count > 0 && CountOk(s.count - 1, s.inside - {t}, s.th[t := l])
  {
    assert t in s.inside;
  }

  lemma ClaimMemory(s: State, s': State, t: Tid, x: Addr)
    requires MemoryOk(s) && t < |s.th| && s' == ClaimAll(s, t, x) && s.th[t].claimed == []
    requires s.th[t].pc == Exchange(x)
    ensures MemoryOk(s') && Frame(s, s', t)
  {
  }

  /** Two chains are one when the bottom of the upper points at the top of the lower. */
  lemma JoinChains(nodes: map<Addr, Node>, lower: seq<Addr>, upper: seq<Addr>, i: nat)
    requires (forall a :: a in lower + upper ==> a in nodes) && upper != [] && i + 1 < |lower + upper|
    requires forall k, j :: 0 <= k && j == k + 1 < |lower| ==> nodes[lower[j]].next == lower[k]
    requires forall k, j :: 0 <= k && j == k + 1 < |upper| ==> nodes[upper[j]].next == upper[k]
    requires nodes[upper[0]].next == Top(lower)
    ensures nodes[(lower + upper)[i + 1]].next == (lower + upper)[i]
  {
    if i + 1 < |lower| {
      assert nodes[lower[i + 1]].next == lower[i];
    } else if i + 1 > |lower| {
      assert nodes[upper[i + 1 - |lower|]].next == upper[i - |lower|];
    }
  }

  lemma PutBackOwners(s: State, s': State, t: Tid, x: Addr, first: Addr)
    requires ListOk(s.pend, s.waiting, s.nodes, s.own) && t < |s.th|
    requires ClaimsOk(s.nodes, s.own, t, s.th[t]) && s' == PutBack(s, t, x, first)
    ensures s'.own.Keys == s.own.Keys
    ensures forall i :: 0 <= i < |s'.waiting| ==>
      s'.waiting[i] in s'.own && s'.own[s'.waiting[i]] == Retired(Waiting(i))
  {
    forall i | 0 <= i < |s'.waiting|
      ensures s'.waiting[i] in s'.own && s'.own[s'.waiting[i]] == Retired(Waiting(i))
    {
      if i < |s.waiting| {
        assert s.own[s.waiting[i]] == Retired(Waiting(i));
      } else {
        assert s'.waiting[i] == s.th[t].claimed[i - |s.waiting|];
      }
    }
  }

  lemma PutBackConverse(s: State, s': State, t: Tid, x: Addr, first: Addr)
    requires ListOk(s.pend, s.waiting, s.nodes, s.own) && HeldOk(s.own, s.th)
    requires t < |s.th| && s' == PutBack(s, t, x, first)
    ensures forall a {:trigger IsWaiting(s'.own[a])} :: a in s'.own && IsWaiting(s'.own[a]) ==>
      s'.own[a].place.i < |s'.waiting| && s'.waiting[s'.own[a].place.i] == a
  {
  }

  /** The claimed list, its tail pointed at the pending list, becomes the front of it. */
  lemma PutBackList(s: State, s': State, t: Tid, x: Addr, first: Addr)
    requires ListOk(s.pend, s.waiting, s.nodes, s.own) && HeldOk(s.own, s.th)
    requires t < |s.th| && s' == PutBack(s, t, x, first) && ClaimsOk(s.nodes, s.own, t, s.th[t])
    requires s.th[t].claimed != [] && first == Top(s.th[t].claimed)
    requires s.nodes[s.th[t].claimed[0]].next == s.pend
    ensures ListOk(s'.pend, s'.waiting, s'.nodes, s'.own)
  {
    var claimed := s.th[t].claimed;
    forall a | a in s.waiting + claimed
      ensures a in s.nodes
    {
    }
    PutBackOwners(s, s', t, x, first);
    PutBackConverse(s, s', t, x, first);
    forall i, j | 0 <= i && j == i + 1 < |s'.waiting|
      ensures s'.nodes[s'.waiting[j]].next == s'.waiting[i]
    {
      JoinChains(s.nodes, s.waiting, claimed, i);
    }
  }

  lemma PutBackStack(s: State, s': State, t: Tid, x: Addr, first: Addr)
    requires MemoryOk(s) && t < |s.th| && s' == PutBack(s, t, x, first)
    ensures StackOk(s'.head, s'.stack, s'.vals, s'.nodes, s'.own)
  {
  }

  lemma PutBackHeld(s: State, s': State, t: Tid, x: Addr, first: Addr)
    requires MemoryOk(s) && t < |s.th| && s' == PutBack(s, t, x, first)
    requires Chaining(s.th[t].pc) && s.th[t].pc.hand == x
    ensures HeldOk(s'.own, s'.th)
  {
  }

  lemma PutBackFrame(s: State, s': State, t: Tid, x: Addr, first: Addr)
    requires t < |s.th| && s' == PutBack(s, t, x, first)
    ensures Frame(s, s', t)
  {
  }

  lemma PutBackOwn(s: State, s': State, t: Tid, x: Addr, first: Addr)
    requires t < |s.th| && s' == PutBack(s, t, x, first) && ThreadOk(s, t)
    requires s.th[t].pc.ChainCas? && s.th[t].pc.hand == x
    ensures ThreadOk(s', t) && Passive(s.th[t], s'.th[t])
  {
  }

  /** The first claimed node, and what is left without it. */
  lemma FirstClaimed(nodes: map<Addr, Node>, own: map<Addr, Owner<Shelf>>, t: Tid, l: Local)
    requires ClaimsOk(nodes, own, t, l) && l.claimed != []
    ensures Top(l.claimed) == l.claimed[|l.claimed| - 1]
    ensures l.claimed == l.claimed[..|l.claimed| - 1] + [Top(l.claimed)]
    ensures Top(l.claimed) in own && own[Top(l.claimed)] == Retired(Claimed(t, |l.claimed| - 1))
  {
  }

  /** The tail of a claimed list is its only node without a successor. */
  lemma WalkClaimed(nodes: map<Addr, Node>, own: map<Addr, Owner<Shelf>>, t: Tid, l: Local, j: nat)
    requires ClaimsOk(nodes, own, t, l) && !Chaining(l.pc) && j < |l.claimed| && NULL !in nodes
    ensures nodes[l.claimed[j]].next == if j == 0 then NULL else l.claimed[j - 1]
    ensures (nodes[l.claimed[j]].next == NULL) == (j == 0)
  {
    if j > 0 {
      assert nodes[l.claimed[j]].next == l.claimed[j - 1];
    }
  }

  lemma SecondClaimed(nodes: map<Addr, Node>, own: map<Addr, Owner<Shelf>>, t: Tid, l: Local)
    requires ClaimsOk(nodes, own, t, l) && !Chaining(l.pc) && l.claimed != [] && NULL !in nodes
    ensures Top(l.claimed) in nodes && nodes[Top(l.claimed)].next == Top(l.claimed[..|l.claimed| - 1])
  {
    WalkClaimed(nodes, own, t, l, |l.claimed| - 1);
  }

  lemma TailClaimed(nodes: map<Addr, Node>, own: map<Addr, Owner<Shelf>>, t: Tid, l: Local, l': Local, n: Node)
    requires ClaimsOk(nodes, own, t, l) && Chaining(l.pc) && Chaining(l'.pc) && l'.claimed == l.claimed
    requires l'.pc.first == l.pc.first && l'.pc.last == l.pc.last
    ensures l.pc.last in own && own[l.pc.last] == Retired(Claimed(t, 0))
    ensures ClaimsOk(nodes[l.pc.last := n], own, t, l')
  {
    forall j | 0 < j < |l.claimed|
      ensures l.claimed[j] != l.pc.last
    {
      assert own[l.claimed[j]] == Retired(Claimed(t, j));
    }
  }

  lemma FreeOneMemory(s: State, s': State, t: Tid, x: Addr, list: Addr, next: Addr)
    requires MemoryOk(s) && t < |s.th| && s' == FreeOne(s, t, x, list, next)
    requires s.th[t].pc == FreeNode(x, list, next) && x != NULL && list != NULL
    requires s.th[t].claimed == s'.th[t].claimed + [list]
    requires list in s.own && s.own[list] == Retired(Claimed(t, |s'.th[t].claimed|))
    requires forall u :: 0 <= u < |s.th| ==> ReaderNode(s.th[u].pc) != list
    ensures MemoryOk(s') && Frame(s, s', t)
  {
    DeleteNode(s, s', t, s'.th[t], list);
  }

  lemma RestClaimed(nodes: map<Addr, Node>, own: map<Addr, Owner<Shelf>>, t: Tid, l: Local, l': Local)
    requires ClaimsOk(nodes, own, t, l) && l.pc.FreeNode? && l.claimed != [] && NULL !in nodes
    requires l'.claimed == l.claimed[..|l.claimed| - 1]
    requires l'.pc == if l.pc.next == NULL then FreeHand(l.pc.hand) else FreeNext(l.pc.hand, l.pc.next)
    ensures ClaimsOk(nodes - {Top(l.claimed)}, own - {Top(l.claimed)}, t, l')
  {
    var x := Top(l.claimed);
    assert x == l.claimed[|l.claimed| - 1];
    forall i | 0 <= i < |l'.claimed|
      ensures l'.claimed[i] == l.claimed[i] != x
    {
      assert own[l.claimed[i]] == Retired(Claimed(t, i));
    }
  }

  lemma ListNotRead(s: State, t: Tid, list: Addr)
    requires t < |s.th| && ExclusiveOk(s.th) && ListSafe(s.th[t].pc) && list in s.th[t].claimed && list != NULL
    ensures forall u :: 0 <= u < |s.th| ==> ReaderNode(s.th[u].pc) != list
  {
  }

  // The steps.

  lemma KeepCall(s: State, t: Tid, pc: PC)
    requires Inv(s) && t < |s.th| && s.th[t].pc == Idle && (pc.PushNew? || pc.Enter?)
    ensures Inv(At(s, t, pc))
  {
    var s' := At(s, t, pc);
    KeepPassive(s, s', t, s'.th[t]);
  }

  lemma KeepCountIn(s: State, t: Tid)
    requires Inv(s) && t < |s.th| && s.th[t].pc == Enter
    ensures Inv(CountIn(s, t))
  {
    var s' := CountIn(s, t);
    EnterExclusive(s.th, t, s'.th[t]);
    KeepControl(s, s', t, s'.th[t]);
  }

  lemma KeepLook(s: State, t: Tid, pc: PC)
    requires Inv(s) && t < |s.th| && s.th[t].pc == pc && (pc.PopLoad? || pc.PopCas?)
    ensures Inv(Look(s, t))
  {
    var s' := Look(s, t);
    assert ThreadOk(s, t);
    PassiveCount(s, t, s'.th[t]);
    LookExclusive(s, t, s'.th[t]);
    KeepControl(s, s', t, s'.th[t]);
  }

  lemma KeepReadNext(s: State, t: Tid, top: Addr)
    requires Inv(s) && t < |s.th| && s.th[t].pc == PopNext(top)
    ensures top in s.nodes && Inv(ReadNext(s, t, top))
  {
    var s' := ReadNext(s, t, top);
    KeepPassive(s, s', t, s'.th[t]);
  }

  lemma KeepTestAlone(s: State, t: Tid, x: Addr)
    requires Inv(s) && t < |s.th| && s.th[t].pc == Test(x) && s.count == 1
    ensures Inv(At(s, t, Exchange(x)))
  {
    var s' := At(s, t, Exchange(x));
    Alone(s, t);
    PassiveCount(s, t, s'.th[t]);
    SureExclusive(s.th, t, s'.th[t]);
    KeepControl(s, s', t, s'.th[t]);
  }

  lemma CountOutOwn(s: State, t: Tid, x: Addr, list: Addr)
    requires t < |s.th| && s.th[t].pc == Leave(x, list) && ThreadOk(s, t) && s.count > 0 && NULL !in s.nodes
    ensures ThreadOk(CountOut(s, t, x, list), t) && SameHoldings(s.th[t], CountOut(s, t, x, list).th[t])
  {
  }

  lemma KeepCountOut(s: State, t: Tid, x: Addr, list: Addr)
    requires Inv(s) && t < |s.th| && s.th[t].pc == Leave(x, list)
    ensures s.count > 0 && Inv(CountOut(s, t, x, list))
  {
    var s' := CountOut(s, t, x, list);
    LeaveCount(s, t, s'.th[t]);
    CountOutOwn(s, t, x, list);
    LeaveExclusive(s, t, s'.th[t]);
    KeepControl(s, s', t, s'.th[t]);
  }

  lemma ReadFreeOwn(s: State, t: Tid, x: Addr, list: Addr, l: Local)
    requires t < |s.th| && ThreadOk(s, t) && s.th[t].pc == FreeNext(x, list) && NULL !in s.nodes
    requires list in s.nodes ==> l == s.th[t].(pc := FreeNode(x, list, s.nodes[list].next))
    ensures list in s.nodes && NodesOk(s.nodes, s.own, t, l) && ReaderOk(s.nodes, s.own, l)
    ensures ClaimsOk(s.nodes, s.own, t, l) && SameHoldings(s.th[t], l) && Passive(s.th[t], l)
  {
    SecondClaimed(s.nodes, s.own, t, s.th[t]);
  }

  lemma KeepReadFree(s: State, t: Tid, x: Addr, list: Addr)
    requires Inv(s) && t < |s.th| && s.th[t].pc == FreeNext(x, list)
    ensures list in s.nodes && Inv(ReadFree(s, t, x, list))
  {
    assert ThreadOk(s, t);
    FirstClaimed(s.nodes, s.own, t, s.th[t]);
    var s' := ReadFree(s, t, x, list);
    ReadFreeOwn(s, t, x, list, s'.th[t]);
    KeepPassive(s, s', t, s'.th[t]);
  }

  lemma KeepWalkOn(s: State, t: Tid, x: Addr, first: Addr, last: Addr)
    requires Inv(s) && t < |s.th| && s.th[t].pc == Walk(x, first, last)
    ensures last in s.nodes && Inv(WalkOn(s, t, x, first, last))
  {
    var s' := WalkOn(s, t, x, first, last);
    assert ThreadOk(s, t);
    WalkClaimed(s.nodes, s.own, t, s.th[t], s.own[last].place.i);
    KeepPassive(s, s', t, s'.th[t]);
  }

  lemma KeepChainLoad(s: State, t: Tid, x: Addr, first: Addr, last: Addr, pc: PC)
    requires Inv(s) && t < |s.th| && s.th[t].pc == pc
    requires pc == ChainLoad(x, first, last) || pc == ChainCas(x, first, last)
    ensures Inv(At(s, t, ChainStore(x, first, last, s.pend)))
  {
    var s' := At(s, t, ChainStore(x, first, last, s.pend));
    KeepPassive(s, s', t, s'.th[t]);
  }

  lemma LeaveLastOwn(s: State, t: Tid, l: Local)
    requires t < |s.th| && ThreadOk(s, t) && s.th[t].pc == Depart && l == s.th[t].(pc := Return(Popped(s.th[t].res)))
    ensures NodesOk(s.nodes, s.own, t, l) && ReaderOk(s.nodes, s.own, l) && ClaimsOk(s.nodes, s.own, t, l)
    ensures SameHoldings(s.th[t], l)
  {
  }

  lemma KeepLeaveLast(s: State, t: Tid)
    requires Inv(s) && t < |s.th| && s.th[t].pc == Depart
    ensures s.count > 0 && Inv(LeaveLast(s, t))
  {
    assert ThreadOk(s, t);
    var l := s.th[t].(pc := Return(Popped(s.th[t].res)));
    LeaveCount(s, t, l);
    GoneExclusive(s.th, t, l);
    LeaveLastOwn(s, t, l);
    KeepControl(s, LeaveLast(s, t), t, l);
  }

  lemma KeepFinish(s: State, t: Tid, r: Result)
    requires Inv(s) && t < |s.th| && s.th[t].pc == Return(r)
    ensures Inv(Finish(s, t))
  {
    var s' := Finish(s, t);
    KeepPassive(s, s', t, s'.th[t]);
  }

  lemma KeepAllocate(s: State, t: Tid, v: Value, a: Addr)
    requires Inv(s) && t < |s.th| && s.th[t].pc == PushNew(v) && a != NULL && a !in s.nodes
    ensures Inv(Allocate(s, t, v, a))
  {
    var s' := Allocate(s, t, v, a);
    WriteStack(s.head, s.stack, s.vals, s.nodes, s.own, a, s'.nodes[a], Private(t));
    KeepWrite(s, s', t, s'.th[t], a, s'.nodes[a], Private(t));
  }

  lemma RelinkOwn(s: State, s': State, t: Tid, a: Addr, v: Value, pc: PC)
    requires t < |s.th| && ThreadOk(s, t) && s.th[t].pc == pc && (pc == PushLoad(a, v) || pc == PushCas(a, v))
    requires a in s.nodes && s' == Relink(s, t, a, v)
    ensures a != NULL && a in s.own && s.own[a] == Private(t) && s.own[a := Private(t)] == s.own
    ensures ThreadOk(s', t)
  {
    assert s.own[a := s.own[a]] == s.own;
  }

  lemma KeepRelink(s: State, t: Tid, a: Addr, v: Value, pc: PC)
    requires Inv(s) && t < |s.th| && s.th[t].pc == pc && (pc == PushLoad(a, v) || pc == PushCas(a, v))
    ensures a in s.nodes && Inv(Relink(s, t, a, v))
  {
    assert ThreadOk(s, t);
    var s' := Relink(s, t, a, v);
    RelinkOwn(s, s', t, a, v, pc);
    WriteStack(s.head, s.stack, s.vals, s.nodes, s.own, a, s'.nodes[a], Private(t));
    KeepWrite(s, s', t, s'.th[t], a, s'.nodes[a], Private(t));
  }

  lemma PublishOwn(s: State, s': State, t: Tid, a: Addr, v: Value)
    requires t < |s.th| && ThreadOk(s, t) && s.th[t].pc == PushCas(a, v) && a in s.nodes && s' == Publish(s, t, a, v)
    ensures a != NULL && a in s.own && s.own[a] == Private(t) && s.nodes[a].data == Some(v)
    ensures s.nodes[a := s.nodes[a]] == s.nodes && ThreadOk(s', t)
  {
  }

  lemma KeepPublish(s: State, t: Tid, a: Addr, v: Value)
    requires Inv(s) && t < |s.th| && s.th[t].pc == PushCas(a, v) && a in s.nodes && s.nodes[a].next == s.head
    ensures Inv(Publish(s, t, a, v))
  {
    var s' := Publish(s, t, a, v);
    assert ThreadOk(s, t);
    PublishOwn(s, s', t, a, v);
    PushStack(s.head, s.stack, s.vals, s.nodes, s.own, a, v);
    KeepWrite(s, s', t, s'.th[t], a, s.nodes[a], Linked(|s.stack|));
  }

  /** What t holds after it has unlinked the top node. */
  lemma UnlinkOwn(s: State, s': State, t: Tid, top: Addr, next: Addr)
    requires t < |s.th| && s.th[t].pc == PopCas(top, next) && s.head == top && ThreadOk(s, t)
    requires StackOk(s.head, s.stack, s.vals, s.nodes, s.own) && s' == Unlink(s, t, top, next)
    ensures top != NULL && top in s.own && s.own[top].Linked?
    ensures StackOk(s'.head, s'.stack, s'.vals, s'.nodes, s'.own)
    ensures ThreadOk(s', t) && Passive(s.th[t], s'.th[t])
  {
    PopStack(s.head, s.stack, s.vals, s.nodes, s.own, Hand(t));
  }

  lemma KeepUnlink(s: State, t: Tid, top: Addr, next: Addr)
    requires Inv(s) && t < |s.th| && s.th[t].pc == PopCas(top, next) && s.head == top
    ensures Inv(Unlink(s, t, top, next))
  {
    var s' := Unlink(s, t, top, next);
    UnlinkOwn(s, s', t, top, next);
    assert s.nodes[top := s.nodes[top]] == s.nodes;
    KeepWrite(s, s', t, s'.th[t], top, s.nodes[top], Hand(t));
  }

  lemma KeepSwapData(s: State, t: Tid, a: Addr, lin: Option<Value>)
    requires Inv(s) && t < |s.th| && s.th[t].pc == Swap(a, lin)
    ensures a in s.nodes && Inv(SwapData(s, t, a))
  {
    var s' := SwapData(s, t, a);
    assert s.own[a := s.own[a]] == s.own;
    WriteStack(s.head, s.stack, s.vals, s.nodes, s.own, a, s'.nodes[a], Hand(t));
    KeepWrite(s, s', t, s'.th[t], a, s'.nodes[a], Hand(t));
  }

  lemma KeepKept(s: State, t: Tid, a: Addr)
    requires Inv(s) && t < |s.th| && s.th[t].pc == Test(a)
    ensures Inv(KeepForLater(s, t, a))
  {
    var s' := KeepForLater(s, t, a);
    assert ThreadOk(s, t);
    assert s.nodes[a := s.nodes[a]] == s.nodes;
    WriteStack(s.head, s.stack, s.vals, s.nodes, s.own, a, s.nodes[a], Retired(Claimed(t, 0)));
    KeepWrite(s, s', t, s'.th[t], a, s.nodes[a], Retired(Claimed(t, 0)));
  }

  lemma KeepStoreLast(s: State, t: Tid, x: Addr, first: Addr, a: Addr, val: Addr)
    requires Inv(s) && t < |s.th| && s.th[t].pc == ChainStore(x, first, a, val)
    ensures a in s.nodes && Inv(StoreLast(s, t, x, first, a, val))
  {
    var s' := StoreLast(s, t, x, first, a, val);
    assert ThreadOk(s, t);
    TailClaimed(s.nodes, s.own, t, s.th[t], s'.th[t], s'.nodes[a]);
    assert s.own[a := s.own[a]] == s.own;
    WriteStack(s.head, s.stack, s.vals, s.nodes, s.own, a, s'.nodes[a], Retired(Claimed(t, 0)));
    KeepWrite(s, s', t, s'.th[t], a, s'.nodes[a], Retired(Claimed(t, 0)));
  }

  lemma ClaimAllOwn(s: State, s': State, t: Tid, x: Addr)
    requires ListOk(s.pend, s.waiting, s.nodes, s.own) && t < |s.th| && s' == ClaimAll(s, t, x)
    requires ThreadOk(s, t) && s.th[t].pc == Exchange(x)
    ensures ThreadOk(s', t) && Passive(s.th[t], s'.th[t])
  {
  }

  lemma KeepClaimAll(s: State, t: Tid, x: Addr)
    requires Inv(s) && t < |s.th| && s.th[t].pc == Exchange(x)
    ensures Inv(ClaimAll(s, t, x))
  {
    var s' := ClaimAll(s, t, x);
    assert ThreadOk(s, t);
    ClaimAllOwn(s, s', t, x);
    ClaimMemory(s, s', t, x);
    KeepMemory(s, s', t, s'.th[t]);
  }

  lemma KeepPutBack(s: State, t: Tid, x: Addr, first: Addr, last: Addr)
    requires Inv(s) && t < |s.th| && s.th[t].pc == ChainCas(x, first, last)
    requires last in s.nodes && s.pend == s.nodes[last].next
    ensures Inv(PutBack(s, t, x, first))
  {
    var s' := PutBack(s, t, x, first);
    assert ThreadOk(s, t);
    PutBackOwn(s, s', t, x, first);
    PutBackList(s, s', t, x, first);
    PutBackStack(s, s', t, x, first);
    PutBackHeld(s, s', t, x, first);
    PutBackFrame(s, s', t, x, first);
    KeepMemory(s, s', t, s'.th[t]);
  }

  lemma FreeOneTake(s: State, s': State, t: Tid, x: Addr, list: Addr, next: Addr)
    requires t < |s.th| && s.th[t].pc == FreeNode(x, list, next) && ThreadOk(s, t) && NULL !in s.nodes
    requires s' == FreeOne(s, t, x, list, next)
    ensures x != NULL && list != NULL && s.th[t].claimed != [] && Top(s.th[t].claimed) == list
    ensures s.th[t].claimed == s'.th[t].claimed + [list]
    ensures list in s.own && s.own[list] == Retired(Claimed(t, |s'.th[t].claimed|))
  {
    FirstClaimed(s.nodes, s.own, t, s.th[t]);
  }

  /** What t holds after it has deleted the first node of its list. */
  lemma FreeOneOwn(s: State, s': State, t: Tid, x: Addr, list: Addr, next: Addr)
    requires t < |s.th| && s.th[t].pc == FreeNode(x, list, next) && NULL !in s.nodes && x != NULL
    requires NodesOk(s.nodes, s.own, t, s.th[t]) && list in s.own && s.own[list].Retired?
    requires s' == FreeOne(s, t, x, list, next) && s.th[t].claimed == s'.th[t].claimed + [list]
    ensures NodesOk(s'.nodes, s'.own, t, s'.th[t]) && ReaderOk(s'.nodes, s'.own, s'.th[t])
    ensures Passive(s.th[t], s'.th[t])
  {
  }

  lemma KeepFreeOne(s: State, t: Tid, x: Addr, list: Addr, next: Addr)
    requires Inv(s) && t < |s.th| && s.th[t].pc == FreeNode(x, list, next)
    ensures Inv(FreeOne(s, t, x, list, next))
  {
    var s' := FreeOne(s, t, x, list, next);
    FreeOneTake(s, s', t, x, list, next);
    FreeOneOwn(s, s', t, x, list, next);
    RestClaimed(s.nodes, s.own, t, s.th[t], s'.th[t]);
    ListNotRead(s, t, list);
    FreeOneMemory(s, s', t, x, list, next);
    KeepMemory(s, s', t, s'.th[t]);
  }

  lemma DeleteHandOwn(s: State, s': State, t: Tid, x: Addr)
    requires t < |s.th| && s.th[t].pc == FreeHand(x) && ThreadOk(s, t) && s' == DeleteHand(s, t, x)
    ensures x != NULL && x in s.own && s.own[x] == Hand(t) && s.th[t].claimed == []
    ensures ThreadOk(s', t) && Passive(s.th[t], s'.th[t])
  {
  }

  lemma KeepDeleteHand(s: State, t: Tid, x: Addr)
    requires Inv(s) && t < |s.th| && s.th[t].pc == FreeHand(x)
    ensures Inv(DeleteHand(s, t, x))
  {
    var s' := DeleteHand(s, t, x);
    DeleteHandOwn(s, s', t, x);
    DeleteNode(s, s', t, s'.th[t], x);
    KeepMemory(s, s', t, s'.th[t]);
  }
}
