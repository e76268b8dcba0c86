/** What the reclamation of the counting stack comes to: a pop that finds itself alone frees its node,
    any other leaves it on the pending list, and a call left to itself ends with exactly the nodes
    freed that may be. */
module CounterReclaim {
  import opened Memory
  import opened Runs
  import opened StackSpec
  import opened LinkedStack
  import opened CounterStack
  import opened CounterSafety
  import opened CounterTheorems

  // A call left to itself comes to its end.

  /** How many steps of its own a call is from its end, when nobody else moves: more with a head or a
      pending list in hand that has changed. */
  function AloneRank(s: State, t: Tid): nat {
    if t >= |s.th| then 0 else
      var pending, claimed := |s.waiting|, |s.th[t].claimed|;
      match s.th[t].pc
      case Idle => 0
      case Return(_) => 1
      case PushNew(_) => 5
      case PushLoad(_, _) => 4
      case PushCas(a, _) => if a in s.nodes && s.nodes[a].next == s.head then 2 else 3
      case Enter => 14 + 2 * pending
      case PopLoad => 13 + 2 * pending
      case PopNext(top) => (if top == s.head then 11 else 13) + 2 * pending
      case PopCas(top, _) => (if top == s.head then 10 else 12) + 2 * pending
      case Swap(_, _) => 9 + 2 * pending
      case Test(_) => 8 + 2 * pending
      case Exchange(_) => 7 + 2 * pending
      case Leave(_, _) => 6 + 2 * claimed
      case FreeNext(_, _) => 3 + 2 * claimed
      case FreeNode(_, _, _) => 2 + 2 * claimed
      case Walk(_, _, last) => 6 + Rank(s, t)
      case ChainLoad(_, _, _) => 5
      case ChainStore(_, _, _, val) => if val == s.pend then 4 else 6
      case ChainCas(_, _, last) => if last in s.nodes && s.nodes[last].next == s.pend then 3 else 5
      case Depart => 2
      case FreeHand(_) => 2
  }

  lemma PushDescends(s: State, t: Tid, c: Choice)
    requires Enabled(s, t, c) && c != Weak(true) && InPush(s.th[t].pc)
    ensures AloneRank(Step(s, t, c), t) < AloneRank(s, t)
  {
    match s.th[t].pc
    case PushNew(_) =>
    case PushLoad(_, _) =>
    case _ =>
  }

  lemma PopDescends(s: State, t: Tid, c: Choice)
    requires Enabled(s, t, c) && InPop(s.th[t].pc)
    ensures AloneRank(Step(s, t, c), t) < AloneRank(s, t)
  {
    match s.th[t].pc
    case Enter =>
    case PopCas(_, _) =>
    case _ =>
  }

  lemma ChainDescends(s: State, t: Tid, c: Choice)
    requires Enabled(s, t, c) && Chaining(s.th[t].pc)
    ensures AloneRank(Step(s, t, c), t) < AloneRank(s, t)
  {
    match s.th[t].pc
    case ChainLoad(_, _, _) =>
    case ChainStore(_, _, _, _) =>
    case _ =>
  }

  lemma FreeDescends(s: State, t: Tid, c: Choice)
    requires Enabled(s, t, c) && ThreadOk(s, t) && (s.th[t].pc.FreeNext? || s.th[t].pc.FreeNode?)
    ensures AloneRank(Step(s, t, c), t) < AloneRank(s, t)
  {
  }

  lemma WalkDescends(s: State, t: Tid, x: Addr, first: Addr, last: Addr)
    requires Inv(s) && t < |s.th| && s.th[t].pc == Walk(x, first, last)
    ensures last in s.nodes && AloneRank(WalkOn(s, t, x, first, last), t) < AloneRank(s, t)
  {
    WalkTerminates(s, t, x, first, last);
  }

  lemma RestDescends(s: State, t: Tid, c: Choice)
    requires Enabled(s, t, c) && ThreadOk(s, t) && !s.th[t].pc.Idle?
    requires !InPush(s.th[t].pc) && !InPop(s.th[t].pc) && !InList(s.th[t].pc)
    ensures AloneRank(Step(s, t, c), t) < AloneRank(s, t)
  {
    match s.th[t].pc
    case Test(_) =>
    case Exchange(_) =>
    case Leave(x, list) => LeaveDescends(s, t, x, list);
    case _ =>
  }

  lemma LeaveDescends(s: State, t: Tid, x: Addr, list: Addr)
    requires t < |s.th| && s.th[t].pc == Leave(x, list) && ThreadOk(s, t) && s.count > 0
    ensures AloneRank(CountOut(s, t, x, list), t) < AloneRank(s, t)
  {
    if s.th[t].claimed != [] {
      FirstClaimed(s.nodes, s.own, t, s.th[t]);
    }
  }

  /** Left to itself, a call comes nearer to its end with every step that is no spurious failure. */
  lemma AloneDescends(s: State, t: Tid, c: Choice)
    requires Inv(s) && Enabled(s, t, c) && c != Weak(true) && !s.th[t].pc.Idle?
    ensures AloneRank(Step(s, t, c), t) < AloneRank(s, t)
  {
    assert ThreadOk(s, t);
    var pc := s.th[t].pc;
    if InPush(pc) {
      PushDescends(s, t, c);
    } else if InPop(pc) {
      PopDescends(s, t, c);
    } else if Chaining(pc) {
      ChainDescends(s, t, c);
    } else if pc.Walk? {
      WalkDescends(s, t, pc.hand, pc.first, pc.last);
    } else if InList(pc) {
      FreeDescends(s, t, c);
    } else {
      RestDescends(s, t, c);
    }
  }

  /** The step from s to s' is one of thread t in a call, and no spurious failure. */
  ghost predicate Alone(t: Tid, s: State, s': State) {
    exists c :: Enabled(s, t, c) && c != Weak(true) && !s.th[t].pc.Idle? && s' == Step(s, t, c)
  }

  /** Thread t is in a call, and nobody else moves. */
  ghost predicate AloneRun(r: seq<State>, t: Tid) {
    IsRun(r, s => Inv(s) && t < |s.th|, (s, s') => Alone(t, s, s'))
  }

  lemma SameThreads(s: State, t: Tid, c: Choice)
    requires Enabled(s, t, c)
    ensures |Step(s, t, c).th| == |s.th|
  {
  }

  lemma AloneLowers(s: State, s': State, t: Tid)
    requires Inv(s) && t < |s.th| && Alone(t, s, s')
    ensures Inv(s') && t < |s'.th| && AloneRank(s', t) < AloneRank(s, t)
  {
    var c :| Enabled(s, t, c) && c != Weak(true) && !s.th[t].pc.Idle? && s' == Step(s, t, c);
    KeepStep(s, t, c);
    SameThreads(s, t, c);
    AloneDescends(s, t, c);
  }

  /** Wherever the others have stopped, a thread that runs alone, without spurious failures, ends its
      call within as many steps as its rank; it can always take the next one. */
  lemma AloneReturns(r: seq<State>, t: Tid)
    requires AloneRun(r, t)
    ensures var first, last := r[0], r[|r| - 1];
      && t < |last.th| && |r| - 1 + AloneRank(last, t) <= AloneRank(first, t)
      && (AloneRank(last, t) == 0 <==> last.th[t].pc.Idle?)
  {
    var inv, step := (s: State) => Inv(s) && t < |s.th|, (s: State, s': State) => Alone(t, s, s');
    forall s, s' | inv(s) && step(s, s')
      ensures inv(s') && AloneRank(s', t) < AloneRank(s, t)
    {
      AloneLowers(s, s', t);
    }
    Descent(r, inv, step, s => AloneRank(s, t));
  }

  // What a pop left to itself does.

  function NodesOf(list: seq<Addr>): set<Addr> {
    set a | a in list
  }

  /** The pop has not taken effect yet. */
  predicate Looking(pc: PC) {
    pc.Enter? || pc.PopLoad? || pc.PopNext? || pc.PopCas?
  }

  /** Thread t is, or will be when it has entered, the only one counted. */
  predicate Only(s: State, t: Tid) {
    t < |s.th| && s.count == if s.th[t].pc.Enter? then 0 else 1
  }

  /** The nodes that a pop of thread t frees if nobody else moves: when it is the only one inside, the
      node it pops and all those pending, or claimed; when it has been, its node. */
  function ToFree(s: State, t: Tid): set<Addr>
    requires t < |s.th|
  {
    var l := s.th[t];
    if Looking(l.pc) then if s.head != NULL && Only(s, t) then {s.head} + NodesOf(s.waiting) else {}
    else if l.pc.Swap? || l.pc.Test? then if Only(s, t) then {l.pc.hand} + NodesOf(s.waiting) else {}
    else if l.pc.Exchange? then {l.pc.hand} + if Only(s, t) then NodesOf(s.waiting) else {}
    else if l.pc.Leave? then {l.pc.hand} + if Only(s, t) then NodesOf(l.claimed) else {}
    else if ListSafe(l.pc) then {l.pc.hand} + NodesOf(l.claimed)
    else if HandNode(l.pc) != NULL then {HandNode(l.pc)} else {}
  }

  /** The pending list it leaves. */
  function ToPend(s: State, t: Tid): seq<Addr>
    requires t < |s.th|
  {
    var l := s.th[t];
    if Looking(l.pc) then if s.head == NULL then s.waiting else if Only(s, t) then [] else s.waiting + [s.head]
    else if l.pc.Swap? || l.pc.Test? then if Only(s, t) then [] else s.waiting + [l.pc.hand]
    else if l.pc.Exchange? then if Only(s, t) then [] else s.waiting
    else if l.pc.Leave? then if Only(s, t) then s.waiting else s.waiting + l.claimed
    else if l.pc.Walk? || Chaining(l.pc) then s.waiting + l.claimed
    else s.waiting
  }

  /** What a pop leaves: the nodes allocated, the pending list, the values on the stack, its result. */
  datatype Outcome = Outcome(nodes: set<Addr>, waiting: seq<Addr>, vals: seq<Value>, result: Option<Value>)

  function OutcomeOf(s: State, t: Tid): Outcome {
    if t >= |s.th| then Outcome({}, [], [], None) else
      var l := s.th[t];
      var top := if s.vals == [] then None else Some(s.vals[|s.vals| - 1]);
      Outcome(s.nodes.Keys - ToFree(s, t), ToPend(s, t),
              if Looking(l.pc) && s.vals != [] then s.vals[..|s.vals| - 1] else s.vals,
              if Looking(l.pc) then top else if l.pc.Swap? then l.pc.lin
              else if l.pc.Return? && l.pc.result.Popped? then l.pc.result.v else l.res)
  }

  lemma EnterForetold(s: State, t: Tid)
    requires t < |s.th| && s.th[t].pc.Enter?
    ensures OutcomeOf(CountIn(s, t), t) == OutcomeOf(s, t)
  {
  }

  lemma LookForetold(s: State, t: Tid)
    requires StackOk(s.head, s.stack, s.vals, s.nodes, s.own) && t < |s.th| && ThreadOk(s, t)
    requires s.th[t].pc.PopLoad? || s.th[t].pc.PopCas?
    ensures OutcomeOf(Look(s, t), t) == OutcomeOf(s, t)
  {
  }

  lemma ReadForetold(s: State, t: Tid, top: Addr)
    requires t < |s.th| && s.th[t].pc == PopNext(top) && top in s.nodes
    ensures OutcomeOf(ReadNext(s, t, top), t) == OutcomeOf(s, t)
  {
  }

  lemma UnlinkForetold(s: State, t: Tid, top: Addr, next: Addr)
    requires StackOk(s.head, s.stack, s.vals, s.nodes, s.own) && t < |s.th| && ThreadOk(s, t)
    requires s.th[t].pc == PopCas(top, next) && s.head == top
    ensures OutcomeOf(Unlink(s, t, top, next), t) == OutcomeOf(s, t)
  {
  }

  lemma TestForetold(s: State, t: Tid, c: Choice)
    requires Enabled(s, t, c) && ThreadOk(s, t) && (s.th[t].pc.Swap? || s.th[t].pc.Test? || s.th[t].pc.Exchange?)
    ensures OutcomeOf(Step(s, t, c), t) == OutcomeOf(s, t)
  {
  }

  lemma LeaveForetold(s: State, t: Tid, x: Addr, list: Addr)
    requires t < |s.th| && ThreadOk(s, t) && s.th[t].pc == Leave(x, list) && s.count > 0 && NULL !in s.nodes
    ensures OutcomeOf(CountOut(s, t, x, list), t) == OutcomeOf(s, t)
  {
    if s.th[t].claimed != [] {
      FirstClaimed(s.nodes, s.own, t, s.th[t]);
    }
  }

  lemma FreedAlready(keys: set<Addr>, x: Addr, list: Addr, rest: set<Addr>)
    ensures (keys - {list}) - ({x} + rest) == keys - ({x} + (rest + {list}))
  {
  }

  lemma NodesOfMore(rest: seq<Addr>, list: Addr)
    ensures NodesOf(rest + [list]) == NodesOf(rest) + {list}
  {
  }

  lemma LastHasNoNext(nodes: map<Addr, Node>, own: map<Addr, Owner<Shelf>>, t: Tid, l: Local)
    requires ClaimsOk(nodes, own, t, l) && NULL !in nodes && l.pc.FreeNode?
    ensures l.claimed != [] && l.claimed == l.claimed[..|l.claimed| - 1] + [l.pc.list]
    ensures l.pc.next == NULL <==> l.claimed[..|l.claimed| - 1] == []
  {
    FirstClaimed(nodes, own, t, l);
    if |l.claimed| > 1 {
      assert l.claimed[|l.claimed| - 2] in nodes;
    }
  }

  lemma StillToFree(s: State, s': State, t: Tid, x: Addr, list: Addr, next: Addr, rest: seq<Addr>)
    requires t < |s.th| && s.th[t].pc == FreeNode(x, list, next) && s' == FreeOne(s, t, x, list, next)
    requires x != NULL && s.th[t].claimed == rest + [list] && (next == NULL <==> rest == [])
    ensures s'.th[t].claimed == rest && s'.nodes.Keys == s.nodes.Keys - {list}
    ensures ToFree(s, t) == {x} + NodesOf(rest + [list]) && ToFree(s', t) == {x} + NodesOf(rest)
    ensures ToPend(s, t) == s.waiting == ToPend(s', t)
  {
  }

  lemma FreeForetold(s: State, t: Tid, x: Addr, list: Addr, next: Addr, rest: seq<Addr>)
    requires t < |s.th| && s.th[t].pc == FreeNode(x, list, next) && x != NULL
    requires s.th[t].claimed == rest + [list] && (next == NULL <==> rest == [])
    ensures OutcomeOf(FreeOne(s, t, x, list, next), t) == OutcomeOf(s, t)
  {
    StillToFree(s, FreeOne(s, t, x, list, next), t, x, list, next, rest);
    NodesOfMore(rest, list);
    FreedAlready(s.nodes.Keys, x, list, NodesOf(rest));
  }

  lemma WalkForetold(s: State, t: Tid, x: Addr, first: Addr, last: Addr)
    requires t < |s.th| && last in s.nodes && s.th[t].pc == Walk(x, first, last)
    ensures OutcomeOf(WalkOn(s, t, x, first, last), t) == OutcomeOf(s, t)
  {
  }

  lemma ChainForetold(s: State, t: Tid, c: Choice)
    requires Enabled(s, t, c) && (s.th[t].pc.ChainLoad? || s.th[t].pc.FreeNext?)
    ensures OutcomeOf(Step(s, t, c), t) == OutcomeOf(s, t)
  {
  }

  lemma StoreForetold(s: State, t: Tid, x: Addr, first: Addr, last: Addr, val: Addr)
    requires t < |s.th| && last in s.nodes && s.th[t].pc == ChainStore(x, first, last, val)
    ensures OutcomeOf(StoreLast(s, t, x, first, last, val), t) == OutcomeOf(s, t)
  {
    assert StoreLast(s, t, x, first, last, val).nodes.Keys == s.nodes.Keys;
  }

  lemma PutBackForetold(s: State, t: Tid, x: Addr, first: Addr, last: Addr)
    requires t < |s.th| && last in s.nodes && s.th[t].pc == ChainCas(x, first, last)
    ensures OutcomeOf(CasPending(s, t, x, first, last), t) == OutcomeOf(s, t)
  {
  }

  lemma EndForetold(s: State, t: Tid, c: Choice)
    requires Enabled(s, t, c) && ThreadOk(s, t) && (s.th[t].pc.Depart? || s.th[t].pc.FreeHand?)
    ensures OutcomeOf(Step(s, t, c), t) == OutcomeOf(s, t)
  {
  }

  /** The thread is in a pop, which may have its result already. */
  predicate Popping(pc: PC) {
    !pc.Idle? && !InPush(pc) && (pc.Return? ==> pc.result.Popped?)
  }

  lemma LookingForetold(s: State, t: Tid, c: Choice)
    requires Inv(s) && Enabled(s, t, c) && InPop(s.th[t].pc)
    ensures OutcomeOf(Step(s, t, c), t) == OutcomeOf(s, t)
  {
    assert ThreadOk(s, t);
    match s.th[t].pc
    case Enter => EnterForetold(s, t);
    case PopLoad => LookForetold(s, t);
    case PopNext(top) => ReadForetold(s, t, top);
    case PopCas(top, next) =>
      if s.head == top {
        UnlinkForetold(s, t, top, next);
      } else {
        LookForetold(s, t);
      }
    case Swap(_, _) => TestForetold(s, t, c);
  }

  lemma ReclaimForetold(s: State, t: Tid, c: Choice)
    requires Inv(s) && Enabled(s, t, c) && Popping(s.th[t].pc) && !InPop(s.th[t].pc) && !s.th[t].pc.Return?
    ensures OutcomeOf(Step(s, t, c), t) == OutcomeOf(s, t)
  {
    assert ThreadOk(s, t);
    match s.th[t].pc
    case Test(_) => TestForetold(s, t, c);
    case Exchange(_) => TestForetold(s, t, c);
    case Leave(x, list) => LeaveForetold(s, t, x, list);
    case FreeNode(x, list, next) =>
      LastHasNoNext(s.nodes, s.own, t, s.th[t]);
      FreeForetold(s, t, x, list, next, s.th[t].claimed[..|s.th[t].claimed| - 1]);
    case Walk(x, first, last) => WalkForetold(s, t, x, first, last);
    case ChainStore(x, first, last, val) => StoreForetold(s, t, x, first, last, val);
    case ChainCas(x, first, last) => PutBackForetold(s, t, x, first, last);
    case Depart => EndForetold(s, t, c);
    case FreeHand(_) => EndForetold(s, t, c);
    case _ => ChainForetold(s, t, c);
  }

  lemma StaysPopping(s: State, t: Tid, c: Choice)
    requires Enabled(s, t, c) && Popping(s.th[t].pc) && !s.th[t].pc.Return?
    ensures t < |Step(s, t, c).th| && Popping(Step(s, t, c).th[t].pc)
  {
    SameThreads(s, t, c);
    match s.th[t].pc
    case PopCas(_, _) =>
    case ChainCas(_, _, _) =>
    case _ =>
  }

  /** Thread t is in a pop, and nobody else moves until it has its result. */
  ghost predicate PopRun(r: seq<State>, t: Tid) {
    IsRun(r, (s: State) => Inv(s) && t < |s.th| && Popping(s.th[t].pc),
          (s: State, s': State) => t < |s.th| && !s.th[t].pc.Return? && Alone(t, s, s'))
  }

  lemma AloneForetold(s: State, s': State, t: Tid)
    requires Inv(s) && t < |s.th| && Popping(s.th[t].pc) && !s.th[t].pc.Return? && Alone(t, s, s')
    ensures Inv(s') && t < |s'.th| && Popping(s'.th[t].pc) && OutcomeOf(s', t) == OutcomeOf(s, t)
  {
    var c :| Enabled(s, t, c) && c != Weak(true) && !s.th[t].pc.Idle? && s' == Step(s, t, c);
    KeepStep(s, t, c);
    StaysPopping(s, t, c);
    if InPop(s.th[t].pc) {
      LookingForetold(s, t, c);
    } else {
      ReclaimForetold(s, t, c);
    }
  }

  lemma NothingLeft(s: State, t: Tid)
    requires t < |s.th| && s.th[t].pc.Return? && s.th[t].pc.result.Popped?
    ensures OutcomeOf(s, t) == Outcome(s.nodes.Keys, s.waiting, s.vals, s.th[t].pc.result.v)
  {
  }

  /** A pop left to itself, from wherever it is, leaves and returns exactly what was foretold. */
  lemma PopForetold(r: seq<State>, t: Tid)
    requires PopRun(r, t) && t < |r[|r| - 1].th| && r[|r| - 1].th[t].pc.Return?
    ensures var first, last := r[0], r[|r| - 1];
      && last.nodes.Keys == first.nodes.Keys - ToFree(first, t)
      && last.waiting == ToPend(first, t) && last.vals == OutcomeOf(first, t).vals
      && last.th[t].pc.result == Popped(OutcomeOf(first, t).result)
  {
    var inv, step := (s: State) => Inv(s) && t < |s.th| && Popping(s.th[t].pc),
                     (s: State, s': State) => t < |s.th| && !s.th[t].pc.Return? && Alone(t, s, s');
    forall s, s' | inv(s) && step(s, s')
      ensures inv(s') && OutcomeOf(s', t) == OutcomeOf(s, t)
    {
      AloneForetold(s, s', t);
    }
    Foretold(r, inv, step, s => OutcomeOf(s, t));
    NothingLeft(r[|r| - 1], t);
  }

  /** A pop that runs alone while nobody else is inside returns the top value and frees its node and
      every node that was pending: nothing is left behind. Beside another thread inside, it frees
      nothing and leaves its node pending. */
  lemma PopAlone(r: seq<State>, t: Tid)
    requires PopRun(r, t) && r[0].th[t].pc.Enter? && r[0].head != NULL
    requires t < |r[|r| - 1].th| && r[|r| - 1].th[t].pc.Return?
    ensures var first, last := r[0], r[|r| - 1];
      && first.vals != [] && last.vals == first.vals[..|first.vals| - 1]
      && last.th[t].pc.result == Popped(Some(first.vals[|first.vals| - 1]))
      && (if first.count == 0
          then last.nodes.Keys == first.nodes.Keys - {first.head} - NodesOf(first.waiting) && last.waiting == []
          else last.nodes.Keys == first.nodes.Keys && last.waiting == first.waiting + [first.head])
  {
    PopForetold(r, t);
  }

  // What a pop does among others.

  /** The test decides, by the count alone, whether the node will be freed or kept for later. */
  lemma TestDecides(s: State, t: Tid, x: Addr)
    requires t < |s.th| && s.th[t].pc == Test(x)
    ensures if s.count == 1 then TestAlone(s, t, x).th[t].pc == Exchange(x)
      else TestAlone(s, t, x).th[t].claimed == [x] && KeepsFor(TestAlone(s, t, x).th[t], x)
  {
  }

  /** The thread is putting its node, and nothing else, on the pending list. */
  predicate KeepsFor(l: Local, x: Addr) {
    Chaining(l.pc) && l.pc.hand == NULL && l.claimed == [x]
  }

  predicate WillFree(pc: PC, x: Addr) {
    x != NULL && HandSafe(pc) && HandNode(pc) == x
  }

  /** The step from s to s' frees node x, or puts it in front of the pending list. */
  predicate Frees(s: State, s': State, x: Addr) {
    x in s.nodes && x !in s'.nodes
  }

  predicate Pends(s: State, s': State, x: Addr) {
    s'.waiting == s.waiting + [x]
  }

  lemma OwnFrees(s: State, t: Tid, c: Choice, x: Addr)
    requires Enabled(s, t, c) && WillFree(s.th[t].pc, x)
    ensures t < |Step(s, t, c).th| && (WillFree(Step(s, t, c).th[t].pc, x) || Frees(s, Step(s, t, c), x))
  {
    match s.th[t].pc
    case ChainCas(_, _, _) =>
    case FreeNode(_, _, _) =>
    case _ =>
  }

  lemma OwnPends(s: State, t: Tid, c: Choice, x: Addr)
    requires Enabled(s, t, c) && KeepsFor(s.th[t], x)
    ensures t < |Step(s, t, c).th| && (KeepsFor(Step(s, t, c).th[t], x) || Pends(s, Step(s, t, c), x))
  {
  }

  lemma NextReclaims(s: State, s': State, t: Tid, x: Addr)
    requires Next(s, s') && t < |s.th|
    ensures t < |s'.th|
    ensures WillFree(s.th[t].pc, x) ==> WillFree(s'.th[t].pc, x) || Frees(s, s', x)
    ensures KeepsFor(s.th[t], x) ==> KeepsFor(s'.th[t], x) || Pends(s, s', x)
  {
    var u, c :| Enabled(s, u, c) && s' == Step(s, u, c);
    if u != t {
      OnlyOwnLocals(s, u, c, t);
    } else {
      SameThreads(s, t, c);
      if WillFree(s.th[t].pc, x) {
        OwnFrees(s, t, c, x);
      }
      if KeepsFor(s.th[t], x) {
        OwnPends(s, t, c, x);
      }
    }
  }

  /** In every run, a pop that found itself alone frees its node before it goes on to anything else,
      whoever comes in the meantime. */
  lemma {:induction false} FoundAloneFrees(r: seq<State>, m: nat, n: nat, t: Tid, x: Addr)
    requires Run(r) && m <= n < |r| && t < |r[m].th| && WillFree(r[m].th[t].pc, x)
    ensures t < |r[n].th|
    ensures WillFree(r[n].th[t].pc, x) || exists k :: m <= k < n && Frees(r[k], r[k + 1], x)
  {
    if m < n {
      FoundAloneFrees(r, m, n - 1, t, x);
      StepAt(r, Init, Next, n - 1);
      NextReclaims(r[n - 1], r[n], t, x);
      if WillFree(r[n - 1].th[t].pc, x) && !WillFree(r[n].th[t].pc, x) {
        assert Frees(r[n - 1], r[n - 1 + 1], x);
      }
    }
  }

  /** In every run, a pop that did not find itself alone puts its node on the pending list before it
      goes on to anything else. */
  lemma {:induction false} FoundOthersPends(r: seq<State>, m: nat, n: nat, t: Tid, x: Addr)
    requires Run(r) && m <= n < |r| && t < |r[m].th| && KeepsFor(r[m].th[t], x)
    ensures t < |r[n].th|
    ensures KeepsFor(r[n].th[t], x) || exists k :: m <= k < n && Pends(r[k], r[k + 1], x)
  {
    if m < n {
      FoundOthersPends(r, m, n - 1, t, x);
      StepAt(r, Init, Next, n - 1);
      NextReclaims(r[n - 1], r[n], t, x);
      if KeepsFor(r[n - 1].th[t], x) && !KeepsFor(r[n].th[t], x) {
        assert Pends(r[n - 1], r[n - 1 + 1], x);
      }
    }
  }

  // No pop is refused.

  lemma OwnNotRefused(s: State, t: Tid, c: Choice)
    requires Enabled(s, t, c)
    ensures t < |Step(s, t, c).th| && Step(s, t, c).th[t].pc != Return(Refused)
  {
    SameThreads(s, t, c);
    match s.th[t].pc
    case PushCas(_, _) =>
    case PopCas(_, _) =>
    case ChainCas(_, _, _) =>
    case FreeNode(_, _, _) =>
    case _ =>
  }

  lemma NextNotRefused(s: State, s': State, t: Tid)
    requires Next(s, s') && t < |s.th| && s.th[t].pc != Return(Refused)
    ensures t < |s'.th| && s'.th[t].pc != Return(Refused)
  {
    var u, c :| Enabled(s, u, c) && s' == Step(s, u, c);
    if u == t {
      OwnNotRefused(s, t, c);
    } else {
      OnlyOwnLocals(s, u, c, t);
    }
  }

  /** In every run, a pop of this stack is never refused: it has no slots to run out of. */
  lemma {:induction false} RunNeverRefuses(r: seq<State>, n: nat, t: Tid)
    requires Run(r) && n < |r| && t < |r[0].th|
    ensures t < |r[n].th| && r[n].th[t].pc != Return(Refused)
  {
    if n > 0 {
      RunNeverRefuses(r, n - 1, t);
      StepAt(r, Init, Next, n - 1);
      NextNotRefused(r[n - 1], r[n], t);
    }
  }
}
