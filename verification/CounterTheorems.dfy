/** What the invariant of the counting stack gives: safe reclamation, linearizability although
    `next` fields of retired nodes are rewritten, conservation, termination of the list walks. */
module CounterTheorems {
  import opened Memory
  import opened Runs
  import opened StackSpec
  import opened LinkedStack
  import opened CounterStack
  import opened CounterSafety

  predicate InPush(pc: PC) {
    pc.PushNew? || pc.PushLoad? || pc.PushCas?
  }

  predicate InPop(pc: PC) {
    pc.Enter? || pc.PopLoad? || pc.PopNext? || pc.PopCas? || pc.Swap?
  }

  predicate InList(pc: PC) {
    pc.FreeNext? || pc.FreeNode? || pc.Walk? || pc.ChainLoad? || pc.ChainStore? || pc.ChainCas?
  }

  // Every step keeps the invariant.

  lemma KeepPush(s: State, t: Tid, c: Choice)
    requires Inv(s) && Enabled(s, t, c) && InPush(s.th[t].pc)
    ensures Inv(Step(s, t, c))
  {
    match s.th[t].pc
    case PushNew(v) => KeepAllocate(s, t, v, c.a);
    case PushLoad(a, v) => KeepRelink(s, t, a, v, s.th[t].pc);
    case PushCas(a, v) =>
      if s.head == s.nodes[a].next && !c.fails {
        KeepPublish(s, t, a, v);
      } else {
        KeepRelink(s, t, a, v, s.th[t].pc);
      }
  }

  lemma KeepPop(s: State, t: Tid, c: Choice)
    requires Inv(s) && Enabled(s, t, c) && InPop(s.th[t].pc)
    ensures Inv(Step(s, t, c))
  {
    match s.th[t].pc
    case Enter => KeepCountIn(s, t);
    case PopLoad => KeepLook(s, t, PopLoad);
    case PopNext(top) => KeepReadNext(s, t, top);
    case PopCas(top, next) =>
      if s.head == top {
        KeepUnlink(s, t, top, next);
      } else {
        KeepLook(s, t, s.th[t].pc);
      }
    case Swap(x, lin) => KeepSwapData(s, t, x, lin);
  }

  lemma KeepList(s: State, t: Tid, c: Choice)
    requires Inv(s) && Enabled(s, t, c) && InList(s.th[t].pc)
    ensures Inv(Step(s, t, c))
  {
    match s.th[t].pc
    case FreeNext(x, list) => KeepReadFree(s, t, x, list);
    case FreeNode(x, list, next) => KeepFreeOne(s, t, x, list, next);
    case Walk(x, first, last) => KeepWalkOn(s, t, x, first, last);
    case ChainLoad(x, first, last) => KeepChainLoad(s, t, x, first, last, s.th[t].pc);
    case ChainStore(x, first, last, val) => KeepStoreLast(s, t, x, first, last, val);
    case ChainCas(x, first, last) =>
      if s.pend == s.nodes[last].next {
        KeepPutBack(s, t, x, first, last);
      } else {
        KeepChainLoad(s, t, x, first, last, s.th[t].pc);
      }
  }

  lemma KeepRest(s: State, t: Tid, c: Choice)
    requires Inv(s) && Enabled(s, t, c)
    requires !InPush(s.th[t].pc) && !InPop(s.th[t].pc) && !InList(s.th[t].pc)
    ensures Inv(Step(s, t, c))
  {
    match s.th[t].pc
    case Idle => KeepCall(s, t, if c.call.Push? then PushNew(c.call.v) else Enter);
    case Test(x) =>
      if s.count == 1 {
        KeepTestAlone(s, t, x);
      } else {
        KeepKept(s, t, x);
      }
    case Exchange(x) => KeepClaimAll(s, t, x);
    case Leave(x, list) => KeepCountOut(s, t, x, list);
    case Depart => KeepLeaveLast(s, t);
    case FreeHand(x) => KeepDeleteHand(s, t, x);
    case Return(r) => KeepFinish(s, t, r);
  }

  lemma KeepStep(s: State, t: Tid, c: Choice)
    requires Inv(s) && Enabled(s, t, c)
    ensures Inv(Step(s, t, c))
  {
    if InPush(s.th[t].pc) {
      KeepPush(s, t, c);
    } else if InPop(s.th[t].pc) {
      KeepPop(s, t, c);
    } else if InList(s.th[t].pc) {
      KeepList(s, t, c);
    } else {
      KeepRest(s, t, c);
    }
  }

  // Reclamation is safe.

  /** Nothing a thread is about to read, write or delete has been freed. */
  ghost predicate Safe(s: State) {
    forall t :: 0 <= t < |s.th| ==> Touched(s, t) <= s.nodes.Keys
  }

  lemma InvIsSafe(s: State)
    requires Inv(s)
    ensures Safe(s)
  {
    forall t | 0 <= t < |s.th|
      ensures Touched(s, t) <= s.nodes.Keys
    {
      assert ThreadOk(s, t);
      if s.th[t].claimed != [] {
        FirstClaimed(s.nodes, s.own, t, s.th[t]);
      }
    }
  }

  /** The choice is one that the place in the code leaves open. */
  ghost predicate Fits(s: State, t: Tid, c: Choice) {
    t < |s.th| &&
    match s.th[t].pc
    case Idle => c.Call?
    case PushNew(_) => c.Address? && c.a != NULL && c.a !in s.nodes
    case PushCas(_, _) => c.Weak?
    case _ => c.Plain?
  }

  /** No access goes wrong: whatever its place in the code, a thread can take its next step. In
      particular the count of a thread that leaves is not zero. */
  lemma NeverStuck(s: State, t: Tid, c: Choice)
    requires Inv(s) && Fits(s, t, c)
    ensures Enabled(s, t, c)
  {
    InvIsSafe(s);
    if Counted(s.th[t].pc) {
      assert t in s.inside;
    }
  }

  lemma FreedBy(s: State, t: Tid, c: Choice, x: Addr)
    requires Enabled(s, t, c) && x in s.nodes && x !in Step(s, t, c).nodes
    ensures (s.th[t].pc.FreeNode? && s.th[t].pc.list == x) || s.th[t].pc == FreeHand(x)
  {
  }

  /** A node is freed only when no thread inside `pop` may still read it. */
  lemma HeldNeverFreed(s: State, t: Tid, c: Choice, x: Addr)
    requires Inv(s) && Enabled(s, t, c) && x in s.nodes && x !in Step(s, t, c).nodes
    ensures forall u :: 0 <= u < |s.th| ==> ReaderNode(s.th[u].pc) != x
  {
    FreedBy(s, t, c, x);
    assert ThreadOk(s, t);
    if s.th[t].pc.FreeNode? {
      FirstClaimed(s.nodes, s.own, t, s.th[t]);
      ListNotRead(s, t, x);
    }
  }

  // Linearizability.

  /** What a thread's place in the code says about its operation. */
  function OpOf(l: Local): Op {
    match l.pc
    case Idle => Ready
    case PushNew(v) => Called(Push(v))
    case PushLoad(_, v) => Called(Push(v))
    case PushCas(_, v) => Called(Push(v))
    case Swap(_, lin) => Finished(Popped(lin))
    case Return(r) => Finished(r)
    case _ => if InPop(l.pc) then Called(Pop) else Finished(Popped(l.res))
  }

  function Abstract(s: State): Object {
    Seen(s.vals, s.th, OpOf)
  }

  lemma Stutters(s: State, s': State, t: Tid, l: Local)
    requires t < |s.th| && s'.th == s.th[t := l] && s'.vals == s.vals && OpOf(l) == OpOf(s.th[t])
    ensures Abstract(s') == Abstract(s)
  {
    SeenAt(s.vals, s.th, OpOf, t, l);
  }

  /** The abstract stack is what the memory holds. */
  lemma AbstractIsLinked(s: State)
    requires Inv(s)
    ensures IsLinked(s.nodes, s.head, Abstract(s).stack)
  {
    StackIsLinked(s.head, s.stack, s.vals, s.nodes, s.own);
  }

  /** The push that takes effect here puts its value on top of the abstract stack. */
  lemma PublishRefines(s: State, t: Tid, a: Addr, v: Value)
    requires t < |s.th| && s.th[t].pc == PushCas(a, v)
    ensures TakesEffect(Abstract(s), Abstract(Publish(s, t, a, v)), t)
  {
    SeenAt(s.vals, s.th, OpOf, t, Publish(s, t, a, v).th[t]);
  }

  lemma PushRefines(s: State, t: Tid, c: Choice)
    requires Enabled(s, t, c) && InPush(s.th[t].pc)
    ensures StepBy(Abstract(s), Abstract(Step(s, t, c)), t, CallOf(c))
  {
    var pc := s.th[t].pc;
    if pc.PushCas? && s.head == s.nodes[pc.node].next && !c.fails {
      PublishRefines(s, t, pc.node, pc.v);
    } else {
      Stutters(s, Step(s, t, c), t, Step(s, t, c).th[t]);
    }
  }

  /** The pop that takes effect here takes the top of the abstract stack. */
  lemma UnlinkRefines(s: State, t: Tid, top: Addr, next: Addr)
    requires t < |s.th| && s.th[t].pc == PopCas(top, next) && s.head == top
    requires StackOk(s.head, s.stack, s.vals, s.nodes, s.own) && ThreadOk(s, t)
    ensures TakesEffect(Abstract(s), Abstract(Unlink(s, t, top, next)), t)
  {
    SeenAt(s.vals, s.th, OpOf, t, Unlink(s, t, top, next).th[t]);
  }

  /** A popper that sees a null head finds the abstract stack empty. */
  lemma LookRefines(s: State, t: Tid)
    requires t < |s.th| && (s.th[t].pc.PopLoad? || s.th[t].pc.PopCas?) && s.th[t].res == None
    requires StackOk(s.head, s.stack, s.vals, s.nodes, s.own)
    ensures StepBy(Abstract(s), Abstract(Look(s, t)), t, None)
  {
    SeenAt(s.vals, s.th, OpOf, t, Look(s, t).th[t]);
  }

  lemma PopRefines(s: State, t: Tid, c: Choice)
    requires StackOk(s.head, s.stack, s.vals, s.nodes, s.own) && Enabled(s, t, c) && ThreadOk(s, t)
    requires InPop(s.th[t].pc)
    ensures StepBy(Abstract(s), Abstract(Step(s, t, c)), t, CallOf(c))
  {
    var pc := s.th[t].pc;
    if pc.PopCas? && s.head == pc.top {
      UnlinkRefines(s, t, pc.top, pc.next);
    } else if pc.PopCas? || pc.PopLoad? {
      LookRefines(s, t);
    } else {
      Stutters(s, Step(s, t, c), t, Step(s, t, c).th[t]);
    }
  }

  lemma ListRefines(s: State, t: Tid, c: Choice)
    requires Enabled(s, t, c) && InList(s.th[t].pc)
    ensures Abstract(Step(s, t, c)) == Abstract(s)
  {
    Stutters(s, Step(s, t, c), t, Step(s, t, c).th[t]);
  }

  /** The operation that begins is the one called, with its argument. */
  lemma CallRefines(s: State, t: Tid, c: Choice)
    requires Enabled(s, t, c) && s.th[t].pc.Idle? && s.th[t].res == None
    ensures c.Call? && Begins(Abstract(s), Abstract(Step(s, t, c)), t, c.call)
  {
    SeenAt(s.vals, s.th, OpOf, t, Step(s, t, c).th[t]);
  }

  lemma RestRefines(s: State, t: Tid, c: Choice)
    requires Enabled(s, t, c) && ThreadOk(s, t)
    requires !InPush(s.th[t].pc) && !InPop(s.th[t].pc) && !InList(s.th[t].pc)
    ensures StepBy(Abstract(s), Abstract(Step(s, t, c)), t, CallOf(c))
  {
    var s' := Step(s, t, c);
    if s.th[t].pc.Idle? {
      CallRefines(s, t, c);
    } else if s.th[t].pc.Return? {
      SeenAt(s.vals, s.th, OpOf, t, s'.th[t]);
      assert Returns(Abstract(s), Abstract(s'), t);
    } else {
      Stutters(s, s', t, s'.th[t]);
    }
  }

  /** Every step of the code is one step of the atomic stack, or none; the first is the call made. */
  lemma StepRefines(s: State, t: Tid, c: Choice)
    requires Inv(s) && Enabled(s, t, c)
    ensures StepBy(Abstract(s), Abstract(Step(s, t, c)), t, CallOf(c))
  {
    assert ThreadOk(s, t);
    if InPush(s.th[t].pc) {
      PushRefines(s, t, c);
    } else if InPop(s.th[t].pc) {
      PopRefines(s, t, c);
    } else if InList(s.th[t].pc) {
      ListRefines(s, t, c);
    } else {
      RestRefines(s, t, c);
    }
  }

  /** No ABA: a pop's compare-and-exchange that finds the head it read replaces it by its true
      successor. */
  lemma NoAba(s: State, t: Tid)
    requires Inv(s) && t < |s.th| && s.th[t].pc.PopCas? && s.head == s.th[t].pc.top
    ensures s.stack != [] && s.stack[|s.stack| - 1] == s.head && s.head in s.nodes
    ensures s.th[t].pc.next == s.nodes[s.head].next == Top(s.stack[..|s.stack| - 1])
  {
    assert ThreadOk(s, t);
    PopStack(s.head, s.stack, s.vals, s.nodes, s.own, Hand(t));
  }

  /** A popper that read a rewritten successor is looking at a node that is no longer linked, so
      its compare-and-exchange fails. */
  lemma RewrittenNextFails(s: State, t: Tid)
    requires Inv(s) && t < |s.th| && s.th[t].pc.PopCas?
    requires s.th[t].pc.top in s.nodes && s.nodes[s.th[t].pc.top].next != s.th[t].pc.next
    ensures s.th[t].pc.top !in s.stack && s.head != s.th[t].pc.top
  {
    assert ThreadOk(s, t);
    if s.head == s.th[t].pc.top {
      PopStack(s.head, s.stack, s.vals, s.nodes, s.own, Hand(t));
    }
  }

  // Runs.

  ghost predicate Next(s: State, s': State) {
    exists t, c :: Enabled(s, t, c) && s' == Step(s, t, c)
  }

  ghost predicate Run(r: seq<State>) {
    IsRun(r, Init, Next)
  }

  lemma InitInv(s: State)
    requires Init(s)
    ensures Inv(s) && Start(Abstract(s))
  {
    forall t | 0 <= t < |s.th|
      ensures ThreadOk(s, t) && ReaderNode(s.th[t].pc) == NULL && !Counted(s.th[t].pc) && Abstract(s).ops[t] == Ready
    {
      assert s.th[t] == Local(None, [], Idle);
      SeenAt(s.vals, s.th, OpOf, t, s.th[t]);
    }
  }

  lemma NextKeeps(s: State, s': State)
    requires Inv(s) && Next(s, s')
    ensures Inv(s')
  {
    var t, c :| Enabled(s, t, c) && s' == Step(s, t, c);
    KeepStep(s, t, c);
  }

  lemma NextRefines(s: State, s': State)
    requires Inv(s) && Next(s, s')
    ensures Steps(Abstract(s), Abstract(s'))
  {
    var t, c :| Enabled(s, t, c) && s' == Step(s, t, c);
    StepRefines(s, t, c);
    assert StepBy(Abstract(s), Abstract(s'), t, CallOf(c));
  }

  lemma RunInv(r: seq<State>, n: nat)
    requires Run(r) && n < |r|
    ensures Inv(r[n])
  {
    forall s | Init(s)
      ensures Inv(s)
    {
      InitInv(s);
    }
    forall s, s' | Inv(s) && Next(s, s')
      ensures Inv(s')
    {
      NextKeeps(s, s');
    }
    Always(r, Init, Next, Inv, n);
  }

  /** The last state of some run. */
  ghost predicate Reachable(s: State) {
    Reached(s, Init, Next)
  }

  lemma ReachableInv(s: State)
    requires Reachable(s)
    ensures Inv(s)
  {
    var r :| IsRun(r, Init, Next) && r[|r| - 1] == s;
    RunInv(r, |r| - 1);
  }

  lemma ReachStep(s: State, t: Tid, c: Choice)
    requires Reachable(s) && Enabled(s, t, c)
    ensures Reachable(Step(s, t, c))
  {
    Reaches(s, Step(s, t, c), Init, Next);
  }

  /** The step from s to s' frees no node that a thread of s may still read. */
  ghost predicate SparesReaders(s: State, s': State) {
    forall u :: 0 <= u < |s.th| && ReaderNode(s.th[u].pc) in s.nodes ==> ReaderNode(s.th[u].pc) in s'.nodes
  }

  lemma NextSparesReaders(s: State, s': State)
    requires Inv(s) && Next(s, s')
    ensures SparesReaders(s, s')
  {
    var t, c :| Enabled(s, t, c) && s' == Step(s, t, c);
    forall u | 0 <= u < |s.th| && ReaderNode(s.th[u].pc) in s.nodes
      ensures ReaderNode(s.th[u].pc) in s'.nodes
    {
      if ReaderNode(s.th[u].pc) !in s'.nodes {
        HeldNeverFreed(s, t, c, ReaderNode(s.th[u].pc));
      }
    }
  }

  /** In every run, no freed memory is touched, and no node is freed that a popper may still read. */
  lemma RunSafe(r: seq<State>, n: nat)
    requires Run(r) && n < |r|
    ensures Safe(r[n]) && (n + 1 < |r| ==> SparesReaders(r[n], r[n + 1]))
  {
    RunInv(r, n);
    InvIsSafe(r[n]);
    if n + 1 < |r| {
      StepAt(r, Init, Next, n);
      NextSparesReaders(r[n], r[n + 1]);
    }
  }

  /** Every run is a history of the atomic stack, whose values are linked from the head throughout. */
  lemma RunLinearizable(r: seq<State>)
    requires Run(r)
    ensures History(Trace(r, Abstract))
    ensures forall n :: 0 <= n < |r| ==> IsLinked(r[n].nodes, r[n].head, Abstract(r[n]).stack)
  {
    forall n | 0 <= n < |r|
      ensures IsLinked(r[n].nodes, r[n].head, Abstract(r[n]).stack)
    {
      RunInv(r, n);
      AbstractIsLinked(r[n]);
    }
    forall s | Init(s)
      ensures Inv(s) && Start(Abstract(s))
    {
      InitInv(s);
    }
    forall s, s' | Inv(s) && Next(s, s')
      ensures Inv(s') && Steps(Abstract(s), Abstract(s'))
    {
      NextKeeps(s, s');
      NextRefines(s, s');
    }
    Simulates(r, Init, Next, Inv, Abstract, Start, Steps);
  }

  // Conservation.

  /** Where an allocated node can be. */
  datatype Place =
    | InPushOf(t: Tid) | OnStack(i: nat) | InHandOf(t: Tid) | OnPending(i: nat) | OnClaimOf(t: Tid, i: nat)

  ghost predicate IsAt(s: State, x: Addr, p: Place) {
    match p
    case InPushOf(t) => t < |s.th| && PrivateNode(s.th[t].pc) == x
    case OnStack(i) => i < |s.stack| && s.stack[i] == x
    case InHandOf(t) => t < |s.th| && HandNode(s.th[t].pc) == x
    case OnPending(i) => i < |s.waiting| && s.waiting[i] == x
    case OnClaimOf(t, i) => t < |s.th| && i < |s.th[t].claimed| && s.th[t].claimed[i] == x
  }

  /** The place that the bookkeeping names. */
  function PlaceOf(s: State, x: Addr): Place
    requires x in s.own
  {
    match s.own[x]
    case Private(t) => InPushOf(t)
    case Linked(i) => OnStack(i)
    case Hand(t) => InHandOf(t)
    case Retired(Waiting(i)) => OnPending(i)
    case Retired(Claimed(t, i)) => OnClaimOf(t, i)
  }

  lemma NowhereElse(s: State, x: Addr, p: Place)
    requires Inv(s) && x != NULL && IsAt(s, x, p)
    ensures x in s.nodes && p == PlaceOf(s, x)
  {
    match p
    case InPushOf(t) => assert ThreadOk(s, t);
    case InHandOf(t) => assert ThreadOk(s, t);
    case OnClaimOf(t, i) => assert ThreadOk(s, t);
    case _ =>
  }

  /** Every allocated node is in exactly one place; a freed node is nowhere. */
  lemma Conservation(s: State, x: Addr)
    requires Inv(s) && x != NULL
    ensures x in s.nodes <==> exists p :: IsAt(s, x, p)
    ensures forall p, q :: IsAt(s, x, p) && IsAt(s, x, q) ==> p == q
  {
    if x in s.nodes {
      assert s.own[x].Private? || s.own[x].Linked? || s.own[x].Hand? || IsWaiting(s.own[x]) || IsClaimed(s.own[x]);
      assert IsAt(s, x, PlaceOf(s, x));
    }
    forall p | IsAt(s, x, p)
      ensures x in s.nodes && p == PlaceOf(s, x)
    {
      NowhereElse(s, x, p);
    }
  }

  // Termination.

  /** How far a thread that walks or deletes its claimed list is from the end of it. */
  function Rank(s: State, t: Tid): nat
    requires t < |s.th|
  {
    match s.th[t].pc
    case FreeNext(_, _) => 2 * |s.th[t].claimed| + 1
    case FreeNode(_, _, _) => 2 * |s.th[t].claimed|
    case Walk(_, _, last) => if last in s.own && IsClaimed(s.own[last]) then s.own[last].place.i + 1 else 0
    case _ => 0
  }

  lemma WalkTerminates(s: State, t: Tid, x: Addr, first: Addr, last: Addr)
    requires Inv(s) && t < |s.th| && s.th[t].pc == Walk(x, first, last)
    ensures last in s.nodes && Rank(WalkOn(s, t, x, first, last), t) < Rank(s, t)
  {
    assert ThreadOk(s, t);
    WalkClaimed(s.nodes, s.own, t, s.th[t], s.own[last].place.i);
  }

  lemma DeletionTerminates(s: State, t: Tid, c: Choice)
    requires Enabled(s, t, c) && ThreadOk(s, t) && (s.th[t].pc.FreeNext? || s.th[t].pc.FreeNode?)
    ensures |Step(s, t, c).th| == |s.th| && Rank(Step(s, t, c), t) < Rank(s, t)
  {
    FirstClaimed(s.nodes, s.own, t, s.th[t]);
  }

  /** The walk to the tail and the deletion of the list get nearer to their end with every step. */
  lemma WalksTerminate(s: State, t: Tid, c: Choice)
    requires Inv(s) && Enabled(s, t, c)
    requires s.th[t].pc.FreeNext? || s.th[t].pc.FreeNode? || s.th[t].pc.Walk?
    ensures |Step(s, t, c).th| == |s.th| && Rank(Step(s, t, c), t) < Rank(s, t)
  {
    assert ThreadOk(s, t);
    var pc := s.th[t].pc;
    if pc.Walk? {
      WalkTerminates(s, t, pc.hand, pc.first, pc.last);
    } else {
      DeletionTerminates(s, t, c);
    }
  }

  lemma OnlyOwnLocals(s: State, t: Tid, c: Choice, u: Tid)
    requires Enabled(s, t, c) && u < |s.th| && u != t
    ensures |Step(s, t, c).th| == |s.th| && Step(s, t, c).th[u] == s.th[u]
  {
  }

  /** Nobody else's steps take a walking or deleting thread back. */
  lemma OthersKeepRank(s: State, t: Tid, c: Choice, u: Tid)
    requires Inv(s) && Enabled(s, t, c) && u < |s.th| && u != t
    ensures |Step(s, t, c).th| == |s.th| && Rank(Step(s, t, c), u) == Rank(s, u)
  {
    OnlyOwnLocals(s, t, c, u);
    KeepStep(s, t, c);
    SameRank(s, Step(s, t, c), u);
  }

  lemma SameRank(s: State, s': State, u: Tid)
    requires Inv(s) && Inv(s') && u < |s.th| == |s'.th| && s'.th[u] == s.th[u]
    ensures Rank(s', u) == Rank(s, u)
  {
    assert ThreadOk(s, u) && ThreadOk(s', u);
    var l := s.th[u];
    if l.pc.Walk? {
      assert IsClaimed(s.own[l.pc.last]) && l.claimed[s.own[l.pc.last].place.i] == l.pc.last;
      assert s'.own[l.claimed[s.own[l.pc.last].place.i]] == Retired(Claimed(u, s.own[l.pc.last].place.i));
    }
  }
}
