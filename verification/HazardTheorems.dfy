/** What the invariant of the hazard-pointer stack gives: safe reclamation, linearizability,
    conservation of nodes, termination of the reclaim loop. */
module HazardTheorems {
  import opened Memory
  import opened Runs
  import opened StackSpec
  import opened LinkedStack
  import opened HazardStack
  import opened HazardSafety

  predicate InPush(pc: PC) {
    pc.PushNew? || pc.PushLoad? || pc.PushCas?
  }

  predicate InPop(pc: PC) {
    || pc.SlotCas? || pc.PopLoad? || pc.PopHazard? || pc.PopCheck?
    || pc.PopNext? || pc.PopCas? || pc.PopClear? || pc.PopSwap?
  }

  predicate InReclaim(pc: PC) {
    || pc.HandScan? || pc.BoxNew? || pc.BoxLoad? || pc.BoxCas?
    || pc.Claim? || pc.Walk? || pc.BoxScan?
  }

  // Every step keeps the invariant.

  lemma KeepPush(s: State, t: Tid, c: Choice)
    requires Inv(s) && Enabled(s, t, c) && InPush(s.th[t].pc)
    ensures Inv(Step(s, t, c))
  {
    match s.th[t].pc
    case PushNew(v) => KeepAllocate(s, t, v, c.a);
    case PushLoad(a, v) => KeepRelink(s, t, a, v);
    case PushCas(a, v) =>
      if s.head == s.nodes[a].next {
        KeepPublish(s, t, a, v);
      } else {
        KeepRelink(s, t, a, v);
      }
  }

  lemma KeepPop(s: State, t: Tid, c: Choice)
    requires Inv(s) && Enabled(s, t, c) && InPop(s.th[t].pc)
    ensures Inv(Step(s, t, c))
  {
    match s.th[t].pc
    case SlotCas(k) =>
      if k < |s.ids| && s.ids[k] == None {
        KeepTakeSlot(s, t, k);
      } else {
        KeepMissSlot(s, t, k);
      }
    case PopLoad => KeepLoadHead(s, t);
    case PopHazard(top) => KeepSetHazard(s, t, top);
    case PopCheck(top) => KeepCheckHead(s, t, top);
    case PopNext(top) => KeepReadNext(s, t, top);
    case PopCas(top, next) =>
      if s.head == top {
        KeepUnlink(s, t, top, next);
      } else {
        KeepCasPopLoses(s, t, top, next);
      }
    case PopClear(top, lin) => KeepClearHazard(s, t, top, lin);
    case PopSwap(top, lin) => KeepSwapData(s, t, top, lin);
  }

  lemma KeepReclaim(s: State, t: Tid, c: Choice)
    requires Inv(s) && Enabled(s, t, c) && InReclaim(s.th[t].pc)
    ensures Inv(Step(s, t, c))
  {
    match s.th[t].pc
    case HandScan(x, k) =>
      if k == |s.pointers| {
        KeepFreeHand(s, t, x);
      } else {
        KeepScanHandMoves(s, t, x, k);
      }
    case BoxNew(x) => KeepRetire(s, t, x, c.a);
    case BoxLoad(b, rest) => KeepRelinkBox(s, t, b, rest);
    case BoxCas(b, rest) =>
      if s.reclaim == s.boxes[b].next && !c.fails {
        KeepPublishBox(s, t, b, rest);
      } else {
        KeepRelinkBox(s, t, b, rest);
      }
    case Claim => KeepClaimAll(s, t);
    case Walk(b) =>
      if b == NULL {
        KeepWalkEnds(s, t);
      } else {
        KeepTakeBox(s, t, b);
      }
    case BoxScan(b, next, x, k) =>
      if k == |s.pointers| {
        KeepFreeBox(s, t, b, next, x);
      } else {
        KeepScanBoxMoves(s, t, b, next, x, k);
      }
  }

  lemma KeepRest(s: State, t: Tid, c: Choice)
    requires Inv(s) && Enabled(s, t, c) && Orderly(s, t)
    requires !InPush(s.th[t].pc) && !InPop(s.th[t].pc) && !InReclaim(s.th[t].pc)
    ensures Inv(Step(s, t, c))
  {
    match s.th[t].pc
    case Idle =>
      if c.Call? {
        KeepCall(s, t, c.call);
      } else {
        KeepExit(s, t);
      }
    case Return(r) => KeepFinish(s, t, r);
    case ExitId(k) => KeepDropId(s, t, k);
    case ExitPointer(k) => KeepDropPointer(s, t, k);
  }

  lemma KeepStep(s: State, t: Tid, c: Choice)
    requires Inv(s) && Enabled(s, t, c) && Orderly(s, t)
    ensures Inv(Step(s, t, c))
  {
    var pc := s.th[t].pc;
    if InPush(pc) {
      KeepPush(s, t, c);
    } else if InPop(pc) {
      KeepPop(s, t, c);
    } else if InReclaim(pc) {
      KeepReclaim(s, t, c);
    } else {
      KeepRest(s, t, c);
    }
  }

  // Reclamation is safe.

  /** Nothing a thread is about to read, write or delete has been freed. */
  ghost predicate Safe(s: State) {
    forall t :: 0 <= t < |s.th| ==>
      NodesTouched(s, t) <= s.nodes.Keys && BoxesTouched(s, t) <= s.boxes.Keys
  }

  lemma InvIsSafe(s: State)
    requires Inv(s)
    ensures Safe(s)
  {
    forall t | 0 <= t < |s.th|
      ensures NodesTouched(s, t) <= s.nodes.Keys && BoxesTouched(s, t) <= s.boxes.Keys
    {
      assert ThreadOk(s, t);
    }
  }

  /** The choice is one that the place in the code leaves open. */
  ghost predicate Fits(s: State, t: Tid, c: Choice) {
    t < |s.th| &&
    match s.th[t].pc
    case Idle => c.Call? || (c.Exit? && s.th[t].slot.Some?)
    case PushNew(_) => c.Address? && Fresh(s, c.a)
    case BoxNew(_) => c.Address? && Fresh(s, c.a)
    case BoxCas(_, _) => c.Weak?
    case Exited => false
    case _ => c.Plain?
  }

  /** No access goes wrong: whatever its place in the code, a thread can take its next step. */
  lemma NeverStuck(s: State, t: Tid, c: Choice)
    requires Inv(s) && Fits(s, t, c)
    ensures Enabled(s, t, c)
  {
    assert ThreadOk(s, t);
    InvIsSafe(s);
  }

  lemma PushFreesNothing(s: State, t: Tid, c: Choice)
    requires Enabled(s, t, c) && InPush(s.th[t].pc)
    ensures s.nodes.Keys <= Step(s, t, c).nodes.Keys
  {
  }

  lemma PopFreesNothing(s: State, t: Tid, c: Choice)
    requires Enabled(s, t, c) && InPop(s.th[t].pc)
    ensures s.nodes.Keys <= Step(s, t, c).nodes.Keys
  {
  }

  lemma ReclaimFrees(s: State, t: Tid, c: Choice, x: Addr)
    requires Enabled(s, t, c) && InReclaim(s.th[t].pc) && x in s.nodes && x !in Step(s, t, c).nodes
    ensures ScanNode(s.th[t].pc) == x && ScanPos(s.th[t].pc) == |s.pointers|
  {
  }

  /** Only the end of a scan frees a node, and it frees the node it scanned for. */
  lemma FreedAfterScan(s: State, t: Tid, c: Choice, x: Addr)
    requires Enabled(s, t, c) && x in s.nodes && x !in Step(s, t, c).nodes
    ensures ScanNode(s.th[t].pc) == x && ScanPos(s.th[t].pc) == |s.pointers|
  {
    if InPush(s.th[t].pc) {
      PushFreesNothing(s, t, c);
    } else if InPop(s.th[t].pc) {
      PopFreesNothing(s, t, c);
    } else if InReclaim(s.th[t].pc) {
      ReclaimFrees(s, t, c, x);
    }
  }

  /** A node that some thread has validated is not freed. */
  lemma ValidatedNeverFreed(s: State, t: Tid, c: Choice, x: Addr)
    requires Inv(s) && Enabled(s, t, c)
    requires x in s.nodes && x !in Step(s, t, c).nodes
    ensures forall u :: 0 <= u < |s.th| ==> ValidNode(s.th[u].pc) != x
  {
    FreedAfterScan(s, t, c, x);
    assert ThreadOk(s, t);
    ScannedNotValid(s, t);
  }

  // Linearizability.

  /** What a thread's place in the code says about its operation. */
  function OpOf(l: Local): Op {
    match l.pc
    case PushNew(v) => Called(Push(v))
    case PushLoad(_, v) => Called(Push(v))
    case PushCas(_, v) => Called(Push(v))
    case PopClear(_, lin) => Finished(Popped(lin))
    case PopSwap(_, lin) => Finished(Popped(lin))
    case Return(r) => Finished(r)
    case _ =>
      if InPop(l.pc) then Called(Pop)
      else if InReclaim(l.pc) then Finished(Popped(l.res))
      else Ready
  }

  function Abstract(s: State): Object {
    Seen(s.vals, s.th, OpOf)
  }

  lemma Stutters(s: State, s': State, t: Tid, l: Local)
    requires t < |s.th| && s'.th == s.th[t := l] && s'.vals == s.vals && OpOf(l) == OpOf(s.th[t])
    ensures Abstract(s') == Abstract(s)
  {
    SeenAt(s.vals, s.th, OpOf, t, l);
  }

  /** The abstract stack is what the memory holds. */
  lemma AbstractIsLinked(s: State)
    requires Inv(s)
    ensures IsLinked(s.nodes, s.head, Abstract(s).stack)
  {
    StackIsLinked(s.head, s.stack, s.vals, s.nodes, s.own);
  }

  /** The push that takes effect here puts its value on top of the abstract stack. */
  lemma PublishRefines(s: State, t: Tid, a: Addr, v: Value)
    requires t < |s.th| && s.th[t].pc == PushCas(a, v)
    ensures TakesEffect(Abstract(s), Abstract(Publish(s, t, a, v)), t)
  {
    SeenAt(s.vals, s.th, OpOf, t, Publish(s, t, a, v).th[t]);
  }

  lemma PushRefines(s: State, t: Tid, c: Choice)
    requires Enabled(s, t, c) && InPush(s.th[t].pc)
    ensures StepBy(Abstract(s), Abstract(Step(s, t, c)), t, CallOf(c))
  {
    var pc := s.th[t].pc;
    if pc.PushCas? && s.head == s.nodes[pc.node].next {
      PublishRefines(s, t, pc.node, pc.v);
    } else {
      Stutters(s, Step(s, t, c), t, Step(s, t, c).th[t]);
    }
  }

  /** The pop that takes effect here takes the top of the abstract stack. */
  lemma UnlinkRefines(s: State, t: Tid, top: Addr, next: Addr)
    requires t < |s.th| && s.th[t].pc == PopCas(top, next) && s.head == top
    requires StackOk(s.head, s.stack, s.vals, s.nodes, s.own) && ThreadOk(s, t)
    ensures TakesEffect(Abstract(s), Abstract(Unlink(s, t, top, next)), t)
  {
    var s' := Unlink(s, t, top, next);
    SeenAt(s.vals, s.th, OpOf, t, s'.th[t]);
  }

  /** The pop that takes effect here finds the abstract stack empty. */
  lemma CheckRefines(s: State, t: Tid, top: Addr)
    requires t < |s.th| && s.th[t].pc == PopCheck(top)
    requires StackOk(s.head, s.stack, s.vals, s.nodes, s.own)
    ensures StepBy(Abstract(s), Abstract(CheckHead(s, t, top)), t, None)
  {
    var s' := CheckHead(s, t, top);
    SeenAt(s.vals, s.th, OpOf, t, s'.th[t]);
  }

  lemma SlotRefines(s: State, t: Tid, k: nat)
    requires t < |s.th| && s.th[t].pc == SlotCas(k) && k <= |s.ids|
    ensures StepBy(Abstract(s), Abstract(CasSlot(s, t, k)), t, None)
  {
    var s' := CasSlot(s, t, k);
    SeenAt(s.vals, s.th, OpOf, t, s'.th[t]);
  }

  lemma PopStutters(s: State, t: Tid, c: Choice)
    requires Enabled(s, t, c) && ThreadOk(s, t)
    requires s.th[t].pc.PopLoad? || s.th[t].pc.PopHazard? || s.th[t].pc.PopNext? || s.th[t].pc.PopClear?
          || s.th[t].pc.PopSwap? || (s.th[t].pc.PopCas? && s.head != s.th[t].pc.top)
    ensures Abstract(Step(s, t, c)) == Abstract(s)
  {
    Stutters(s, Step(s, t, c), t, Step(s, t, c).th[t]);
  }

  lemma PopRefines(s: State, t: Tid, c: Choice)
    requires StackOk(s.head, s.stack, s.vals, s.nodes, s.own) && Enabled(s, t, c) && ThreadOk(s, t)
    requires InPop(s.th[t].pc)
    ensures StepBy(Abstract(s), Abstract(Step(s, t, c)), t, CallOf(c))
  {
    var pc := s.th[t].pc;
    if pc.SlotCas? {
      SlotRefines(s, t, pc.i);
    } else if pc.PopCheck? {
      CheckRefines(s, t, pc.top);
    } else if pc.PopCas? && s.head == pc.top {
      UnlinkRefines(s, t, pc.top, pc.next);
    } else {
      PopStutters(s, t, c);
    }
  }

  lemma ScanStutters(s: State, t: Tid, c: Choice)
    requires Enabled(s, t, c)
    requires s.th[t].pc.HandScan? || s.th[t].pc.BoxScan? || s.th[t].pc.BoxNew?
    ensures Abstract(Step(s, t, c)) == Abstract(s)
  {
    Stutters(s, Step(s, t, c), t, Step(s, t, c).th[t]);
  }

  lemma ListStutters(s: State, t: Tid, c: Choice)
    requires Enabled(s, t, c)
    requires s.th[t].pc.BoxLoad? || s.th[t].pc.BoxCas? || s.th[t].pc.Claim? || s.th[t].pc.Walk?
    ensures Abstract(Step(s, t, c)) == Abstract(s)
  {
    Stutters(s, Step(s, t, c), t, Step(s, t, c).th[t]);
  }

  /** The operation that begins is the one called, with its argument. */
  lemma CallRefines(s: State, t: Tid, call: Call)
    requires t < |s.th| && s.th[t].pc == Idle
    ensures Begins(Abstract(s), Abstract(Begin(s, t, Choice.Call(call))), t, call)
  {
    var s' := Begin(s, t, Choice.Call(call));
    SeenAt(s.vals, s.th, OpOf, t, s'.th[t]);
  }

  lemma FinishRefines(s: State, t: Tid, r: Result)
    requires t < |s.th| && s.th[t].pc == Return(r)
    ensures Returns(Abstract(s), Abstract(Finish(s, t)), t)
  {
    SeenAt(s.vals, s.th, OpOf, t, Finish(s, t).th[t]);
  }

  lemma RestRefines(s: State, t: Tid, c: Choice)
    requires Enabled(s, t, c) && !InPush(s.th[t].pc) && !InPop(s.th[t].pc) && !InReclaim(s.th[t].pc)
    ensures StepBy(Abstract(s), Abstract(Step(s, t, c)), t, CallOf(c))
  {
    if s.th[t].pc.Idle? && c.Call? {
      CallRefines(s, t, c.call);
    } else if s.th[t].pc.Return? {
      FinishRefines(s, t, s.th[t].pc.result);
    } else {
      Stutters(s, Step(s, t, c), t, Step(s, t, c).th[t]);
    }
  }

  /** Every step of the code is one step of the atomic stack, or none; the first is the call made. */
  lemma StepRefines(s: State, t: Tid, c: Choice)
    requires Inv(s) && Enabled(s, t, c)
    ensures StepBy(Abstract(s), Abstract(Step(s, t, c)), t, CallOf(c))
  {
    assert ThreadOk(s, t);
    if InPush(s.th[t].pc) {
      PushRefines(s, t, c);
    } else if InPop(s.th[t].pc) {
      PopRefines(s, t, c);
    } else if InReclaim(s.th[t].pc) {
      if s.th[t].pc.HandScan? || s.th[t].pc.BoxScan? || s.th[t].pc.BoxNew? {
        ScanStutters(s, t, c);
      } else {
        ListStutters(s, t, c);
      }
    } else {
      RestRefines(s, t, c);
    }
  }

  /** No ABA: when the pop's compare-and-exchange finds the head it read, the successor it read
      is still the head's, and the top of what is left. */
  lemma NoAba(s: State, t: Tid)
    requires Inv(s) && t < |s.th| && s.th[t].pc.PopCas? && s.head == s.th[t].pc.top
    ensures s.stack != [] && s.stack[|s.stack| - 1] == s.head && s.head in s.nodes
    ensures s.th[t].pc.next == s.nodes[s.head].next == Top(s.stack[..|s.stack| - 1])
  {
    assert ThreadOk(s, t);
    PopStack(s.head, s.stack, s.vals, s.nodes, s.own, Hand(t));
  }

  // Runs.

  /** The initial state, and each state an orderly step of some thread after the one before. */
  ghost predicate Next(s: State, s': State) {
    exists t, c :: Enabled(s, t, c) && Orderly(s, t) && s' == Step(s, t, c)
  }

  ghost predicate Run(r: seq<State>) {
    IsRun(r, Init, Next)
  }

  lemma InitInv(s: State)
    requires Init(s)
    ensures Inv(s) && Start(Abstract(s))
  {
    forall t | 0 <= t < |s.th|
      ensures ThreadOk(s, t) && ValidNode(s.th[t].pc) == NULL && Abstract(s).ops[t] == Ready
    {
      assert s.th[t] == Local(None, None, [], Idle);
      SeenAt(s.vals, s.th, OpOf, t, s.th[t]);
    }
  }

  lemma NextKeeps(s: State, s': State)
    requires Inv(s) && Next(s, s')
    ensures Inv(s')
  {
    var t, c :| Enabled(s, t, c) && Orderly(s, t) && s' == Step(s, t, c);
    KeepStep(s, t, c);
  }

  lemma NextRefines(s: State, s': State)
    requires Inv(s) && Next(s, s')
    ensures Steps(Abstract(s), Abstract(s'))
  {
    var t, c :| Enabled(s, t, c) && Orderly(s, t) && s' == Step(s, t, c);
    StepRefines(s, t, c);
    assert StepBy(Abstract(s), Abstract(s'), t, CallOf(c));
  }

  lemma RunInv(r: seq<State>, n: nat)
    requires Run(r) && n < |r|
    ensures Inv(r[n])
  {
    forall s | Init(s)
      ensures Inv(s)
    {
      InitInv(s);
    }
    forall s, s' | Inv(s) && Next(s, s')
      ensures Inv(s')
    {
      NextKeeps(s, s');
    }
    Always(r, Init, Next, Inv, n);
  }

  /** The last state of some run. */
  ghost predicate Reachable(s: State) {
    Reached(s, Init, Next)
  }

  lemma ReachableInv(s: State)
    requires Reachable(s)
    ensures Inv(s)
  {
    var r :| IsRun(r, Init, Next) && r[|r| - 1] == s;
    RunInv(r, |r| - 1);
  }

  lemma ReachStep(s: State, t: Tid, c: Choice)
    requires Reachable(s) && Enabled(s, t, c) && Orderly(s, t)
    ensures Reachable(Step(s, t, c))
  {
    Reaches(s, Step(s, t, c), Init, Next);
  }

  lemma NextFrees(s: State, s': State, x: Addr)
    requires Inv(s) && Next(s, s') && x in s.nodes && x !in s'.nodes
    ensures forall u :: 0 <= u < |s.th| ==> ValidNode(s.th[u].pc) != x
  {
    var t, c :| Enabled(s, t, c) && Orderly(s, t) && s' == Step(s, t, c);
    ValidatedNeverFreed(s, t, c, x);
  }

  /** In every run, no freed memory is touched, and no node is freed that a thread has validated. */
  lemma RunSafe(r: seq<State>, n: nat)
    requires Run(r) && n < |r|
    ensures Safe(r[n])
    ensures n + 1 < |r| ==> forall x, u :: x in r[n].nodes && x !in r[n + 1].nodes && 0 <= u < |r[n].th| ==>
      ValidNode(r[n].th[u].pc) != x
  {
    RunInv(r, n);
    InvIsSafe(r[n]);
    if n + 1 < |r| {
      StepAt(r, Init, Next, n);
      forall x | x in r[n].nodes && x !in r[n + 1].nodes
        ensures forall u :: 0 <= u < |r[n].th| ==> ValidNode(r[n].th[u].pc) != x
      {
        NextFrees(r[n], r[n + 1], x);
      }
    }
  }

  /** Every run is a history of the atomic stack, and this is at all times what the memory holds. */
  lemma RunLinearizable(r: seq<State>)
    requires Run(r)
    ensures History(Trace(r, Abstract))
    ensures forall n :: 0 <= n < |r| ==> IsLinked(r[n].nodes, r[n].head, Trace(r, Abstract)[n].stack)
  {
    forall s | Init(s)
      ensures Inv(s) && Start(Abstract(s))
    {
      InitInv(s);
    }
    forall s, s' | Inv(s) && Next(s, s')
      ensures Inv(s') && Steps(Abstract(s), Abstract(s'))
    {
      NextKeeps(s, s');
      NextRefines(s, s');
    }
    forall n | 0 <= n < |r|
      ensures IsLinked(r[n].nodes, r[n].head, Trace(r, Abstract)[n].stack)
    {
      RunInv(r, n);
      AbstractIsLinked(r[n]);
    }
    Simulates(r, Init, Next, Inv, Abstract, Start, Steps);
  }

  // Conservation.

  /** Where an allocated node can be. */
  datatype Place =
    | InPushOf(t: Tid) | OnStack(i: nat) | InHandOf(t: Tid)
    | OnList(i: nat) | OnClaimOf(t: Tid, i: nat) | InBoxOf(t: Tid)

  ghost predicate IsAt(s: State, x: Addr, p: Place) {
    match p
    case InPushOf(t) => t < |s.th| && PrivateNode(s.th[t].pc) == x
    case OnStack(i) => i < |s.stack| && s.stack[i] == x
    case InHandOf(t) => t < |s.th| && HandNode(s.th[t].pc) == x
    case OnList(i) => i < |s.pending| && s.pending[i] in s.boxes && s.boxes[s.pending[i]].node == x
    case OnClaimOf(t, i) =>
      && t < |s.th| && i < |s.th[t].claimed|
      && s.th[t].claimed[i] in s.boxes && s.boxes[s.th[t].claimed[i]].node == x
    case InBoxOf(t) =>
      && t < |s.th| && CarriedBox(s.th[t].pc) in s.boxes
      && s.boxes[CarriedBox(s.th[t].pc)].node == x
  }

  /** The place that the bookkeeping names. */
  function PlaceOf(s: State, x: Addr): Place
    requires x in s.own
  {
    match s.own[x]
    case Private(t) => InPushOf(t)
    case Linked(i) => OnStack(i)
    case Hand(t) => InHandOf(t)
    case Retired(b) =>
      if b !in s.boxOwn then OnStack(0)
      else match s.boxOwn[b]
        case Shared(i) => OnList(i)
        case Claimed(t, i) => OnClaimOf(t, i)
        case Carried(t) => InBoxOf(t)
  }

  lemma AtItsPlace(s: State, x: Addr)
    requires Inv(s) && x in s.nodes
    ensures IsAt(s, x, PlaceOf(s, x))
  {
    if s.own[x].Retired? {
      var b := s.own[x].place;
      assert b in s.boxOwn && s.boxes[b].node == x;
      assert s.boxOwn[b].Shared? || s.boxOwn[b].Claimed? || s.boxOwn[b].Carried?;
    } else {
      assert s.own[x].Private? || s.own[x].Hand? || s.own[x].Linked?;
    }
  }

  lemma NowhereElse(s: State, x: Addr, p: Place)
    requires Inv(s) && x != NULL && IsAt(s, x, p)
    ensures x in s.nodes && p == PlaceOf(s, x)
  {
    match p
    case InPushOf(t) => assert ThreadOk(s, t);
    case InHandOf(t) => assert ThreadOk(s, t);
    case OnClaimOf(t, i) => assert ThreadOk(s, t);
    case InBoxOf(t) => assert ThreadOk(s, t);
    case _ =>
  }

  /** Every allocated node is in exactly one place; a freed node is nowhere. */
  lemma Conservation(s: State, x: Addr)
    requires Inv(s) && x != NULL
    ensures x in s.nodes <==> exists p :: IsAt(s, x, p)
    ensures forall p, q :: IsAt(s, x, p) && IsAt(s, x, q) ==> p == q
  {
    if x in s.nodes {
      AtItsPlace(s, x);
    }
    forall p | IsAt(s, x, p)
      ensures x in s.nodes && p == PlaceOf(s, x)
    {
      NowhereElse(s, x, p);
    }
  }

  // The scan.

  /** Thread t is at slot k of a scan of the slots for node x. */
  predicate ScansFor(s: State, t: Tid, x: Addr, k: nat) {
    && t < |s.th| && (s.th[t].pc.HandScan? || s.th[t].pc.BoxScan?)
    && ScanNode(s.th[t].pc) == x && ScanPos(s.th[t].pc) == k
  }

  /** A slot that holds the node ends the scan, and the node is retired or put back; any other slot is
      passed. */
  lemma ScanDecides(s: State, t: Tid, x: Addr, k: nat)
    requires ScansFor(s, t, x, k) && k < |s.pointers| && Enabled(s, t, Plain)
    ensures var s' := Step(s, t, Plain);
      && |s'.th| == |s.th| && s'.nodes == s.nodes && s'.boxes == s.boxes
      && (if s.pointers[k] == x
          then s'.th[t].pc == if s.th[t].pc.HandScan? then BoxNew(x) else BoxLoad(s.th[t].pc.current, Some(s.th[t].pc.next))
          else ScansFor(s', t, x, k + 1) && s'.th[t].pc.HandScan? == s.th[t].pc.HandScan?)
  {
  }

  // Termination.

  /** How far a thread in the reclaim loop is from its end, with n hazard slots. Other threads'
      steps do not change it: it depends on the thread's own locals only. */
  function Rank(l: Local, n: nat): nat {
    |l.claimed| * (n + 4) +
    match l.pc
    case BoxScan(_, _, _, k) => if k <= n then n + 3 - k else 0
    case BoxLoad(_, _) => 2
    case BoxCas(_, _) => 1
    case _ => 0
  }

  /** Thread t is in the loop over the boxes it claimed. */
  predicate InLoop(pc: PC) {
    WalkFrom(pc).Some?
  }

  lemma WalkTerminates(s: State, t: Tid, b: Addr)
    requires t < |s.th| && s.th[t].pc == Walk(b) && b != NULL && ClaimsOk(s.boxes, s.boxOwn, t, s.th[t])
    ensures b in s.boxes && Rank(TakeBox(s, t, b).th[t], |s.pointers|) < Rank(s.th[t], |s.pointers|)
  {
    TakeClaim(s.boxes, s.boxOwn, t, s.th[t]);
    var n := |s.th[t].claimed| - 1;
    assert (n + 1) * (|s.pointers| + 4) == n * (|s.pointers| + 4) + (|s.pointers| + 4);
  }

  /** The rank of the locals l' is lower, or they are out of the loop. */
  predicate Nearer(l: Local, l': Local, n: nat) {
    !InLoop(l'.pc) || Rank(l', n) < Rank(l, n)
  }

  lemma EntryTerminates(s: State, t: Tid, c: Choice)
    requires Enabled(s, t, c) && (s.th[t].pc.BoxScan? || s.th[t].pc.BoxLoad? || s.th[t].pc.BoxCas?)
    ensures var l, l' := s.th[t], Step(s, t, c).th[t];
      if l.pc.BoxCas? && (c.fails || s.reclaim != s.boxes[l.pc.box].next) then l' == l
      else Nearer(l, l', |s.pointers|)
  {
  }

  /** A step of a thread in the reclaim loop brings it nearer to the end or leaves the loop,
      except a failed attempt to put a survivor back. */
  lemma ReclaimTerminates(s: State, t: Tid, c: Choice)
    requires Enabled(s, t, c) && ThreadOk(s, t) && InLoop(s.th[t].pc)
    ensures var l, l' := s.th[t], Step(s, t, c).th[t];
      if l.pc.BoxCas? && (c.fails || s.reclaim != s.boxes[l.pc.box].next) then l' == l
      else Nearer(l, l', |s.pointers|)
  {
    if !s.th[t].pc.Walk? {
      EntryTerminates(s, t, c);
    } else if s.th[t].pc.current != NULL {
      WalkTerminates(s, t, s.th[t].pc.current);
    }
  }

  // Thread exit.

  /** What a thread has published and not moved on from is in its slot. */
  ghost predicate PublishedKept(s: State) {
    forall t :: 0 <= t < |s.th| && Published(s.th[t].pc) != NULL ==>
      && s.th[t].slot.Some? && s.th[t].slot.value < |s.pointers|
      && s.pointers[s.th[t].slot.value] == Published(s.th[t].pc)
  }

  lemma InvKeepsPublished(s: State)
    requires Inv(s)
    ensures PublishedKept(s)
  {
    forall t | 0 <= t < |s.th|
      ensures ThreadOk(s, t)
    {
    }
  }

  lemma DisorderLoses(s: State, t: Tid, c: Choice)
    requires Enabled(s, t, c) && !Orderly(s, t)
    ensures !PublishedKept(Step(s, t, c))
  {
    var k := s.th[t].pc.slot;
    var u :| 0 <= u < |s.th| && s.th[u].slot == Some(k) && Published(s.th[u].pc) != NULL;
    assert DropPointer(s, t, k).th[u] == s.th[u] && DropPointer(s, t, k).pointers[k] == NULL;
  }

  /** A step that is not orderly loses a published pointer, and no other step does. */
  lemma OrderlyIffPublished(s: State, t: Tid, c: Choice)
    requires Inv(s) && Enabled(s, t, c)
    ensures PublishedKept(Step(s, t, c)) <==> Orderly(s, t)
    ensures Orderly(s, t) ==> Inv(Step(s, t, c))
  {
    if Orderly(s, t) {
      KeepStep(s, t, c);
      InvKeepsPublished(Step(s, t, c));
    } else {
      DisorderLoses(s, t, c);
    }
  }

  /** Any step of the code, orderly or not. */
  ghost predicate AnyNext(s: State, s': State) {
    exists t, c :: Enabled(s, t, c) && s' == Step(s, t, c)
  }

  /** The step from s to s' clears a slot in which its new owner has published. */
  ghost predicate Loses(s: State, s': State) {
    exists t, c :: Enabled(s, t, c) && !Orderly(s, t) && s' == Step(s, t, c)
  }

  lemma AnyNextKeeps(s: State, s': State)
    requires Inv(s) && AnyNext(s, s')
    ensures PublishedKept(s') <==> !Loses(s, s')
    ensures !Loses(s, s') ==> Inv(s')
  {
    var t, c :| Enabled(s, t, c) && s' == Step(s, t, c);
    OrderlyIffPublished(s, t, c);
    if Loses(s, s') {
      var u, d :| Enabled(s, u, d) && !Orderly(s, u) && s' == Step(s, u, d);
      OrderlyIffPublished(s, u, d);
    }
  }

  lemma {:induction false} KeptSoFar(r: seq<State>, n: nat)
    requires IsRun(r, Init, AnyNext) && n < |r|
    requires (forall i :: 0 <= i <= n ==> PublishedKept(r[i]))
          || (forall i, j {:trigger Loses(r[i], r[j])} :: 0 <= i && j == i + 1 <= n ==> !Loses(r[i], r[j]))
    ensures Inv(r[n])
  {
    if n == 0 {
      InitInv(r[0]);
    } else {
      KeptSoFar(r, n - 1);
      StepAt(r, Init, AnyNext, n - 1);
      AnyNextKeeps(r[n - 1], r[n]);
    }
  }

  /** A run of the code keeps every published pointer in its slot exactly when no step of it clears
      a slot in which its new owner has published; and then it is safe throughout. */
  lemma RunKeepsPublishedIff(r: seq<State>)
    requires IsRun(r, Init, AnyNext)
    ensures (forall n :: 0 <= n < |r| ==> PublishedKept(r[n])) <==>
      (forall i, j {:trigger Loses(r[i], r[j])} :: 0 <= i && j == i + 1 < |r| ==> !Loses(r[i], r[j]))
    ensures (forall n :: 0 <= n < |r| ==> PublishedKept(r[n])) ==> forall n :: 0 <= n < |r| ==> Safe(r[n])
  {
    if forall n :: 0 <= n < |r| ==> PublishedKept(r[n]) {
      forall i, j {:trigger Loses(r[i], r[j])} | 0 <= i && j == i + 1 < |r|
        ensures !Loses(r[i], r[j])
      {
        KeptSoFar(r, i);
        StepAt(r, Init, AnyNext, i);
        AnyNextKeeps(r[i], r[j]);
      }
      forall n | 0 <= n < |r|
        ensures Safe(r[n])
      {
        KeptSoFar(r, n);
        InvIsSafe(r[n]);
      }
    } else if forall i, j {:trigger Loses(r[i], r[j])} :: 0 <= i && j == i + 1 < |r| ==> !Loses(r[i], r[j]) {
      forall n | 0 <= n < |r|
        ensures PublishedKept(r[n])
      {
        KeptSoFar(r, n);
        InvKeepsPublished(r[n]);
      }
    }
  }
}
