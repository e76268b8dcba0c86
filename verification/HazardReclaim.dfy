/** What the reclamation of the hazard-pointer stack comes to: a node is kept only for a slot that held
    it, and a call left to itself comes to its end. */
module HazardReclaim {
  import opened Memory
  import opened Runs
  import opened StackSpec
  import opened LinkedStack
  import opened HazardStack
  import opened HazardSafety
  import opened HazardTheorems
  import opened HazardProgress

  // A call left to itself comes to its end.

  /** What one entry of the reclaim list costs at most: a scan of the slots and its way back. */
  function Entry(s: State): nat {
    |s.pointers| + 5
  }

  function Passed(s: State, k: nat): nat {
    if k <= |s.pointers| then |s.pointers| - k else 0
  }

  /** How many steps of its own a reclaiming thread is from its result, when nobody else moves. */
  function ReclaimRank(s: State, t: Tid): nat
    requires t < |s.th|
  {
    var own, all := 2 + |s.th[t].claimed| * Entry(s), 3 + |s.pending| * Entry(s);
    match s.th[t].pc
    case HandScan(_, k) => all + Entry(s) + 6 + Passed(s, k)
    case BoxNew(_) => all + Entry(s) + 5
    case BoxLoad(b, None) => all + Entry(s) + 4
    case BoxLoad(b, Some(_)) => own + 3
    case BoxCas(b, rest) =>
      (if rest == None then all + Entry(s) else own) +
      if b in s.boxes && s.boxes[b].next == s.reclaim then 1 else 2
    case Claim => all
    case Walk(_) => own
    case BoxScan(_, _, _, k) => own + 4 + Passed(s, k)
    case _ => 0
  }

  /** How many steps of its own a call is from its end, when nobody else moves: more with a head or a
      list in hand that has changed. */
  function AloneRank(s: State, t: Tid): nat {
    if t >= |s.th| then 0 else
      var pop := 10 + (|s.pending| + 1) * Entry(s) + |s.pointers|;
      match s.th[t].pc
      case Idle => 0
      case Exited => 0
      case ExitPointer(_) => 1
      case ExitId(_) => 2
      case Return(_) => 1
      case PushNew(_) => 5
      case PushLoad(_, _) => 4
      case PushCas(a, _) => if a in s.nodes && s.nodes[a].next == s.head then 2 else 3
      case SlotCas(k) => pop + 8 + Passed(s, k)
      case PopLoad => pop + 7
      case PopHazard(top) => pop + if top == s.head then 6 else 8
      case PopCheck(top) => pop + if top == s.head then 5 else 7
      case PopNext(top) => pop + if top == s.head then 4 else 8
      case PopCas(top, _) => pop + if top == s.head then 3 else 7
      case PopClear(_, _) => pop + 2
      case PopSwap(_, _) => pop + 1
      case _ => ReclaimRank(s, t)
  }

  lemma PushDescends(s: State, t: Tid, c: Choice)
    requires Enabled(s, t, c) && InPush(s.th[t].pc)
    ensures AloneRank(Step(s, t, c), t) < AloneRank(s, t)
  {
    match s.th[t].pc
    case PushNew(_) =>
    case PushLoad(_, _) =>
    case _ =>
  }

  lemma SlotDescends(s: State, t: Tid, k: nat)
    requires t < |s.th| && s.th[t].pc == SlotCas(k) && k <= |s.ids| == |s.pointers|
    ensures AloneRank(CasSlot(s, t, k), t) < AloneRank(s, t)
  {
  }

  lemma ReadDescends(s: State, t: Tid, c: Choice)
    requires Enabled(s, t, c) && (s.th[t].pc.PopCheck? || s.th[t].pc.PopNext? || s.th[t].pc.PopCas?)
    ensures AloneRank(Step(s, t, c), t) < AloneRank(s, t)
  {
    match s.th[t].pc
    case PopCas(_, _) =>
    case _ =>
  }

  lemma PopDescends(s: State, t: Tid, c: Choice)
    requires Enabled(s, t, c) && (s.th[t].pc.PopLoad? || s.th[t].pc.PopHazard? || s.th[t].pc.PopClear?)
    ensures AloneRank(Step(s, t, c), t) < AloneRank(s, t)
  {
    match s.th[t].pc
    case PopLoad =>
    case _ =>
  }

  lemma SwapDescends(s: State, t: Tid, x: Addr, lin: Option<Value>)
    requires t < |s.th| && s.th[t].pc == PopSwap(x, lin) && x in s.nodes
    ensures AloneRank(SwapData(s, t, x), t) < AloneRank(s, t)
  {
    assert (|s.pending| + 1) * Entry(s) == |s.pending| * Entry(s) + Entry(s);
  }

  lemma HandDescends(s: State, t: Tid, x: Addr, k: nat)
    requires t < |s.th| && s.th[t].pc == HandScan(x, k) && k <= |s.pointers|
    ensures AloneRank(ScanHand(s, t, x, k), t) < AloneRank(s, t)
  {
  }

  lemma ScanDescends(s: State, t: Tid, c: Choice)
    requires Enabled(s, t, c) && (s.th[t].pc.BoxScan? || s.th[t].pc.BoxNew?)
    ensures AloneRank(Step(s, t, c), t) < AloneRank(s, t)
  {
    match s.th[t].pc
    case BoxNew(_) =>
    case _ =>
  }

  lemma BoxDescends(s: State, t: Tid, c: Choice)
    requires Enabled(s, t, c) && c != Weak(true) && (s.th[t].pc.BoxLoad? || s.th[t].pc.BoxCas?)
    ensures AloneRank(Step(s, t, c), t) < AloneRank(s, t)
  {
    assert (|s.pending| + 1) * Entry(s) == |s.pending| * Entry(s) + Entry(s);
    match s.th[t].pc
    case BoxLoad(_, _) =>
    case _ =>
  }

  lemma WalkDescends(s: State, t: Tid, b: Addr)
    requires t < |s.th| && s.th[t].pc == Walk(b) && ClaimsOk(s.boxes, s.boxOwn, t, s.th[t])
    ensures (b == NULL || b in s.boxes) && AloneRank(WalkOn(s, t, b), t) < AloneRank(s, t)
  {
    if b != NULL {
      TakeClaim(s.boxes, s.boxOwn, t, s.th[t]);
      var n := |s.th[t].claimed| - 1;
      assert (n + 1) * Entry(s) == n * Entry(s) + Entry(s);
    }
  }

  lemma RestDescends(s: State, t: Tid, c: Choice)
    requires Enabled(s, t, c)
    requires s.th[t].pc.Claim? || s.th[t].pc.Return? || s.th[t].pc.ExitId? || s.th[t].pc.ExitPointer?
    ensures AloneRank(Step(s, t, c), t) < AloneRank(s, t)
  {
    match s.th[t].pc
    case Claim =>
    case _ =>
  }

  /** Left to itself, a call, or the exit of a thread, comes nearer to its end with every step that is
      no spurious failure. */
  lemma AloneDescends(s: State, t: Tid, c: Choice)
    requires Enabled(s, t, c) && ThreadOk(s, t) && c != Weak(true) && !s.th[t].pc.Idle?
    ensures AloneRank(Step(s, t, c), t) < AloneRank(s, t)
  {
    var pc := s.th[t].pc;
    if InPush(pc) {
      PushDescends(s, t, c);
    } else if pc.SlotCas? {
      SlotDescends(s, t, pc.i);
    } else if pc.PopSwap? {
      SwapDescends(s, t, pc.top, pc.lin);
    } else if pc.PopCheck? || pc.PopNext? || pc.PopCas? {
      ReadDescends(s, t, c);
    } else if InPop(pc) {
      PopDescends(s, t, c);
    } else if pc.HandScan? {
      HandDescends(s, t, pc.node, pc.k);
    } else if pc.BoxScan? || pc.BoxNew? {
      ScanDescends(s, t, c);
    } else if pc.BoxLoad? || pc.BoxCas? {
      BoxDescends(s, t, c);
    } else if pc.Walk? {
      WalkDescends(s, t, pc.current);
    } else {
      RestDescends(s, t, c);
    }
  }

  /** The step from s to s' is one of thread t in a call, and no spurious failure. */
  ghost predicate Alone(t: Tid, s: State, s': State) {
    exists c :: Enabled(s, t, c) && c != Weak(true) && !s.th[t].pc.Idle? && Orderly(s, t) && s' == Step(s, t, c)
  }

  /** Thread t is in a call, and nobody else moves. */
  ghost predicate AloneRun(r: seq<State>, t: Tid) {
    IsRun(r, s => Inv(s) && t < |s.th|, (s, s') => Alone(t, s, s'))
  }

  lemma AloneLowers(s: State, s': State, t: Tid)
    requires Inv(s) && t < |s.th| && Alone(t, s, s')
    ensures Inv(s') && t < |s'.th| && AloneRank(s', t) < AloneRank(s, t)
  {
    var c :| Enabled(s, t, c) && c != Weak(true) && !s.th[t].pc.Idle? && Orderly(s, t) && s' == Step(s, t, c);
    KeepStep(s, t, c);
    assert ThreadOk(s, t);
    AloneDescends(s, t, c);
    SameThreads(s, t, c);
  }

  lemma SameThreads(s: State, t: Tid, c: Choice)
    requires Enabled(s, t, c)
    ensures |Step(s, t, c).th| == |s.th|
  {
    Writes(s, t, c, t + 1, NULL, NULL);
  }

  lemma RankIsZero(s: State, t: Tid)
    requires t < |s.th|
    ensures AloneRank(s, t) == 0 <==> s.th[t].pc.Idle? || s.th[t].pc.Exited?
  {
    match s.th[t].pc
    case BoxLoad(_, _) =>
    case BoxCas(_, _) =>
    case _ =>
  }

  /** Wherever the others have stopped, a thread that runs alone, without spurious failures, ends its
      call, or its exit, within as many steps as its rank; it can always take the next one. */
  lemma AloneReturns(r: seq<State>, t: Tid)
    requires AloneRun(r, t)
    ensures var first, last := r[0], r[|r| - 1];
      && t < |last.th| && |r| - 1 + AloneRank(last, t) <= AloneRank(first, t)
      && (AloneRank(last, t) == 0 <==> last.th[t].pc.Idle? || last.th[t].pc.Exited?)
  {
    var inv, step := (s: State) => Inv(s) && t < |s.th|, (s: State, s': State) => Alone(t, s, s');
    forall s, s' | inv(s) && step(s, s')
      ensures inv(s') && AloneRank(s', t) < AloneRank(s, t)
    {
      AloneLowers(s, s', t);
    }
    Descent(r, inv, step, s => AloneRank(s, t));
    RankIsZero(r[|r| - 1], t);
  }

  // A node is kept only for a slot that held it.

  /** Thread t is about to put node x on the reclaim list, or back on it. */
  predicate KeepsNode(s: State, t: Tid, x: Addr) {
    t < |s.th| &&
    match s.th[t].pc
    case BoxNew(y) => y == x
    case BoxLoad(b, _) => b in s.boxes && s.boxes[b].node == x
    case BoxCas(b, _) => b in s.boxes && s.boxes[b].node == x
    case _ => false
  }

  /** Thread t, scanning for x, looks at a slot that holds x. */
  ghost predicate Hits(s: State, t: Tid, x: Addr) {
    exists k :: 0 <= k < |s.pointers| && s.pointers[k] == x && ScansFor(s, t, x, k)
  }

  lemma OwnKeeps(s: State, t: Tid, c: Choice, x: Addr)
    requires Enabled(s, t, c) && ThreadOk(s, t) && KeepsNode(Step(s, t, c), t, x)
    ensures KeepsNode(s, t, x) || Hits(s, t, x)
  {
    var pc := s.th[t].pc;
    if InPush(pc) {
      PushKeepsNone(s, t, c, x);
    } else if InPop(pc) {
      PopKeepsNone(s, t, c, x);
    } else if pc.HandScan? || pc.BoxScan? {
      if ScanPos(pc) < |s.pointers| {
        ScanDecides(s, t, ScanNode(pc), ScanPos(pc));
      }
    } else if InReclaim(pc) {
      ListKeeps(s, t, c, x);
    } else {
      RestKeepsNone(s, t, c, x);
    }
  }

  lemma PushKeepsNone(s: State, t: Tid, c: Choice, x: Addr)
    requires Enabled(s, t, c) && InPush(s.th[t].pc)
    ensures !KeepsNode(Step(s, t, c), t, x)
  {
  }

  lemma PopKeepsNone(s: State, t: Tid, c: Choice, x: Addr)
    requires Enabled(s, t, c) && InPop(s.th[t].pc)
    ensures !KeepsNode(Step(s, t, c), t, x)
  {
    match s.th[t].pc
    case SlotCas(_) =>
    case PopCheck(_) =>
    case PopCas(_, _) =>
    case _ =>
  }

  lemma ListKeeps(s: State, t: Tid, c: Choice, x: Addr)
    requires Enabled(s, t, c) && InReclaim(s.th[t].pc) && !s.th[t].pc.HandScan? && !s.th[t].pc.BoxScan?
    ensures KeepsNode(Step(s, t, c), t, x) ==> KeepsNode(s, t, x)
  {
    match s.th[t].pc
    case BoxNew(_) =>
    case BoxCas(_, _) =>
    case _ =>
  }

  lemma RestKeepsNone(s: State, t: Tid, c: Choice, x: Addr)
    requires Enabled(s, t, c) && !InPush(s.th[t].pc) && !InPop(s.th[t].pc) && !InReclaim(s.th[t].pc)
    ensures !KeepsNode(Step(s, t, c), t, x)
  {
  }

  lemma OthersKeep(s: State, u: Tid, c: Choice, t: Tid, x: Addr)
    requires Inv(s) && Enabled(s, u, c) && t != u && t < |s.th| && KeepsNode(Step(s, u, c), t, x)
    ensures KeepsNode(s, t, x)
  {
    assert ThreadOk(s, t) && ThreadOk(s, u);
    Writes(s, u, c, t, NULL, CarriedBox(s.th[t].pc));
  }

  lemma NextKeepsNode(s: State, s': State, t: Tid, x: Addr)
    requires Inv(s) && Next(s, s') && KeepsNode(s', t, x)
    ensures KeepsNode(s, t, x) || Hits(s, t, x)
  {
    var u, c :| Enabled(s, u, c) && Orderly(s, u) && s' == Step(s, u, c);
    if u == t {
      assert ThreadOk(s, t);
      OwnKeeps(s, t, c, x);
    } else {
      Writes(s, u, c, t, NULL, NULL);
      OthersKeep(s, u, c, t, x);
    }
  }

  /** Since step k, in which it looked at a slot that held x, thread t has been keeping x. */
  ghost predicate KeptSince(r: seq<State>, k: nat, n: nat, t: Tid, x: Addr) {
    k < n < |r| && Hits(r[k], t, x) && forall i :: k < i <= n ==> KeepsNode(r[i], t, x)
  }

  lemma RunKeepsNode(r: seq<State>, k: nat, t: Tid, x: Addr)
    requires Run(r) && k + 1 < |r| && KeepsNode(r[k + 1], t, x)
    ensures KeepsNode(r[k], t, x) || Hits(r[k], t, x)
  {
    RunInv(r, k);
    StepAt(r, Init, Next, k);
    NextKeepsNode(r[k], r[k + 1], t, x);
  }

  lemma NothingKeptAtFirst(r: seq<State>, n: nat, t: Tid, x: Addr)
    requires Run(r) && n < |r| && KeepsNode(r[n], t, x)
    ensures n > 0
  {
  }

  /** In every run, a retired node goes on the list, or back on it, only because a slot that its
      thread looked at in this scan held it. */
  lemma {:induction false} KeptForAHazard(r: seq<State>, n: nat, t: Tid, x: Addr)
    requires Run(r) && n < |r| && KeepsNode(r[n], t, x)
    ensures exists k :: KeptSince(r, k, n, t, x)
  {
    NothingKeptAtFirst(r, n, t, x);
    RunKeepsNode(r, n - 1, t, x);
    assert r[n - 1 + 1] == r[n];
    if KeepsNode(r[n - 1], t, x) {
      KeptForAHazard(r, n - 1, t, x);
      var k :| KeptSince(r, k, n - 1, t, x);
      assert KeptSince(r, k, n, t, x);
    } else {
      assert KeptSince(r, n - 1, n, t, x);
    }
  }
}
