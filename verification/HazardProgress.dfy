/** The exchange loops of the hazard-pointer stack are lock-free: an exchange that is not lost
    spuriously is lost only because another thread's succeeded since the load. */
module HazardProgress {
  import opened Memory
  import opened Runs
  import opened StackSpec
  import opened HazardStack
  import opened HazardSafety
  import opened HazardTheorems

  /** The head that the exchange of thread t, on the way in push or pop, expects. */
  function Expects(s: State, t: Tid): Option<Addr> {
    if t >= |s.th| then None else
      match s.th[t].pc
      case PushCas(a, _) => if a in s.nodes then Some(s.nodes[a].next) else None
      case PopNext(top) => Some(top)
      case PopCas(top, _) => Some(top)
      case _ => None
  }

  /** The list that the exchange of thread t on `nodes_to_reclaim` expects. */
  function ExpectsList(s: State, t: Tid): Option<Addr> {
    if t < |s.th| && s.th[t].pc.BoxCas? && s.th[t].pc.box in s.boxes then Some(s.boxes[s.th[t].pc.box].next)
    else None
  }

  // A step writes no node, no entry and no locals but those of its thread.

  /** The locals of t, node a and entry b, if they are still there, are as before. */
  predicate Untouched(s: State, s': State, t: Tid, a: Addr, b: Addr) {
    && |s'.th| == |s.th| && (t < |s.th| ==> s'.th[t] == s.th[t])
    && (a != NULL && a in s.nodes && a in s'.nodes ==> s'.nodes[a] == s.nodes[a])
    && (b != NULL && b in s.boxes && b in s'.boxes ==> s'.boxes[b] == s.boxes[b])
  }

  predicate NotOf(pc: PC, a: Addr, b: Addr) {
    (a == NULL || (a != PrivateNode(pc) && a != HandNode(pc))) && (b == NULL || b != CarriedBox(pc))
  }

  lemma PushWrites(s: State, u: Tid, c: Choice, t: Tid, a: Addr, b: Addr)
    requires Enabled(s, u, c) && t != u && NotOf(s.th[u].pc, a, b) && InPush(s.th[u].pc)
    ensures Untouched(s, Step(s, u, c), t, a, b)
  {
  }

  lemma PopWrites(s: State, u: Tid, c: Choice, t: Tid, a: Addr, b: Addr)
    requires Enabled(s, u, c) && t != u && NotOf(s.th[u].pc, a, b) && InPop(s.th[u].pc)
    ensures Untouched(s, Step(s, u, c), t, a, b)
  {
  }

  lemma ScanWrites(s: State, u: Tid, c: Choice, t: Tid, a: Addr, b: Addr)
    requires Enabled(s, u, c) && t != u && NotOf(s.th[u].pc, a, b)
    requires s.th[u].pc.HandScan? || s.th[u].pc.BoxScan? || s.th[u].pc.BoxNew?
    ensures Untouched(s, Step(s, u, c), t, a, b)
  {
  }

  lemma ListWrites(s: State, u: Tid, c: Choice, t: Tid, a: Addr, b: Addr)
    requires Enabled(s, u, c) && t != u && NotOf(s.th[u].pc, a, b)
    requires s.th[u].pc.BoxLoad? || s.th[u].pc.BoxCas? || s.th[u].pc.Claim? || s.th[u].pc.Walk?
    ensures Untouched(s, Step(s, u, c), t, a, b)
  {
  }

  lemma RestWrites(s: State, u: Tid, c: Choice, t: Tid, a: Addr, b: Addr)
    requires Enabled(s, u, c) && t != u
    requires !InPush(s.th[u].pc) && !InPop(s.th[u].pc) && !InReclaim(s.th[u].pc)
    ensures Untouched(s, Step(s, u, c), t, a, b)
  {
  }

  lemma Writes(s: State, u: Tid, c: Choice, t: Tid, a: Addr, b: Addr)
    requires Enabled(s, u, c) && t != u && NotOf(s.th[u].pc, a, b)
    ensures Untouched(s, Step(s, u, c), t, a, b)
  {
    var pc := s.th[u].pc;
    if InPush(pc) {
      PushWrites(s, u, c, t, a, b);
    } else if InPop(pc) {
      PopWrites(s, u, c, t, a, b);
    } else if pc.HandScan? || pc.BoxScan? || pc.BoxNew? {
      ScanWrites(s, u, c, t, a, b);
    } else if InReclaim(pc) {
      ListWrites(s, u, c, t, a, b);
    } else {
      RestWrites(s, u, c, t, a, b);
    }
  }

  /** The node and the entry that a thread is about to publish, or NULL. */
  function Offered(pc: PC): Addr {
    if pc.PushCas? then pc.node else NULL
  }

  function OfferedBox(pc: PC): Addr {
    if pc.BoxCas? then pc.box else NULL
  }

  lemma OffersItsOwn(s: State, u: Tid, t: Tid)
    requires Inv(s) && t < |s.th| && u < |s.th| && t != u
    ensures NotOf(s.th[u].pc, Offered(s.th[t].pc), OfferedBox(s.th[t].pc))
  {
    assert ThreadOk(s, t) && ThreadOk(s, u);
  }

  lemma SameExpected(s: State, s': State, t: Tid)
    requires t < |s.th| && ThreadOk(s, t) && Untouched(s, s', t, Offered(s.th[t].pc), OfferedBox(s.th[t].pc))
    ensures Expects(s', t) in {None, Expects(s, t)} && ExpectsList(s', t) in {None, ExpectsList(s, t)}
  {
  }

  /** Another thread's step gives t nothing new to expect. */
  lemma OthersExpect(s: State, u: Tid, c: Choice, t: Tid)
    requires Inv(s) && Enabled(s, u, c) && t != u
    ensures var s' := Step(s, u, c);
      Expects(s', t) in {None, Expects(s, t)} && ExpectsList(s', t) in {None, ExpectsList(s, t)}
  {
    if t < |s.th| {
      assert ThreadOk(s, t);
      OffersItsOwn(s, u, t);
      Writes(s, u, c, t, Offered(s.th[t].pc), OfferedBox(s.th[t].pc));
      SameExpected(s, Step(s, u, c), t);
    } else {
      Writes(s, u, c, t, NULL, NULL);
    }
  }

  // What a thread's own step makes it expect is what it has loaded.

  lemma PushExpects(s: State, t: Tid, c: Choice)
    requires Enabled(s, t, c) && InPush(s.th[t].pc)
    ensures var s' := Step(s, t, c); Expects(s', t) in {None, Some(s'.head)} && ExpectsList(s', t) == None
  {
  }

  lemma ReadExpects(s: State, t: Tid, c: Choice)
    requires Enabled(s, t, c) && (s.th[t].pc.PopCheck? || s.th[t].pc.PopNext? || s.th[t].pc.PopCas?)
    ensures var s' := Step(s, t, c);
      Expects(s', t) in {None, Expects(s, t), Some(s'.head)} && ExpectsList(s', t) == None
  {
  }

  lemma PopExpects(s: State, t: Tid, c: Choice)
    requires Enabled(s, t, c) && InPop(s.th[t].pc)
    requires !s.th[t].pc.PopCheck? && !s.th[t].pc.PopNext? && !s.th[t].pc.PopCas?
    ensures Expects(Step(s, t, c), t) == None == ExpectsList(Step(s, t, c), t)
  {
  }

  lemma ReclaimExpects(s: State, t: Tid, c: Choice)
    requires Enabled(s, t, c) && InReclaim(s.th[t].pc)
    ensures var s' := Step(s, t, c); Expects(s', t) == None && ExpectsList(s', t) in {None, Some(s'.reclaim)}
  {
  }

  lemma RestExpects(s: State, t: Tid, c: Choice)
    requires Enabled(s, t, c) && !InPush(s.th[t].pc) && !InPop(s.th[t].pc) && !InReclaim(s.th[t].pc)
    ensures Expects(Step(s, t, c), t) == None == ExpectsList(Step(s, t, c), t)
  {
  }

  /** What a step newly makes t expect is what the cell holds after it. */
  lemma StepExpects(s: State, u: Tid, c: Choice, t: Tid)
    requires Inv(s) && Enabled(s, u, c)
    ensures var s' := Step(s, u, c);
      && Expects(s', t) in {None, Expects(s, t), Some(s'.head)}
      && ExpectsList(s', t) in {None, ExpectsList(s, t), Some(s'.reclaim)}
  {
    var pc := s.th[u].pc;
    if u != t {
      OthersExpect(s, u, c, t);
    } else if InPush(pc) {
      PushExpects(s, t, c);
    } else if pc.PopCheck? || pc.PopNext? || pc.PopCas? {
      ReadExpects(s, t, c);
    } else if InPop(pc) {
      PopExpects(s, t, c);
    } else if InReclaim(pc) {
      ReclaimExpects(s, t, c);
    } else {
      RestExpects(s, t, c);
    }
  }

  // What changes the cells.

  lemma PushMoves(s: State, u: Tid, c: Choice)
    requires Enabled(s, u, c) && InPush(s.th[u].pc)
    ensures Step(s, u, c).reclaim == s.reclaim
    ensures Step(s, u, c).head != s.head ==>
      var pc := s.th[u].pc; pc.PushCas? && Step(s, u, c) == Publish(s, u, pc.node, pc.v)
  {
  }

  lemma PopStays(s: State, u: Tid, c: Choice)
    requires Enabled(s, u, c) && InPop(s.th[u].pc) && !s.th[u].pc.PopCas?
    ensures Step(s, u, c).head == s.head && Step(s, u, c).reclaim == s.reclaim
  {
    match s.th[u].pc
    case SlotCas(_) =>
    case PopCheck(_) =>
    case _ =>
  }

  lemma PopMoves(s: State, u: Tid, c: Choice, top: Addr, next: Addr)
    requires Inv(s) && Enabled(s, u, c) && s.th[u].pc == PopCas(top, next)
    ensures var s' := Step(s, u, c);
      && s'.reclaim == s.reclaim
      && (s'.head != s.head ==> TakesEffect(Abstract(s), Abstract(s'), u) && Expects(s', u) == None)
  {
    assert ThreadOk(s, u);
    if s.head == top {
      UnlinkRefines(s, u, top, next);
    }
  }

  /** Thread u puts its entry on the shared list or takes the list. */
  ghost predicate Lists(s: State, s': State, u: Tid) {
    u < |s.th| &&
    match s.th[u].pc
    case BoxCas(b, _) => s'.pending == s.pending + [b]
    case Claim => s.pending != [] && s'.pending == []
    case _ => false
  }

  lemma ScanMoves(s: State, u: Tid, c: Choice)
    requires Enabled(s, u, c) && (s.th[u].pc.HandScan? || s.th[u].pc.BoxScan? || s.th[u].pc.BoxNew?)
    ensures Step(s, u, c).head == s.head && Step(s, u, c).reclaim == s.reclaim
  {
  }

  lemma ReclaimMoves(s: State, u: Tid, c: Choice)
    requires Inv(s) && Enabled(s, u, c)
    requires s.th[u].pc.BoxLoad? || s.th[u].pc.BoxCas? || s.th[u].pc.Claim? || s.th[u].pc.Walk?
    ensures Step(s, u, c).head == s.head
    ensures Step(s, u, c).reclaim != s.reclaim ==> Lists(s, Step(s, u, c), u) && ExpectsList(Step(s, u, c), u) == None
  {
  }

  lemma RestMoves(s: State, u: Tid, c: Choice)
    requires Enabled(s, u, c) && !InPush(s.th[u].pc) && !InPop(s.th[u].pc) && !InReclaim(s.th[u].pc)
    ensures Step(s, u, c).head == s.head && Step(s, u, c).reclaim == s.reclaim
  {
  }

  /** Only a push or a pop that takes effect moves the head, and only an entry put on the shared
      list or a claim of it moves the list; the thread expects nothing afterwards. */
  lemma CellMoves(s: State, u: Tid, c: Choice)
    requires Inv(s) && Enabled(s, u, c)
    ensures var s' := Step(s, u, c);
      && (s'.head != s.head ==> TakesEffect(Abstract(s), Abstract(s'), u) && Expects(s', u) == None)
      && (s'.reclaim != s.reclaim ==> Lists(s, s', u) && ExpectsList(s', u) == None)
  {
    var pc := s.th[u].pc;
    if InPush(pc) {
      PushMoves(s, u, c);
      if pc.PushCas? {
        PublishRefines(s, u, pc.node, pc.v);
      }
    } else if pc.PopCas? {
      PopMoves(s, u, c, pc.top, pc.next);
    } else if InPop(pc) {
      PopStays(s, u, c);
    } else if pc.HandScan? || pc.BoxScan? || pc.BoxNew? {
      ScanMoves(s, u, c);
    } else if InReclaim(pc) {
      ReclaimMoves(s, u, c);
    } else {
      RestMoves(s, u, c);
    }
  }

  // Lost exchanges.

  lemma NextExpects(s: State, s': State, t: Tid)
    requires Inv(s) && Next(s, s')
    ensures Expects(s', t) in {None, Expects(s, t), Some(s'.head)}
    ensures ExpectsList(s', t) in {None, ExpectsList(s, t), Some(s'.reclaim)}
  {
    var u, c :| Enabled(s, u, c) && Orderly(s, u) && s' == Step(s, u, c);
    StepExpects(s, u, c, t);
  }

  /** A cell that changes while t waits is changed by another thread. */
  ghost predicate MovedByOthers(s: State, s': State, t: Tid) {
    && (s'.head != s.head && Expects(s', t) != None ==>
          exists u :: u != t && TakesEffect(Abstract(s), Abstract(s'), u))
    && (s'.reclaim != s.reclaim && ExpectsList(s', t) != None ==> exists u :: u != t && Lists(s, s', u))
  }

  lemma NextMoves(s: State, s': State, t: Tid)
    requires Inv(s) && Next(s, s')
    ensures MovedByOthers(s, s', t)
  {
    var u, c :| Enabled(s, u, c) && Orderly(s, u) && s' == Step(s, u, c);
    CellMoves(s, u, c);
  }

  /** What step k of a run does to what thread t expects, and who moves the cells in it. */
  lemma StepOf(r: seq<State>, k: nat, t: Tid)
    requires Run(r) && k + 1 < |r|
    ensures Expects(r[k + 1], t) in {None, Expects(r[k], t), Some(r[k + 1].head)}
    ensures ExpectsList(r[k + 1], t) in {None, ExpectsList(r[k], t), Some(r[k + 1].reclaim)}
    ensures MovedByOthers(r[k], r[k + 1], t)
  {
    RunInv(r, k);
    StepAt(r, Init, Next, k);
    NextExpects(r[k], r[k + 1], t);
    NextMoves(r[k], r[k + 1], t);
  }

  lemma NothingAtFirst(r: seq<State>, t: Tid)
    requires Run(r)
    ensures Expects(r[0], t) == None == ExpectsList(r[0], t)
  {
  }

  /** Thread t has waited with what it expects of the head since before step k, in which a push or
      a pop of thread u took effect. */
  ghost predicate OvertakenBy(r: seq<State>, n: nat, t: Tid, k: nat, u: Tid) {
    && k < n < |r| && u != t && TakesEffect(Abstract(r[k]), Abstract(r[k + 1]), u)
    && Throughout(r, s => Expects(s, t), Expects(r[n], t), k, n)
  }

  lemma HeadOvertaken(r: seq<State>, n: nat, t: Tid, x: Addr)
    requires Run(r) && n < |r| && Expects(r[n], t) == Some(x) && r[n].head != x
    ensures exists k, u :: OvertakenBy(r, n, t, k, u)
  {
    var cell, expects := (s: State) => s.head, (s: State) => Expects(s, t);
    forall i, j {:trigger Loads(r[i], r[j], cell, expects)} | 0 <= i && j == i + 1 <= n
      ensures Loads(r[i], r[j], cell, expects)
    {
      StepOf(r, i, t);
    }
    NothingAtFirst(r, t);
    Overtaken(r, cell, expects, x, n);
    var k: nat :| k < n && cell(r[k]) != cell(r[k + 1]) && Throughout(r, expects, Some(x), k, n);
    StepOf(r, k, t);
    var u :| u != t && TakesEffect(Abstract(r[k]), Abstract(r[k + 1]), u);
    assert OvertakenBy(r, n, t, k, u);
  }

  /** Thread t has waited with what it expects of the list since before step k, in which thread u
      put something on the list or took it. */
  ghost predicate ListOvertakenBy(r: seq<State>, n: nat, t: Tid, k: nat, u: Tid) {
    && k < n < |r| && u != t && Lists(r[k], r[k + 1], u)
    && Throughout(r, s => ExpectsList(s, t), ExpectsList(r[n], t), k, n)
  }

  lemma ListOvertaken(r: seq<State>, n: nat, t: Tid, x: Addr)
    requires Run(r) && n < |r| && ExpectsList(r[n], t) == Some(x) && r[n].reclaim != x
    ensures exists k, u :: ListOvertakenBy(r, n, t, k, u)
  {
    var cell, expects := (s: State) => s.reclaim, (s: State) => ExpectsList(s, t);
    forall i, j {:trigger Loads(r[i], r[j], cell, expects)} | 0 <= i && j == i + 1 <= n
      ensures Loads(r[i], r[j], cell, expects)
    {
      StepOf(r, i, t);
    }
    NothingAtFirst(r, t);
    Overtaken(r, cell, expects, x, n);
    var k: nat :| k < n && cell(r[k]) != cell(r[k + 1]) && Throughout(r, expects, Some(x), k, n);
    StepOf(r, k, t);
    var u :| u != t && Lists(r[k], r[k + 1], u);
    assert ListOvertakenBy(r, n, t, k, u);
  }

  lemma WinsIfExpected(s: State, t: Tid, c: Choice)
    requires Inv(s) && Enabled(s, t, c) && (s.th[t].pc.PushCas? || s.th[t].pc.PopCas?)
    ensures Expects(s, t).Some?
    ensures TakesEffect(Abstract(s), Abstract(Step(s, t, c)), t) || Expects(s, t) != Some(s.head)
  {
    assert ThreadOk(s, t);
    if Expects(s, t) == Some(s.head) {
      match s.th[t].pc
      case PushCas(a, v) => PublishRefines(s, t, a, v);
      case PopCas(top, next) => UnlinkRefines(s, t, top, next);
    }
  }

  /** Lock-freedom of push and pop: an exchange on the head that does not take effect was overtaken,
      since its thread loaded what it expects, by another thread's that did. */
  lemma LostExchange(r: seq<State>, n: nat, t: Tid, c: Choice)
    requires Run(r) && n < |r| && Enabled(r[n], t, c) && (r[n].th[t].pc.PushCas? || r[n].th[t].pc.PopCas?)
    requires !TakesEffect(Abstract(r[n]), Abstract(Step(r[n], t, c)), t)
    ensures exists k, u :: OvertakenBy(r, n, t, k, u)
  {
    RunInv(r, n);
    WinsIfExpected(r[n], t, c);
    HeadOvertaken(r, n, t, Expects(r[n], t).value);
  }

  /** An entry not put on the shared list, other than by a spurious failure, was overtaken: since its
      thread loaded the list, another thread has put an entry on it or taken it. */
  lemma LostListExchange(r: seq<State>, n: nat, t: Tid)
    requires Run(r) && n < |r| && Enabled(r[n], t, Weak(false)) && r[n].th[t].pc.BoxCas?
    requires !Lists(r[n], Step(r[n], t, Weak(false)), t)
    ensures exists k, u :: ListOvertakenBy(r, n, t, k, u)
  {
    ListOvertaken(r, n, t, ExpectsList(r[n], t).value);
  }
}
