/** The exchange loops of the counting stack are lock-free, on the head and on the pending list. */
module CounterProgress {
  import opened Memory
  import opened Runs
  import opened StackSpec
  import opened LinkedStack
  import opened CounterStack
  import opened CounterSafety
  import opened CounterTheorems

  /** The head that the exchange of thread t in push or pop expects. */
  function Expects(s: State, t: Tid): Option<Addr> {
    if t >= |s.th| then None else
      match s.th[t].pc
      case PushCas(a, _) => if a in s.nodes then Some(s.nodes[a].next) else None
      case PopNext(top) => Some(top)
      case PopCas(top, _) => Some(top)
      case _ => None
  }

  /** The pending list that the exchange of thread t expects: the value it loaded into the last
      node of the list it puts back. */
  function ExpectsPending(s: State, t: Tid): Option<Addr> {
    if t >= |s.th| then None else
      match s.th[t].pc
      case ChainStore(_, _, _, val) => Some(val)
      case ChainCas(_, _, last) => if last in s.nodes then Some(s.nodes[last].next) else None
      case _ => None
  }

  /** The node that holds what a thread expects, or NULL. */
  function Offered(pc: PC): Addr {
    match pc
    case PushCas(a, _) => a
    case ChainCas(_, _, last) => last
    case _ => NULL
  }

  /** The node that a thread's next step writes, or NULL. */
  function Written(pc: PC): Addr {
    match pc
    case PushLoad(a, _) => a
    case PushCas(a, _) => a
    case Swap(x, _) => x
    case ChainStore(_, _, last, _) => last
    case _ => NULL
  }

  /** Node `a`, if it is there before and after, is as before. */
  predicate Untouched(s: State, s': State, a: Addr) {
    a != NULL && a in s.nodes && a in s'.nodes ==> s'.nodes[a] == s.nodes[a]
  }

  // What the step of a thread writes, and what it expects afterwards.

  lemma PushExpects(s: State, u: Tid, c: Choice, a: Addr)
    requires Enabled(s, u, c) && InPush(s.th[u].pc) && (a == NULL || a != Written(s.th[u].pc))
    ensures var s' := Step(s, u, c);
      && Untouched(s, s', a)
      && Expects(s', u) in {None, Some(s'.head)} && ExpectsPending(s', u) == None
  {
    match s.th[u].pc
    case PushNew(_) =>
    case PushLoad(_, _) =>
    case _ =>
  }

  lemma PopExpects(s: State, u: Tid, c: Choice, a: Addr)
    requires Enabled(s, u, c) && InPop(s.th[u].pc) && (a == NULL || a != Written(s.th[u].pc))
    ensures var s' := Step(s, u, c);
      && Untouched(s, s', a)
      && Expects(s', u) in {None, Expects(s, u), Some(s'.head)} && ExpectsPending(s', u) == None
  {
    match s.th[u].pc
    case Enter =>
    case PopCas(_, _) =>
    case _ =>
  }

  lemma ListExpects(s: State, u: Tid, c: Choice, a: Addr)
    requires Enabled(s, u, c) && InList(s.th[u].pc) && (a == NULL || a != Written(s.th[u].pc))
    ensures var s' := Step(s, u, c);
      && Untouched(s, s', a)
      && Expects(s', u) == None && ExpectsPending(s', u) in {None, ExpectsPending(s, u), Some(s'.pend)}
  {
    match s.th[u].pc
    case FreeNode(_, _, _) =>
    case ChainStore(_, _, _, _) =>
    case ChainCas(_, _, _) =>
    case _ =>
  }

  lemma RestExpects(s: State, u: Tid, c: Choice, a: Addr)
    requires Enabled(s, u, c) && !InPush(s.th[u].pc) && !InPop(s.th[u].pc) && !InList(s.th[u].pc)
    ensures var s' := Step(s, u, c);
      && Untouched(s, s', a)
      && Expects(s', u) == None && ExpectsPending(s', u) in {None, Some(s'.pend)}
  {
    match s.th[u].pc
    case Test(_) =>
    case Exchange(_) =>
    case _ =>
  }

  lemma OwnExpects(s: State, u: Tid, c: Choice, a: Addr)
    requires Enabled(s, u, c) && (a == NULL || a != Written(s.th[u].pc))
    ensures var s' := Step(s, u, c);
      && Untouched(s, s', a)
      && Expects(s', u) in {None, Expects(s, u), Some(s'.head)}
      && ExpectsPending(s', u) in {None, ExpectsPending(s, u), Some(s'.pend)}
  {
    if InPush(s.th[u].pc) {
      PushExpects(s, u, c, a);
    } else if InPop(s.th[u].pc) {
      PopExpects(s, u, c, a);
    } else if InList(s.th[u].pc) {
      ListExpects(s, u, c, a);
    } else {
      RestExpects(s, u, c, a);
    }
  }

  /** Nobody else writes the node that holds what t expects. */
  lemma NotWritten(s: State, u: Tid, t: Tid)
    requires Inv(s) && t < |s.th| && u < |s.th| && t != u
    ensures Offered(s.th[t].pc) != NULL ==> Offered(s.th[t].pc) in s.nodes && Offered(s.th[t].pc) != Written(s.th[u].pc)
  {
    assert ThreadOk(s, t) && ThreadOk(s, u);
  }

  /** What a step newly makes t expect is what the cell holds after it. */
  lemma StepExpects(s: State, u: Tid, c: Choice, t: Tid)
    requires Inv(s) && Enabled(s, u, c)
    ensures var s' := Step(s, u, c);
      && Expects(s', t) in {None, Expects(s, t), Some(s'.head)}
      && ExpectsPending(s', t) in {None, ExpectsPending(s, t), Some(s'.pend)}
  {
    if t == u || t >= |s.th| {
      OwnExpects(s, u, c, NULL);
    } else {
      OnlyOwnLocals(s, u, c, t);
      NotWritten(s, u, t);
      OwnExpects(s, u, c, Offered(s.th[t].pc));
    }
  }

  // What changes the cells.

  /** Thread u puts the list it claimed in front of the pending one, or claims that. */
  ghost predicate Shelves(s: State, s': State, u: Tid) {
    u < |s.th| &&
    match s.th[u].pc
    case ChainCas(_, _, _) => s.th[u].claimed != [] && s'.waiting == s.waiting + s.th[u].claimed
    case Exchange(_) => s.waiting != [] && s'.waiting == []
    case _ => false
  }

  lemma PushMoves(s: State, u: Tid, c: Choice)
    requires Enabled(s, u, c) && InPush(s.th[u].pc)
    ensures var s' := Step(s, u, c);
      && s'.pend == s.pend
      && (s'.head != s.head ==> TakesEffect(Abstract(s), Abstract(s'), u) && Expects(s', u) == None)
  {
    match s.th[u].pc
    case PushCas(a, v) => PublishRefines(s, u, a, v);
    case _ =>
  }

  lemma PopMoves(s: State, u: Tid, c: Choice)
    requires StackOk(s.head, s.stack, s.vals, s.nodes, s.own) && Enabled(s, u, c) && ThreadOk(s, u)
    requires InPop(s.th[u].pc)
    ensures var s' := Step(s, u, c);
      && s'.pend == s.pend
      && (s'.head != s.head ==> TakesEffect(Abstract(s), Abstract(s'), u) && Expects(s', u) == None)
  {
    match s.th[u].pc
    case Enter =>
    case PopCas(top, next) =>
      if s.head == top {
        UnlinkRefines(s, u, top, next);
      }
    case _ =>
  }

  lemma ListMoves(s: State, u: Tid, c: Choice)
    requires Inv(s) && Enabled(s, u, c) && InList(s.th[u].pc)
    ensures var s' := Step(s, u, c);
      && s'.head == s.head
      && (s'.pend != s.pend ==> Shelves(s, s', u) && ExpectsPending(s', u) == None)
  {
    assert ThreadOk(s, u);
    match s.th[u].pc
    case FreeNode(_, _, _) =>
    case ChainStore(_, _, _, _) =>
    case ChainCas(_, _, _) =>
    case _ =>
  }

  lemma RestMoves(s: State, u: Tid, c: Choice)
    requires ListOk(s.pend, s.waiting, s.nodes, s.own)
    requires Enabled(s, u, c) && !InPush(s.th[u].pc) && !InPop(s.th[u].pc) && !InList(s.th[u].pc)
    ensures var s' := Step(s, u, c);
      && s'.head == s.head
      && (s'.pend != s.pend ==> Shelves(s, s', u) && ExpectsPending(s', u) == None)
  {
    match s.th[u].pc
    case Test(_) =>
    case Exchange(_) =>
    case _ =>
  }

  lemma CellMoves(s: State, u: Tid, c: Choice)
    requires Inv(s) && Enabled(s, u, c)
    ensures var s' := Step(s, u, c);
      && (s'.head != s.head ==> TakesEffect(Abstract(s), Abstract(s'), u) && Expects(s', u) == None)
      && (s'.pend != s.pend ==> Shelves(s, s', u) && ExpectsPending(s', u) == None)
  {
    assert ThreadOk(s, u);
    if InPush(s.th[u].pc) {
      PushMoves(s, u, c);
    } else if InPop(s.th[u].pc) {
      PopMoves(s, u, c);
    } else if InList(s.th[u].pc) {
      ListMoves(s, u, c);
    } else {
      RestMoves(s, u, c);
    }
  }

  // Lost exchanges.

  lemma NextExpects(s: State, s': State, t: Tid)
    requires Inv(s) && Next(s, s')
    ensures Expects(s', t) in {None, Expects(s, t), Some(s'.head)}
    ensures ExpectsPending(s', t) in {None, ExpectsPending(s, t), Some(s'.pend)}
  {
    var u, c :| Enabled(s, u, c) && s' == Step(s, u, c);
    StepExpects(s, u, c, t);
  }

  /** A cell that changes while t waits is changed by another thread. */
  ghost predicate MovedByOthers(s: State, s': State, t: Tid) {
    && (s'.head != s.head && Expects(s', t) != None ==>
          exists u :: u != t && TakesEffect(Abstract(s), Abstract(s'), u))
    && (s'.pend != s.pend && ExpectsPending(s', t) != None ==> exists u :: u != t && Shelves(s, s', u))
  }

  lemma NextMoves(s: State, s': State, t: Tid)
    requires Inv(s) && Next(s, s')
    ensures MovedByOthers(s, s', t)
  {
    var u, c :| Enabled(s, u, c) && s' == Step(s, u, c);
    CellMoves(s, u, c);
  }

  /** What step k of a run does to what thread t expects, and who moves the cells in it. */
  lemma StepOf(r: seq<State>, k: nat, t: Tid)
    requires Run(r) && k + 1 < |r|
    ensures Expects(r[k + 1], t) in {None, Expects(r[k], t), Some(r[k + 1].head)}
    ensures ExpectsPending(r[k + 1], t) in {None, ExpectsPending(r[k], t), Some(r[k + 1].pend)}
    ensures MovedByOthers(r[k], r[k + 1], t)
  {
    RunInv(r, k);
    StepAt(r, Init, Next, k);
    NextExpects(r[k], r[k + 1], t);
    NextMoves(r[k], r[k + 1], t);
  }

  lemma NothingAtFirst(r: seq<State>, t: Tid)
    requires Run(r)
    ensures Expects(r[0], t) == None == ExpectsPending(r[0], t)
  {
  }

  /** Thread t has waited with what it expects of the head since before step k, in which a push or
      a pop of thread u took effect. */
  ghost predicate OvertakenBy(r: seq<State>, n: nat, t: Tid, k: nat, u: Tid) {
    && k < n < |r| && u != t && TakesEffect(Abstract(r[k]), Abstract(r[k + 1]), u)
    && Throughout(r, s => Expects(s, t), Expects(r[n], t), k, n)
  }

  lemma HeadOvertaken(r: seq<State>, n: nat, t: Tid, x: Addr)
    requires Run(r) && n < |r| && Expects(r[n], t) == Some(x) && r[n].head != x
    ensures exists k, u :: OvertakenBy(r, n, t, k, u)
  {
    var cell, expects := (s: State) => s.head, (s: State) => Expects(s, t);
    forall i, j {:trigger Loads(r[i], r[j], cell, expects)} | 0 <= i && j == i + 1 <= n
      ensures Loads(r[i], r[j], cell, expects)
    {
      StepOf(r, i, t);
    }
    NothingAtFirst(r, t);
    Overtaken(r, cell, expects, x, n);
    var k: nat :| k < n && cell(r[k]) != cell(r[k + 1]) && Throughout(r, expects, Some(x), k, n);
    StepOf(r, k, t);
    var u :| u != t && TakesEffect(Abstract(r[k]), Abstract(r[k + 1]), u);
    assert OvertakenBy(r, n, t, k, u);
  }

  /** Thread t has waited with what it expects of the list since before step k, in which thread u
      put something on the list or took it. */
  ghost predicate ListOvertakenBy(r: seq<State>, n: nat, t: Tid, k: nat, u: Tid) {
    && k < n < |r| && u != t && Shelves(r[k], r[k + 1], u)
    && Throughout(r, s => ExpectsPending(s, t), ExpectsPending(r[n], t), k, n)
  }

  lemma ListOvertaken(r: seq<State>, n: nat, t: Tid, x: Addr)
    requires Run(r) && n < |r| && ExpectsPending(r[n], t) == Some(x) && r[n].pend != x
    ensures exists k, u :: ListOvertakenBy(r, n, t, k, u)
  {
    var cell, expects := (s: State) => s.pend, (s: State) => ExpectsPending(s, t);
    forall i, j {:trigger Loads(r[i], r[j], cell, expects)} | 0 <= i && j == i + 1 <= n
      ensures Loads(r[i], r[j], cell, expects)
    {
      StepOf(r, i, t);
    }
    NothingAtFirst(r, t);
    Overtaken(r, cell, expects, x, n);
    var k: nat :| k < n && cell(r[k]) != cell(r[k + 1]) && Throughout(r, expects, Some(x), k, n);
    StepOf(r, k, t);
    var u :| u != t && Shelves(r[k], r[k + 1], u);
    assert ListOvertakenBy(r, n, t, k, u);
  }

  lemma WinsIfExpected(s: State, t: Tid, c: Choice)
    requires Inv(s) && Enabled(s, t, c) && (s.th[t].pc.PushCas? || s.th[t].pc.PopCas?) && c != Weak(true)
    ensures Expects(s, t).Some?
    ensures TakesEffect(Abstract(s), Abstract(Step(s, t, c)), t) || Expects(s, t) != Some(s.head)
  {
    assert ThreadOk(s, t);
    if Expects(s, t) == Some(s.head) {
      match s.th[t].pc
      case PushCas(a, v) => PublishRefines(s, t, a, v);
      case PopCas(top, next) => UnlinkRefines(s, t, top, next);
    }
  }

  /** Lock-freedom of push and pop: an exchange on the head that does not take effect, other than by
      a spurious failure, was overtaken by another thread's since its thread loaded what it expects. */
  lemma LostExchange(r: seq<State>, n: nat, t: Tid, c: Choice)
    requires Run(r) && n < |r| && Enabled(r[n], t, c) && (r[n].th[t].pc.PushCas? || r[n].th[t].pc.PopCas?)
    requires c != Weak(true) && !TakesEffect(Abstract(r[n]), Abstract(Step(r[n], t, c)), t)
    ensures exists k, u :: OvertakenBy(r, n, t, k, u)
  {
    RunInv(r, n);
    WinsIfExpected(r[n], t, c);
    HeadOvertaken(r, n, t, Expects(r[n], t).value);
  }

  /** A list that is not put back was overtaken: since its thread loaded the pending list, another
      thread has put one in front of it or claimed it. */
  lemma LostListExchange(r: seq<State>, n: nat, t: Tid)
    requires Run(r) && n < |r| && Enabled(r[n], t, Plain) && r[n].th[t].pc.ChainCas?
    requires !Shelves(r[n], Step(r[n], t, Plain), t)
    ensures exists k, u :: ListOvertakenBy(r, n, t, k, u)
  {
    RunInv(r, n);
    assert ThreadOk(r[n], t);
    ListOvertaken(r, n, t, ExpectsPending(r[n], t).value);
  }
}
