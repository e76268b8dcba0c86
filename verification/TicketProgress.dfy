/** A call on the ticket queue that is left to itself comes to its end, and when nobody is leaving, a
    false result means exactly a full or an empty queue. */
module TicketProgress {
  import opened Memory
  import opened Bits
  import opened QueueSpec
  import opened Runs
  import opened TicketQueue
  import opened TicketSafety
  import opened TicketTheorems
  import opened TicketRuns

  /** How many steps of its own a call is from its end, when nobody else moves: more with a position
      that the counter has passed. */
  function Rank(s: State, t: Tid): nat {
    if t >= |s.th| then 0 else
      match s.th[t]
      case EnqLoad(_, _, _) => 6
      case EnqSeq(_, pos, _) => if pos == s.enq then 5 else 8
      case EnqCas(_, pos, _) => if pos == s.enq then 4 else 7
      case EnqWrite(_, _, _) => 3
      case EnqStore(_, _, _) => 2
      case DeqLoad(_, _) => 6
      case DeqSeq(pos, _) => if pos == s.deq then 5 else 8
      case DeqCas(pos, _) => if pos == s.deq then 4 else 7
      case DeqRead(_, _, _) => 3
      case DeqStore(_, _, _) => 2
      case Return(_) => 1
      case Idle => 0
  }

  /** With the position of the counter in hand, a thread does not find its cell a turn ahead. */
  lemma NotAhead(s: State, pos: nat)
    requires Inv(s)
    ensures |s.cells| > 0
    ensures pos == s.enq ==> s.cells[pos % |s.cells|].sequence <= pos
    ensures pos == s.deq ==> s.cells[pos % |s.cells|].sequence <= pos + 1
  {
    CellTicket(s, pos);
  }

  lemma SeeEnqDescends(s: State, t: Tid, v: Value, pos: nat, b: Since)
    requires Inv(s) && t < |s.th| && s.th[t] == EnqSeq(v, pos, b)
    ensures Rank(SeeEnq(s, t, v, pos, b), t) < Rank(s, t)
  {
    NotAhead(s, pos);
  }

  lemma SeeDeqDescends(s: State, t: Tid, pos: nat, b: Since)
    requires Inv(s) && t < |s.th| && s.th[t] == DeqSeq(pos, b)
    ensures Rank(SeeDeq(s, t, pos, b), t) < Rank(s, t)
  {
    NotAhead(s, pos);
  }

  lemma EnqDescends(s: State, t: Tid, c: Choice)
    requires Shape(s) && Enabled(s, t, c) && c != Weak(true) && InEnq(s.th[t]) && !s.th[t].EnqSeq?
    ensures Rank(Step(s, t, c), t) < Rank(s, t)
  {
    match s.th[t]
    case EnqCas(_, _, _) =>
    case _ =>
  }

  lemma DeqDescends(s: State, t: Tid, c: Choice)
    requires Shape(s) && Enabled(s, t, c) && c != Weak(true) && InDeq(s.th[t]) && !s.th[t].DeqSeq?
    ensures Rank(Step(s, t, c), t) < Rank(s, t)
  {
    match s.th[t]
    case DeqCas(_, _) =>
    case _ =>
  }

  /** Left to itself, a call comes nearer to its end with every step that is not a spurious failure. */
  lemma AloneDescends(s: State, t: Tid, c: Choice)
    requires Inv(s) && Enabled(s, t, c) && c != Weak(true) && !s.th[t].Idle?
    ensures Rank(Step(s, t, c), t) < Rank(s, t)
  {
    var pc := s.th[t];
    if pc.EnqSeq? {
      SeeEnqDescends(s, t, pc.v, pc.pos, pc.b);
    } else if pc.DeqSeq? {
      SeeDeqDescends(s, t, pc.pos, pc.b);
    } else if InEnq(pc) {
      EnqDescends(s, t, c);
    } else if InDeq(pc) {
      DeqDescends(s, t, c);
    }
  }

  /** The step from s to s' is one of thread t in a call, and no spurious failure. */
  ghost predicate Alone(t: Tid, s: State, s': State) {
    && PowerOfTwo(|s.cells|) && |s.cur| == |s.cells|
    && exists c :: Enabled(s, t, c) && c != Weak(true) && !s.th[t].Idle? && s' == Step(s, t, c)
  }

  /** Thread t is in a call, and nobody else moves. */
  ghost predicate AloneRun(r: seq<State>, t: Tid) {
    IsRun(r, s => Inv(s) && t < |s.th|, (s, s') => Alone(t, s, s'))
  }

  lemma AloneLowers(s: State, s': State, t: Tid)
    requires Inv(s) && t < |s.th| && Alone(t, s, s')
    ensures Inv(s') && |s'.th| == |s.th| && Rank(s', t) < Rank(s, t)
  {
    var c :| Enabled(s, t, c) && c != Weak(true) && !s.th[t].Idle? && s' == Step(s, t, c);
    KeepStep(s, t, c);
    AloneDescends(s, t, c);
    CountersGrow(s, t, c);
  }

  /** Whatever the others have left undone, a thread that runs alone, without spurious failures, ends
      its call within as many steps as its rank, at most eight. */
  lemma AloneReturns(r: seq<State>, t: Tid)
    requires AloneRun(r, t)
    ensures var first, last := r[0], r[|r| - 1];
      && t < |last.th| && |r| - 1 + Rank(last, t) <= Rank(first, t) <= 8
      && (Rank(last, t) == 0 <==> last.th[t].Idle?)
  {
    var inv, step := (s: State) => Inv(s) && t < |s.th|, (s: State, s': State) => Alone(t, s, s');
    forall s, s' | inv(s) && step(s, s')
      ensures inv(s') && Rank(s', t) < Rank(s, t)
    {
      AloneLowers(s, s', t);
    }
    Descent(r, inv, step, s => Rank(s, t));
  }

  /** While no value is on its way out, enqueue returns false exactly on a full queue; while none is on
      its way in, dequeue returns false exactly on an empty one. */
  lemma FalseWhenQuiet(s: State)
    requires Inv(s)
    ensures s.cons == map[] ==> (NoRoom(s, s.enq) <==> |Abstract(s).queue| == |s.cells|)
    ensures s.prod == map[] ==> (Unpublished(s, s.deq) <==> Abstract(s).queue == [])
  {
  }
}
