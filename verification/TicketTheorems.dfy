/** What the invariant of the ticket queue gives: linearizability, cell ownership, the cycle of
    the sequence numbers, the exact meaning of a false result, the retry bound, ticket order. */
module TicketTheorems {
  import opened Memory
  import opened Bits
  import opened QueueSpec
  import opened TicketQueue
  import opened TicketSafety

  predicate InEnq(pc: PC) {
    pc.EnqLoad? || pc.EnqSeq? || pc.EnqCas? || pc.EnqWrite? || pc.EnqStore?
  }

  predicate InDeq(pc: PC) {
    pc.DeqLoad? || pc.DeqSeq? || pc.DeqCas? || pc.DeqRead? || pc.DeqStore?
  }

  // Every step keeps the invariant.

  lemma KeepEnq(s: State, t: Tid, c: Choice)
    requires Inv(s) && Enabled(s, t, c) && InEnq(s.th[t])
    ensures Inv(Step(s, t, c))
  {
    assert ThreadOk(s, t);
    match s.th[t]
    case EnqLoad(v, _, b) => KeepLocal(s, t, EnqSeq(v, s.enq, b));
    case EnqSeq(v, pos, b) => KeepSeeEnq(s, t, v, pos, b);
    case EnqCas(v, pos, b) =>
      if s.enq == pos && !c.fails {
        KeepClaimEnq(s, t, v, pos, b);
      } else {
        KeepLocal(s, t, CasEnq(s, t, v, pos, b, c.fails).th[t]);
      }
    case EnqWrite(v, pos, b) => KeepWriteEnq(s, t, v, pos, b);
    case EnqStore(v, pos, b) => KeepStoreEnq(s, t, v, pos, b);
  }

  lemma KeepDeq(s: State, t: Tid, c: Choice)
    requires Inv(s) && Enabled(s, t, c) && InDeq(s.th[t])
    ensures Inv(Step(s, t, c))
  {
    assert ThreadOk(s, t);
    match s.th[t]
    case DeqLoad(_, b) => KeepLocal(s, t, DeqSeq(s.deq, b));
    case DeqSeq(pos, b) => KeepSeeDeq(s, t, pos, b);
    case DeqCas(pos, b) =>
      if s.deq == pos && !c.fails {
        KeepClaimDeq(s, t, pos, b);
      } else {
        KeepLocal(s, t, CasDeq(s, t, pos, b, c.fails).th[t]);
      }
    case DeqRead(pos, lin, b) => KeepReadDeq(s, t, pos, lin, b);
    case DeqStore(pos, v, b) => KeepStoreDeq(s, t, pos, v, b);
  }

  lemma KeepStep(s: State, t: Tid, c: Choice)
    requires Inv(s) && Enabled(s, t, c)
    ensures Inv(Step(s, t, c))
  {
    if InEnq(s.th[t]) {
      KeepEnq(s, t, c);
    } else if InDeq(s.th[t]) {
      KeepDeq(s, t, c);
    } else {
      KeepLocal(s, t, Step(s, t, c).th[t]);
    }
  }

  // Linearizability.

  /** What a thread's place in the code says about its operation: both operations take effect at
      their compare-and-exchange. */
  function OpOf(pc: PC): Op {
    match pc
    case Idle => Ready
    case EnqLoad(v, _, _) => Called(Put(v, false))
    case EnqSeq(v, _, _) => Called(Put(v, false))
    case EnqCas(v, _, _) => Called(Put(v, false))
    case EnqWrite(_, _, _) => Finished(Accepted)
    case EnqStore(_, _, _) => Finished(Accepted)
    case DeqRead(_, lin, _) => Finished(Got(lin))
    case DeqStore(_, v, _) => Finished(Got(v))
    case Return(r) => Finished(r)
    case _ => Called(Take(false))
  }

  /** The queue holds the values of the tickets claimed and not yet taken. */
  function Abstract(s: State): Object {
    Object(|s.cells|, if s.deq <= |s.vals| then s.vals[s.deq..] else [],
           seq(|s.th|, t requires 0 <= t < |s.th| => OpOf(s.th[t])))
  }

  lemma AbstractAt(s: State, s': State, t: Tid, pc: PC)
    requires t < |s.th| && s'.th == s.th[t := pc]
    ensures Abstract(s').ops == Abstract(s).ops[t := OpOf(pc)]
  {
  }

  lemma Stutters(s: State, s': State, t: Tid, pc: PC)
    requires t < |s.th| && s'.th == s.th[t := pc] && OpOf(pc) == OpOf(s.th[t])
    requires s'.vals == s.vals && s'.deq == s.deq && |s'.cells| == |s.cells|
    ensures Abstract(s') == Abstract(s)
  {
    AbstractAt(s, s', t, pc);
  }

  /** The abstract queue is what the cells hold: the cell of every ticket in it serves that ticket,
      and holds its value from the moment its producer has published it. */
  lemma QueueIsInCells(s: State, p: nat)
    requires Inv(s) && s.deq <= p < s.enq
    ensures p % |s.cells| < |s.cells| && s.cur[p % |s.cells|] == p
    ensures p - s.deq < |Abstract(s).queue| && Abstract(s).queue[p - s.deq] == s.vals[p]
    ensures p in s.prod <==> s.cells[p % |s.cells|].sequence == p
    ensures p !in s.prod ==> s.cells[p % |s.cells|] == Cell(p + 1, s.vals[p])
  {
    CellTicket(s, p);
  }

  // What a false result means.

  /** Ticket p has been claimed and its cell has not been released for the next turn. */
  predicate Unfinished(s: State, p: nat) {
    p < s.enq && (s.deq <= p || p in s.cons)
  }

  /** Ticket pos is the next to put, and the ticket one turn earlier is not finished. */
  predicate NoRoom(s: State, pos: nat) {
    s.enq == pos && pos >= |s.cells| && Unfinished(s, pos - |s.cells|)
  }

  /** No value of ticket p can be read yet. */
  predicate Unpublished(s: State, p: nat) {
    p >= s.enq || p in s.prod
  }

  /** `enqueue` gives up exactly when, at its load of the sequence number, its position is the
      current one and the ticket one turn earlier has not been fully dequeued. */
  lemma EnqueueFalse(s: State, t: Tid, v: Value, pos: nat, b: Since)
    requires Inv(s) && t < |s.th| && s.th[t] == EnqSeq(v, pos, b)
    ensures SeeEnq(s, t, v, pos, b).th[t] == Return(Declined) <==> NoRoom(s, pos)
  {
    CellTicket(s, pos);
    assert ThreadOk(s, t);
    var c := s.cur[pos % |s.cells|];
    if pos >= |s.cells| {
      NextTurn(pos - |s.cells|, |s.cells|);
      if c < pos {
        assert c + |s.cells| <= pos;
      }
    }
  }

  /** `dequeue` gives up exactly when, at its load of the sequence number, its position is the
      current one and the value of that ticket is not published, whatever later tickets are. */
  lemma DequeueFalse(s: State, t: Tid, pos: nat, b: Since)
    requires Inv(s) && t < |s.th| && s.th[t] == DeqSeq(pos, b)
    ensures SeeDeq(s, t, pos, b).th[t] == Return(Declined) <==> s.deq == pos && Unpublished(s, pos)
  {
    CellTicket(s, pos);
    assert ThreadOk(s, t);
  }

  lemma PutMayDecline(s: State, pos: nat, v: Value)
    requires Inv(s) && NoRoom(s, pos)
    ensures MayDecline(Abstract(s), Put(v, false))
  {
    if s.deq > pos - |s.cells| {
      assert Leaving(Abstract(s), s.cons[pos - |s.cells|], false);
    }
  }

  /** A put that is declined finds a full queue, or the take of the ticket one turn earlier has
      not returned. */
  lemma SeeEnqRefines(s: State, t: Tid, v: Value, pos: nat, b: Since)
    requires Inv(s) && t < |s.th| && s.th[t] == EnqSeq(v, pos, b)
    ensures StepBy(Abstract(s), Abstract(SeeEnq(s, t, v, pos, b)), t, None)
  {
    var s', o := SeeEnq(s, t, v, pos, b), Abstract(s);
    AbstractAt(s, s', t, s'.th[t]);
    if s'.th[t] == Return(Declined) {
      EnqueueFalse(s, t, v, pos, b);
      PutMayDecline(s, pos, v);
      assert Declines(o, Abstract(s'), t);
    } else {
      Stutters(s, s', t, s'.th[t]);
    }
  }

  /** A take that is declined finds an empty queue, or the put of its ticket has not returned. */
  lemma SeeDeqRefines(s: State, t: Tid, pos: nat, b: Since)
    requires Inv(s) && t < |s.th| && s.th[t] == DeqSeq(pos, b)
    ensures StepBy(Abstract(s), Abstract(SeeDeq(s, t, pos, b)), t, None)
  {
    var s', o := SeeDeq(s, t, pos, b), Abstract(s);
    AbstractAt(s, s', t, s'.th[t]);
    if s'.th[t] == Return(Declined) {
      DequeueFalse(s, t, pos, b);
      if pos in s.prod {
        assert Leaving(o, s.prod[pos], true);
      }
      assert Declines(o, Abstract(s'), t);
    } else {
      Stutters(s, s', t, s'.th[t]);
    }
  }

  /** A winning enqueue appends its value to a queue that has room. */
  lemma ClaimEnqRefines(s: State, t: Tid, v: Value, pos: nat, b: Since)
    requires t < |s.th| && s.th[t] == EnqCas(v, pos, b) && s.enq == pos == |s.vals|
    requires s.deq <= s.enq < s.deq + |s.cells|
    ensures TakesEffect(Abstract(s), Abstract(ClaimEnq(s, t, v, pos, b)), t)
  {
    AbstractAt(s, ClaimEnq(s, t, v, pos, b), t, EnqWrite(v, pos, b));
  }

  /** A winning dequeue takes the oldest value. */
  lemma ClaimDeqRefines(s: State, t: Tid, pos: nat, b: Since)
    requires t < |s.th| && s.th[t] == DeqCas(pos, b) && s.deq == pos < |s.vals|
    ensures TakesEffect(Abstract(s), Abstract(ClaimDeq(s, t, pos, b)), t)
  {
    AbstractAt(s, ClaimDeq(s, t, pos, b), t, DeqRead(pos, s.vals[pos], b));
  }

  lemma EnqStutters(s: State, t: Tid, c: Choice)
    requires Shape(s) && Enabled(s, t, c) && InEnq(s.th[t]) && !s.th[t].EnqSeq?
    requires s.th[t].EnqCas? ==> s.enq != s.th[t].pos || c.fails
    ensures Abstract(s) == Abstract(Step(s, t, c))
  {
    Stutters(s, Step(s, t, c), t, Step(s, t, c).th[t]);
  }

  lemma DeqStutters(s: State, t: Tid, c: Choice)
    requires Shape(s) && Enabled(s, t, c) && (s.th[t].DeqLoad? || s.th[t].DeqCas? || s.th[t].DeqStore?)
    requires s.th[t].DeqCas? ==> s.deq != s.th[t].pos || c.fails
    ensures Abstract(s) == Abstract(Step(s, t, c))
  {
    Stutters(s, Step(s, t, c), t, Step(s, t, c).th[t]);
  }

  lemma ReadStutters(s: State, t: Tid, pos: nat, lin: Value, b: Since)
    requires Inv(s) && t < |s.th| && s.th[t] == DeqRead(pos, lin, b)
    ensures Abstract(s) == Abstract(ReadDeq(s, t, pos, b))
  {
    KeepReadDeq(s, t, pos, lin, b);
    Stutters(s, ReadDeq(s, t, pos, b), t, DeqStore(pos, lin, b));
  }

  lemma EdgeRefines(s: State, t: Tid, c: Choice)
    requires Shape(s) && Enabled(s, t, c) && (s.th[t].Idle? || s.th[t].Return?)
    ensures if s.th[t].Idle? then Begins(Abstract(s), Abstract(Step(s, t, c)), t, c.call)
            else Returns(Abstract(s), Abstract(Step(s, t, c)), t)
  {
    AbstractAt(s, Step(s, t, c), t, Step(s, t, c).th[t]);
  }

  /** Every step of the code is one step of the atomic queue, or none; the first is the call made. */
  lemma StepRefines(s: State, t: Tid, c: Choice)
    requires Inv(s) && Enabled(s, t, c)
    ensures StepBy(Abstract(s), Abstract(Step(s, t, c)), t, CallOf(c))
  {
    var pc := s.th[t];
    if pc.EnqSeq? {
      SeeEnqRefines(s, t, pc.v, pc.pos, pc.b);
    } else if pc.DeqSeq? {
      SeeDeqRefines(s, t, pc.pos, pc.b);
    } else if pc.EnqCas? && s.enq == pc.pos && !c.fails {
      EnqSeenIsCurrent(s, t);
      ClaimEnqRefines(s, t, pc.v, pc.pos, pc.b);
    } else if pc.DeqCas? && s.deq == pc.pos && !c.fails {
      DeqSeenIsCurrent(s, t);
      ClaimDeqRefines(s, t, pc.pos, pc.b);
    } else if InEnq(pc) {
      EnqStutters(s, t, c);
    } else if pc.DeqRead? {
      ReadStutters(s, t, pc.pos, pc.lin, pc.b);
    } else if InDeq(pc) {
      DeqStutters(s, t, c);
    } else {
      EdgeRefines(s, t, c);
    }
  }
}
