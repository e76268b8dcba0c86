/** The invariant of the ticket queue and its preservation by every step. */
module TicketSafety {
  import opened Memory
  import opened Bits
  import opened QueueSpec
  import opened TicketQueue

  predicate Writing(pc: PC) { pc.EnqWrite? || pc.EnqStore? }
  predicate Reading(pc: PC) { pc.DeqRead? || pc.DeqStore? }

  /** Cell i serves ticket c: it is empty and waits for the producer of c, or full and waits
      for the consumer of c. */
  ghost predicate CellOk(s: State, i: nat)
    requires i < |s.cells| == |s.cur| && |s.vals| == s.enq
  {
    var c, x, n := s.cur[i], s.cells[i].sequence, |s.cells|;
    && c % n == i && c < s.deq + n && s.enq <= c + n && (x == c || x == c + 1)
    && (x == c ==> s.deq <= c && (c < s.enq <==> c in s.prod) && c !in s.cons)
    && (x == c + 1 ==>
          c < s.enq && c !in s.prod && (c < s.deq <==> c in s.cons) && s.cells[i].data == s.vals[c])
  }

  ghost predicate Shape(s: State) {
    && |s.cells| >= 2 && PowerOfTwo(|s.cells|) && |s.cur| == |s.cells| && |s.vals| == s.enq
    && s.deq <= s.enq <= s.deq + |s.cells|
  }

  ghost predicate CellsOk(s: State)
    requires Shape(s)
  {
    forall i {:trigger s.cells[i]} :: 0 <= i < |s.cells| ==> CellOk(s, i)
  }

  /** A ticket in somebody's hands is the one its cell serves. */
  ghost predicate HandsOk(s: State)
    requires Shape(s)
  {
    && (forall p {:trigger s.prod[p]} {:trigger p in s.prod} :: p in s.prod ==>
          && p < s.enq && s.cur[p % |s.cells|] == p && s.cells[p % |s.cells|].sequence == p
          && s.prod[p] < |s.th| && Writing(s.th[s.prod[p]]) && s.th[s.prod[p]].pos == p)
    && (forall p {:trigger s.cons[p]} {:trigger p in s.cons} :: p in s.cons ==>
          && p < s.deq && s.cur[p % |s.cells|] == p && s.cells[p % |s.cells|].sequence == p + 1
          && s.cons[p] < |s.th| && Reading(s.th[s.cons[p]]) && s.th[s.cons[p]].pos == p)
  }

  /** Positions are never ahead of the counters; retries are paid for by their advance. */
  ghost predicate ThreadOk(s: State, t: Tid)
    requires Shape(s) && t < |s.th|
  {
    match s.th[t]
    case EnqLoad(_, low, b) => b.start + b.tries <= low <= s.enq
    case EnqSeq(_, pos, b) => b.start + b.tries <= pos <= s.enq
    case EnqCas(_, pos, b) =>
      b.start + b.tries <= pos <= s.enq && s.cells[pos % |s.cells|].sequence >= pos
    case EnqWrite(v, pos, b) =>
      && b.start + b.tries <= pos < s.enq && pos in s.prod && s.prod[pos] == t && s.vals[pos] == v
    case EnqStore(v, pos, b) =>
      && b.start + b.tries <= pos < s.enq && pos in s.prod && s.prod[pos] == t && s.vals[pos] == v
      && s.cells[pos % |s.cells|].data == v
    case DeqLoad(low, b) => b.start + b.tries <= low <= s.deq
    case DeqSeq(pos, b) => b.start + b.tries <= pos <= s.deq
    case DeqCas(pos, b) =>
      b.start + b.tries <= pos <= s.deq && s.cells[pos % |s.cells|].sequence >= pos + 1
    case DeqRead(pos, lin, b) =>
      b.start + b.tries <= pos < s.deq && pos in s.cons && s.cons[pos] == t && s.vals[pos] == lin
    case DeqStore(pos, v, b) =>
      b.start + b.tries <= pos < s.deq && pos in s.cons && s.cons[pos] == t && s.vals[pos] == v
    case _ => true
  }

  ghost predicate ThreadsOk(s: State)
    requires Shape(s)
  {
    forall t {:trigger s.th[t]} :: 0 <= t < |s.th| ==> ThreadOk(s, t)
  }

  ghost predicate Inv(s: State) {
    Shape(s) && CellsOk(s) && HandsOk(s) && ThreadsOk(s)
  }

  // What an observed sequence number means.

  /** The ticket a cell serves is the observer's, or a whole turn away from it. */
  lemma CellTicket(s: State, pos: nat)
    requires Inv(s)
    ensures pos % |s.cells| < |s.cells| && CellOk(s, pos % |s.cells|)
    ensures var c := s.cur[pos % |s.cells|]; c == pos || c + |s.cells| <= pos || pos + |s.cells| <= c
  {
    var i := pos % |s.cells|;
    assert CellOk(s, i);
    if s.cur[i] < pos {
      TurnsApart(s.cur[i], pos, |s.cells|);
    } else if pos < s.cur[i] {
      TurnsApart(pos, s.cur[i], |s.cells|);
    }
  }

  /** The sequence number seen before the winning compare-and-exchange is still the cell's:
      the cell is empty, served by nobody, and belongs to ticket pos. Needs two cells. */
  lemma EnqSeenIsCurrent(s: State, t: Tid)
    requires Inv(s) && t < |s.th| && s.th[t].EnqCas? && s.enq == s.th[t].pos
    ensures var pos := s.th[t].pos; var i := pos % |s.cells|;
      && i < |s.cells| && s.cells[i].sequence == pos == s.cur[i] && pos !in s.prod && pos !in s.cons
      && s.enq < s.deq + |s.cells|
  {
    CellTicket(s, s.th[t].pos);
    assert ThreadOk(s, t);
  }

  lemma DeqSeenIsCurrent(s: State, t: Tid)
    requires Inv(s) && t < |s.th| && s.th[t].DeqCas? && s.deq == s.th[t].pos
    ensures var pos := s.th[t].pos; var i := pos % |s.cells|;
      && i < |s.cells| && s.cells[i].sequence == pos + 1 && s.cur[i] == pos
      && pos !in s.prod && pos !in s.cons && pos < s.enq && s.cells[i].data == s.vals[pos]
  {
    CellTicket(s, s.th[t].pos);
    assert ThreadOk(s, t);
  }

  // The steps.

  /** A step of t that lets the counters and sequence numbers only grow, and leaves what other
      threads have in hand alone, keeps what the other threads know. */
  lemma KeepThreads(s: State, s': State, t: Tid)
    requires Shape(s) && Shape(s') && ThreadsOk(s) && t < |s.th| == |s'.th| && |s'.cells| == |s.cells|
    requires s'.th == s.th[t := s'.th[t]] && ThreadOk(s', t)
    requires s.enq <= s'.enq && s.deq <= s'.deq && s.vals <= s'.vals
    requires forall i {:trigger s'.cells[i]} :: 0 <= i < |s.cells| ==> s.cells[i].sequence <= s'.cells[i].sequence
    requires forall p {:trigger s.prod[p]} :: p in s.prod && s.prod[p] != t ==>
      p in s'.prod && s'.prod[p] == s.prod[p]
    requires forall p {:trigger s.cons[p]} :: p in s.cons && s.cons[p] != t ==>
      p in s'.cons && s'.cons[p] == s.cons[p]
    requires forall p {:trigger s.prod[p]} :: p in s.prod && s.prod[p] != t ==>
      s'.cells[p % |s.cells|].data == s.cells[p % |s.cells|].data
    ensures ThreadsOk(s')
  {
    forall u | 0 <= u < |s'.th|
      ensures ThreadOk(s', u)
    {
      if u != t {
        assert ThreadOk(s, u);
      }
    }
  }

  /** What t has in hand is the same before and after. */
  predicate SameHand(pc: PC, pc': PC) {
    && (Writing(pc) ==> Writing(pc') && pc'.pos == pc.pos)
    && (Reading(pc) ==> Reading(pc') && pc'.pos == pc.pos)
  }

  lemma LocalHands(s: State, t: Tid, pc: PC)
    requires Shape(s) && HandsOk(s) && t < |s.th| && SameHand(s.th[t], pc)
    ensures HandsOk(At(s, t, pc))
  {
  }

  lemma KeepLocal(s: State, t: Tid, pc: PC)
    requires Inv(s) && t < |s.th| && SameHand(s.th[t], pc)
    requires ThreadOk(At(s, t, pc), t)
    ensures Inv(At(s, t, pc))
  {
    var s' := At(s, t, pc);
    forall i | 0 <= i < |s'.cells|
      ensures CellOk(s', i)
    {
      assert CellOk(s, i);
    }
    LocalHands(s, t, pc);
    KeepThreads(s, s', t);
  }

  lemma KeepSeeEnq(s: State, t: Tid, v: Value, pos: nat, b: Since)
    requires Inv(s) && t < |s.th| && s.th[t] == EnqSeq(v, pos, b)
    ensures Inv(SeeEnq(s, t, v, pos, b))
  {
    CellTicket(s, pos);
    assert ThreadOk(s, t);
    KeepLocal(s, t, SeeEnq(s, t, v, pos, b).th[t]);
  }

  lemma KeepSeeDeq(s: State, t: Tid, pos: nat, b: Since)
    requires Inv(s) && t < |s.th| && s.th[t] == DeqSeq(pos, b)
    ensures Inv(SeeDeq(s, t, pos, b))
  {
    CellTicket(s, pos);
    assert ThreadOk(s, t);
    KeepLocal(s, t, SeeDeq(s, t, pos, b).th[t]);
  }

  lemma ClaimEnqCells(s: State, t: Tid, v: Value, pos: nat, b: Since)
    requires Shape(s) && CellsOk(s) && t < |s.th| && s.enq == pos < s.deq + |s.cells|
    requires s.cells[pos % |s.cells|].sequence == pos == s.cur[pos % |s.cells|] && pos !in s.prod
    ensures Shape(ClaimEnq(s, t, v, pos, b)) && CellsOk(ClaimEnq(s, t, v, pos, b))
  {
    var s' := ClaimEnq(s, t, v, pos, b);
    forall i | 0 <= i < |s'.cells|
      ensures CellOk(s', i)
    {
      assert CellOk(s, i);
      if s.cur[i] + |s.cells| == pos {
        NextTurn(s.cur[i], |s.cells|);
      }
    }
  }

  lemma ClaimEnqHands(s: State, t: Tid, v: Value, pos: nat, b: Since)
    requires Shape(s) && HandsOk(s) && t < |s.th| && s.th[t] == EnqCas(v, pos, b) && s.enq == pos
    requires s.cells[pos % |s.cells|].sequence == pos == s.cur[pos % |s.cells|] && pos !in s.prod
    requires Shape(ClaimEnq(s, t, v, pos, b))
    ensures HandsOk(ClaimEnq(s, t, v, pos, b))
  {
  }

  lemma KeepClaimEnq(s: State, t: Tid, v: Value, pos: nat, b: Since)
    requires Inv(s) && t < |s.th| && s.th[t] == EnqCas(v, pos, b) && s.enq == pos
    ensures Inv(ClaimEnq(s, t, v, pos, b))
  {
    EnqSeenIsCurrent(s, t);
    assert ThreadOk(s, t);
    ClaimEnqCells(s, t, v, pos, b);
    ClaimEnqHands(s, t, v, pos, b);
    KeepThreads(s, ClaimEnq(s, t, v, pos, b), t);
  }

  lemma ClaimDeqCells(s: State, t: Tid, pos: nat, b: Since)
    requires Shape(s) && CellsOk(s) && t < |s.th| && s.deq == pos < s.enq
    requires s.cells[pos % |s.cells|].sequence == pos + 1 && s.cur[pos % |s.cells|] == pos
    ensures Shape(ClaimDeq(s, t, pos, b)) && CellsOk(ClaimDeq(s, t, pos, b))
  {
    var s' := ClaimDeq(s, t, pos, b);
    forall i | 0 <= i < |s'.cells|
      ensures CellOk(s', i)
    {
      assert CellOk(s, i);
    }
  }

  lemma ClaimDeqHands(s: State, t: Tid, pos: nat, b: Since)
    requires Shape(s) && HandsOk(s) && t < |s.th| && s.th[t] == DeqCas(pos, b) && s.deq == pos
    requires s.cells[pos % |s.cells|].sequence == pos + 1 && s.cur[pos % |s.cells|] == pos && pos !in s.cons
    requires Shape(ClaimDeq(s, t, pos, b))
    ensures HandsOk(ClaimDeq(s, t, pos, b))
  {
  }

  lemma KeepClaimDeq(s: State, t: Tid, pos: nat, b: Since)
    requires Inv(s) && t < |s.th| && s.th[t] == DeqCas(pos, b) && s.deq == pos
    ensures Inv(ClaimDeq(s, t, pos, b))
  {
    DeqSeenIsCurrent(s, t);
    assert ThreadOk(s, t);
    ClaimDeqCells(s, t, pos, b);
    ClaimDeqHands(s, t, pos, b);
    KeepThreads(s, ClaimDeq(s, t, pos, b), t);
  }

  /** Tickets in hand that share a cell are one ticket. */
  lemma OneHandACell(s: State, p: nat, q: nat)
    requires Shape(s) && HandsOk(s) && p % |s.cells| == q % |s.cells|
    requires (p in s.prod || p in s.cons) && (q in s.prod || q in s.cons)
    ensures p == q && (p in s.prod <==> q in s.prod) && (p in s.prod <==> p !in s.cons)
  {
  }

  lemma WriteEnqHands(s: State, t: Tid, v: Value, pos: nat, b: Since)
    requires Shape(s) && HandsOk(s) && t < |s.th| && s.th[t] == EnqWrite(v, pos, b)
    ensures HandsOk(WriteEnq(s, t, v, pos, b))
  {
  }

  lemma KeepWriteEnq(s: State, t: Tid, v: Value, pos: nat, b: Since)
    requires Inv(s) && t < |s.th| && s.th[t] == EnqWrite(v, pos, b)
    ensures Inv(WriteEnq(s, t, v, pos, b))
  {
    var s' := WriteEnq(s, t, v, pos, b);
    assert ThreadOk(s, t);
    WriteEnqHands(s, t, v, pos, b);
    forall i | 0 <= i < |s'.cells|
      ensures CellOk(s', i)
    {
      assert CellOk(s, i);
    }
    forall p {:trigger s.prod[p]} | p in s.prod && s.prod[p] != t
      ensures s'.cells[p % |s.cells|].data == s.cells[p % |s.cells|].data
    {
    }
    KeepThreads(s, s', t);
  }

  lemma StoreEnqCells(s: State, t: Tid, pos: nat)
    requires Shape(s) && CellsOk(s) && t < |s.th| && pos in s.prod && pos < s.enq
    requires s.cells[pos % |s.cells|] == Cell(pos, s.vals[pos]) && s.cur[pos % |s.cells|] == pos
    ensures Shape(StoreEnq(s, t, pos)) && CellsOk(StoreEnq(s, t, pos))
  {
    var s' := StoreEnq(s, t, pos);
    forall i | 0 <= i < |s'.cells|
      ensures CellOk(s', i)
    {
      assert CellOk(s, i);
    }
  }

  lemma StoreEnqHands(s: State, t: Tid, v: Value, pos: nat, b: Since)
    requires Shape(s) && HandsOk(s) && t < |s.th| && s.th[t] == EnqStore(v, pos, b)
    requires pos in s.prod && s.prod[pos] == t && Shape(StoreEnq(s, t, pos))
    ensures HandsOk(StoreEnq(s, t, pos))
  {
    var s' := StoreEnq(s, t, pos);
    forall p | p in s.prod && p != pos
      ensures s'.cells[p % |s.cells|] == s.cells[p % |s.cells|]
    {
    }
    forall p | p in s.cons
      ensures s'.cells[p % |s.cells|] == s.cells[p % |s.cells|]
    {
    }
  }

  lemma KeepStoreEnq(s: State, t: Tid, v: Value, pos: nat, b: Since)
    requires Inv(s) && t < |s.th| && s.th[t] == EnqStore(v, pos, b)
    ensures Inv(StoreEnq(s, t, pos))
  {
    assert ThreadOk(s, t);
    StoreEnqCells(s, t, pos);
    StoreEnqHands(s, t, v, pos, b);
    KeepThreads(s, StoreEnq(s, t, pos), t);
  }

  lemma KeepReadDeq(s: State, t: Tid, pos: nat, lin: Value, b: Since)
    requires Inv(s) && t < |s.th| && s.th[t] == DeqRead(pos, lin, b)
    ensures s.cells[pos % |s.cells|].data == s.vals[pos] == lin && Inv(ReadDeq(s, t, pos, b))
  {
    assert ThreadOk(s, t) && CellOk(s, pos % |s.cells|);
    KeepLocal(s, t, ReadDeq(s, t, pos, b).th[t]);
  }

  lemma StoreDeqCells(s: State, t: Tid, pos: nat, v: Value)
    requires Shape(s) && CellsOk(s) && HandsOk(s) && t < |s.th| && pos in s.cons && pos < s.deq
    requires s.cells[pos % |s.cells|].sequence == pos + 1 && s.cur[pos % |s.cells|] == pos
    ensures Shape(StoreDeq(s, t, pos, v)) && CellsOk(StoreDeq(s, t, pos, v))
  {
    var s' := StoreDeq(s, t, pos, v);
    NextTurn(pos, |s.cells|);
    forall i | 0 <= i < |s'.cells|
      ensures CellOk(s', i)
    {
      assert CellOk(s, i);
    }
  }

  lemma StoreDeqHands(s: State, t: Tid, pos: nat, v: Value, b: Since)
    requires Shape(s) && HandsOk(s) && t < |s.th| && s.th[t] == DeqStore(pos, v, b)
    requires pos in s.cons && s.cons[pos] == t && Shape(StoreDeq(s, t, pos, v))
    ensures HandsOk(StoreDeq(s, t, pos, v))
  {
    var s' := StoreDeq(s, t, pos, v);
    forall p | p in s.prod || (p in s.cons && p != pos)
      ensures p % |s.cells| != pos % |s.cells|
    {
    }
  }

  lemma KeepStoreDeq(s: State, t: Tid, pos: nat, v: Value, b: Since)
    requires Inv(s) && t < |s.th| && s.th[t] == DeqStore(pos, v, b)
    ensures Inv(StoreDeq(s, t, pos, v))
  {
    assert ThreadOk(s, t);
    StoreDeqCells(s, t, pos, v);
    StoreDeqHands(s, t, pos, v, b);
    KeepThreads(s, StoreDeq(s, t, pos, v), t);
  }
}
