/** Runs of the ticket queue that end in a false result although the queue is neither empty nor
    full, and the run with one cell that overwrites a value. */
module TicketFalse {
  import opened Memory
  import opened Bits
  import opened QueueSpec
  import opened Runs
  import opened TicketQueue
  import opened TicketTheorems
  import opened TicketRuns

  /** The code can go from z to s. */
  ghost predicate Leads(z: State, s: State) {
    Reached(s, x => x == z, Next)
  }

  lemma LeadsToItself(z: State)
    ensures Leads(z, z)
  {
    var init := (x: State) => x == z;
    assert IsRun([z], init, Next);
  }

  lemma Reach(z: State, s: State, t: Tid, c: Choice, s': State)
    requires Leads(z, s) && Enabled(s, t, c) && PowerOfTwo(|s.cells|) && |s.cur| == |s.cells| && s' == Step(s, t, c)
    ensures Leads(z, s')
  {
    assert Next(s, s');
    Reaches(s, s', x => x == z, Next);
  }

  /** A thread calls enqueue and wins the next ticket. */
  lemma ReachWon(z: State, s: State, t: Tid, v: Value) returns (m: State)
    requires Leads(z, s) && t < |s.th| && s.th[t] == Idle && PowerOfTwo(|s.cells|) && |s.cur| == |s.cells|
    requires s.cells[CellOf(s.enq, |s.cells|)].sequence == s.enq
    ensures m == ClaimEnq(s, t, v, s.enq, Since(s.enq, 0)) && Leads(z, m)
  {
    var b := Since(s.enq, 0);
    var s1 := At(s, t, EnqLoad(v, s.enq, b));
    Reach(z, s, t, Choice.Call(Put(v, false)), s1);
    var s2 := At(s, t, EnqSeq(v, s.enq, b));
    assert s1.th[t := s2.th[t]] == s2.th;
    Reach(z, s1, t, Plain, s2);
    var s3 := At(s, t, EnqCas(v, s.enq, b));
    assert s2.th[t := s3.th[t]] == s3.th;
    Reach(z, s2, t, Plain, s3);
    m := ClaimEnq(s, t, v, s.enq, b);
    assert s3.th[t := m.th[t]] == m.th;
    Reach(z, s3, t, Weak(false), m);
  }

  /** The winner writes its value and publishes it. */
  lemma ReachPublished(z: State, s: State, t: Tid, v: Value, pos: nat, b: Since) returns (m: State)
    requires Leads(z, s) && t < |s.th| && s.th[t] == EnqWrite(v, pos, b) && PowerOfTwo(|s.cells|) && |s.cur| == |s.cells|
    ensures Leads(z, m) && m.th == s.th[t := Return(Accepted)]
    ensures m.cells == s.cells[CellOf(pos, |s.cells|) := Cell(pos + 1, v)]
    ensures m == s.(th := m.th, cells := m.cells, prod := s.prod - {pos})
  {
    var i := CellOf(pos, |s.cells|);
    var s1 := WriteEnq(s, t, v, pos, b);
    Reach(z, s, t, Plain, s1);
    m := StoreEnq(s1, t, pos);
    Reach(z, s1, t, Plain, m);
    assert m.th == s.th[t := Return(Accepted)];
    assert m.cells == s.cells[i := Cell(pos + 1, v)];
  }

  /** A whole enqueue. */
  lemma ReachPut(z: State, s: State, t: Tid, v: Value) returns (m: State)
    requires Leads(z, s) && t < |s.th| && s.th[t] == Idle && PowerOfTwo(|s.cells|) && |s.cur| == |s.cells|
    requires s.cells[CellOf(s.enq, |s.cells|)].sequence == s.enq
    ensures Leads(z, m) && m.th == s.th && m.enq == s.enq + 1 && m.vals == s.vals + [v] && s.enq !in m.prod
    ensures m.cells == s.cells[CellOf(s.enq, |s.cells|) := Cell(s.enq + 1, v)]
    ensures m == s.(cells := m.cells, enq := m.enq, vals := m.vals, prod := m.prod)
  {
    var s1 := ReachWon(z, s, t, v);
    var s2 := ReachPublished(z, s1, t, v, s.enq, Since(s.enq, 0));
    m := At(s2, t, Idle);
    assert m.th == s.th;
    Reach(z, s2, t, Plain, m);
  }

  /** A thread calls dequeue and looks at the cell of the next ticket. */
  lemma ReachLooked(z: State, s: State, t: Tid) returns (m: State)
    requires Leads(z, s) && t < |s.th| && s.th[t] == Idle && PowerOfTwo(|s.cells|) && |s.cur| == |s.cells|
    ensures m == SeeDeq(s, t, s.deq, Since(s.deq, 0)) && Leads(z, m)
  {
    var b := Since(s.deq, 0);
    var s1 := At(s, t, DeqLoad(s.deq, b));
    Reach(z, s, t, Choice.Call(Take(false)), s1);
    var s2 := At(s, t, DeqSeq(s.deq, b));
    assert s1.th[t := s2.th[t]] == s2.th;
    Reach(z, s1, t, Plain, s2);
    m := SeeDeq(s, t, s.deq, b);
    assert s2.th[t := m.th[t]] == m.th;
    Reach(z, s2, t, Plain, m);
  }

  /** A thread calls enqueue and finds the cell of its position not emptied. */
  lemma ReachRefused(z: State, s: State, t: Tid, v: Value) returns (m: State)
    requires Leads(z, s) && t < |s.th| && s.th[t] == Idle && PowerOfTwo(|s.cells|) && |s.cur| == |s.cells|
    requires s.cells[CellOf(s.enq, |s.cells|)].sequence < s.enq
    ensures m == At(s, t, Return(Declined)) && Leads(z, m)
  {
    var b := Since(s.enq, 0);
    var s1 := At(s, t, EnqLoad(v, s.enq, b));
    Reach(z, s, t, Choice.Call(Put(v, false)), s1);
    var s2 := At(s, t, EnqSeq(v, s.enq, b));
    assert s1.th[t := s2.th[t]] == s2.th;
    Reach(z, s1, t, Plain, s2);
    m := At(s, t, Return(Declined));
    assert s2.th[t := m.th[t]] == m.th;
    Reach(z, s2, t, Plain, m);
  }

  /** Two cells and three threads, at the start. */
  function Two(): State {
    State([Cell(0, 0), Cell(1, 0)], 0, 0, [Idle, Idle, Idle], [], [0, 1], map[], map[])
  }

  lemma TwoIsInit()
    ensures Init(Two()) && PowerOfTwo(2) && CellOf(0, 2) == 0 && CellOf(1, 2) == 1 && CellOf(2, 2) == 0
  {
    assert PowerOfTwo(1);
    CheckIsPowerOfTwo(2);
    assert [0, 1] == seq(2, i => i);
  }

  /** Thread 0 has claimed ticket 0 and not yet written; thread 1 has enqueued 8 with ticket 1 and
      returned; thread 2 calls dequeue and gets false, while the queue holds two values and the
      second of them is published. */
  lemma FalseIsNotEmpty() returns (s: State)
    ensures Init(Two()) && Leads(Two(), s) && |s.th| == 3 && |s.cells| == 2
    ensures s.th[2] == Return(Declined) && s.th[1] == Idle && Abstract(s).queue == [7, 8]
    ensures s.cells[1] == Cell(2, 8) && 1 !in s.prod
  {
    TwoIsInit();
    LeadsToItself(Two());
    var s1 := ReachWon(Two(), Two(), 0, 7);
    var s2 := ReachPut(Two(), s1, 1, 8);
    s := ReachLooked(Two(), s2, 2);
    assert s.vals == [7, 8] && s.vals[0..] == s.vals;
  }

  /** Thread 0 has enqueued 7 and 8 into two cells; thread 1 has taken 7 and not yet released its
      cell; thread 2 calls enqueue and gets false, while the queue holds one value. */
  lemma FalseIsNotFull() returns (s: State)
    ensures Init(Two()) && Leads(Two(), s) && |s.th| == 3 && |s.cells| == 2
    ensures s.th[2] == Return(Declined) && s.th[1].DeqRead? && Abstract(s).queue == [8]
  {
    TwoIsInit();
    LeadsToItself(Two());
    var s1 := ReachPut(Two(), Two(), 0, 7);
    var s2 := ReachPut(Two(), s1, 0, 8);
    var s3 := ReachLooked(Two(), s2, 1);
    var s4 := ClaimDeq(s3, 1, 0, Since(0, 0));
    Reach(Two(), s3, 1, Weak(false), s4);
    s := ReachRefused(Two(), s4, 2, 9);
    assert s.vals == [7, 8] && s.vals[1..] == [8];
  }

  /** One cell, at the start, which the constructor's check forbids. */
  function One(): State {
    State([Cell(0, 0)], 0, 0, [Idle], [], [0], map[], map[])
  }

  /** With one cell, two enqueues in a row both succeed, and the first value is overwritten. */
  lemma OneCellOverwrites(v: Value, w: Value) returns (s: State)
    ensures Numbered(One()) && Leads(One(), s)
    ensures s.th == [Idle] && s.enq == s.deq + 2 && s.vals == [v, w] && s.cells == [Cell(2, w)]
  {
    assert PowerOfTwo(1) && CellOf(0, 1) == 0 && CellOf(1, 1) == 0;
    assert One().cur == seq(1, i => i);
    LeadsToItself(One());
    var s1 := ReachPut(One(), One(), 0, v);
    s := ReachPut(One(), s1, 0, w);
    assert s.vals == [v, w];
  }
}
