/** The ticket queue over whole runs: linearizability, occupancy, the cycle of each cell, who
    puts and who gets each ticket, real-time order, and what retries cost. */
module TicketRuns {
  import opened Memory
  import opened Bits
  import opened QueueSpec
  import opened Runs
  import opened TicketQueue
  import opened TicketSafety
  import opened TicketTheorems

  ghost predicate Next(s: State, s': State) {
    exists t, c :: Enabled(s, t, c) && PowerOfTwo(|s.cells|) && |s.cur| == |s.cells| && s' == Step(s, t, c)
  }

  ghost predicate Run(r: seq<State>) {
    IsRun(r, Init, Next)
  }

  lemma InitInv(s: State)
    requires Init(s)
    ensures Inv(s) && Start(Abstract(s))
  {
    CheckIsPowerOfTwo(|s.cells|);
    forall i | 0 <= i < |s.cells|
      ensures CellOk(s, i)
    {
      ModUnique(i, |s.cells|, 0, i);
    }
    forall t | 0 <= t < |s.th|
      ensures ThreadOk(s, t)
    {
      assert s.th[t] == Idle;
    }
  }

  lemma NextKeeps(s: State, s': State)
    requires Inv(s) && Next(s, s')
    ensures Inv(s') && Steps(Abstract(s), Abstract(s'))
  {
    var t, c :| Enabled(s, t, c) && s' == Step(s, t, c);
    KeepStep(s, t, c);
    StepRefines(s, t, c);
    assert StepBy(Abstract(s), Abstract(s'), t, CallOf(c));
  }

  lemma RunInv(r: seq<State>, n: nat)
    requires Run(r) && n < |r|
    ensures Inv(r[n])
  {
    forall s | Init(s)
      ensures Inv(s)
    {
      InitInv(s);
    }
    forall s, s' | Inv(s) && Next(s, s')
      ensures Inv(s')
    {
      NextKeeps(s, s');
    }
    Always(r, Init, Next, Inv, n);
  }

  /** The last state of some run. */
  ghost predicate Reachable(s: State) {
    Reached(s, Init, Next)
  }

  lemma ReachableInv(s: State)
    requires Reachable(s)
    ensures Inv(s)
  {
    var r :| IsRun(r, Init, Next) && r[|r| - 1] == s;
    RunInv(r, |r| - 1);
  }

  lemma ReachStep(s: State, t: Tid, c: Choice)
    requires Reachable(s) && Enabled(s, t, c) && PowerOfTwo(|s.cells|) && |s.cur| == |s.cells|
    ensures Reachable(Step(s, t, c))
  {
    Reaches(s, Step(s, t, c), Init, Next);
  }

  lemma NextAt(r: seq<State>, k: nat)
    requires Run(r) && k + 1 < |r|
    ensures Next(r[k], r[k + 1])
  {
    StepAt(r, Init, Next, k);
  }

  /** Every run is a history of the atomic bounded queue, and the values of the queue are at all
      times in the cells of their tickets, from when they are published. */
  lemma RunLinearizable(r: seq<State>)
    requires Run(r)
    ensures History(Trace(r, Abstract))
    ensures forall n, p :: 0 <= n < |r| && r[n].deq <= p < r[n].enq && p !in r[n].prod ==>
      InItsCell(r[n], p, Trace(r, Abstract)[n].queue)
  {
    forall s | Init(s)
      ensures Inv(s) && Start(Abstract(s))
    {
      InitInv(s);
    }
    forall s, s' | Inv(s) && Next(s, s')
      ensures Inv(s') && Steps(Abstract(s), Abstract(s'))
    {
      NextKeeps(s, s');
    }
    forall n, p | 0 <= n < |r| && r[n].deq <= p < r[n].enq && p !in r[n].prod
      ensures InItsCell(r[n], p, Abstract(r[n]).queue)
    {
      RunInv(r, n);
      QueueIsInCells(r[n], p);
    }
    Simulates(r, Init, Next, Inv, Abstract, Start, Steps);
  }

  /** The cell of ticket p holds what the queue has for p. */
  ghost predicate InItsCell(s: State, p: nat, queue: seq<Value>) {
    && s.deq <= p < s.deq + |queue| && |s.cells| > 0
    && s.cells[p % |s.cells|] == Cell(p + 1, queue[p - s.deq])
  }

  /** In every run, the tickets taken never overtake the tickets claimed, and these are never
      more than a turn ahead. */
  lemma RunOccupancy(r: seq<State>, n: nat)
    requires Run(r) && n < |r|
    ensures r[n].deq <= r[n].enq <= r[n].deq + |r[n].cells|
  {
    RunInv(r, n);
  }

  // Cells.

  /** Between its winning compare-and-exchange and its store of the sequence number. */
  predicate Holding(pc: PC) {
    Writing(pc) || Reading(pc)
  }

  /** No two threads hold one cell, so accesses to `data_` never overlap. */
  lemma OneOwner(s: State, t: Tid, u: Tid)
    requires Inv(s) && t < |s.th| && u < |s.th| && t != u && Holding(s.th[t]) && Holding(s.th[u])
    ensures s.th[t].pos % |s.cells| != s.th[u].pos % |s.cells|
  {
    assert ThreadOk(s, t) && ThreadOk(s, u);
    if s.th[t].pos % |s.cells| == s.th[u].pos % |s.cells| {
      OneHandACell(s, s.th[t].pos, s.th[u].pos);
    }
  }

  /** A cell of ticket p goes from p to p + 1 to p + capacity, and never otherwise. */
  lemma CellCycle(s: State, t: Tid, c: Choice, i: nat)
    requires Inv(s) && Enabled(s, t, c) && i < |s.cells|
    ensures |Step(s, t, c).cells| == |s.cells| >= 2
    ensures var n, p, x, x' := |s.cells|, s.cur[i], s.cells[i].sequence, Step(s, t, c).cells[i].sequence;
      && p % n == i
      && if s.th[t].EnqStore? && s.th[t].pos % n == i then s.th[t].pos == p == x && x' == p + 1
         else if s.th[t].DeqStore? && s.th[t].pos % n == i then s.th[t].pos == p && x == p + 1 && x' == p + n
         else x' == x && (x == p || x == p + 1)
  {
    assert ThreadOk(s, t) && CellOk(s, i);
    match s.th[t]
    case EnqWrite(_, _, _) =>
    case EnqStore(_, _, _) =>
    case DeqStore(_, _, _) =>
    case _ =>
  }

  /** The counters, the ticket values and the sequence numbers only grow. */
  ghost predicate Grows(s: State, s': State) {
    && |s'.th| == |s.th| && |s'.cells| == |s.cells| && s.enq <= s'.enq && s.deq <= s'.deq && s.vals <= s'.vals
    && forall i {:trigger s'.cells[i]} :: 0 <= i < |s.cells| ==> s.cells[i].sequence <= s'.cells[i].sequence
  }

  lemma CountersGrow(s: State, t: Tid, c: Choice)
    requires Enabled(s, t, c) && PowerOfTwo(|s.cells|) && |s.cur| == |s.cells|
    ensures var s' := Step(s, t, c);
      |s'.th| == |s.th| && |s'.cells| == |s.cells| && s.enq <= s'.enq && s.deq <= s'.deq && s.vals <= s'.vals
  {
  }

  lemma NextGrows(s: State, s': State)
    requires Inv(s) && Next(s, s')
    ensures Grows(s, s')
  {
    var t, c :| Enabled(s, t, c) && s' == Step(s, t, c);
    CountersGrow(s, t, c);
    forall i | 0 <= i < |s.cells|
      ensures s.cells[i].sequence <= s'.cells[i].sequence
    {
      CellCycle(s, t, c, i);
    }
  }

  lemma GrowsOn(s0: State, s1: State, s2: State)
    requires Grows(s0, s1) && Grows(s1, s2)
    ensures Grows(s0, s2)
  {
    forall i | 0 <= i < |s0.cells|
      ensures s0.cells[i].sequence <= s2.cells[i].sequence
    {
      assert s0.cells[i].sequence <= s1.cells[i].sequence;
    }
  }

  lemma GrowsAt(r: seq<State>, k: nat)
    requires Run(r) && k + 1 < |r|
    ensures Grows(r[k], r[k + 1])
  {
    RunInv(r, k);
    NextAt(r, k);
    NextGrows(r[k], r[k + 1]);
  }

  lemma {:induction false} RunGrows(r: seq<State>, m: nat, n: nat)
    requires Run(r) && m <= n < |r|
    ensures Grows(r[m], r[n])
  {
    if m < n {
      RunGrows(r, m, n - 1);
      GrowsAt(r, n - 1);
      GrowsOn(r[m], r[n - 1], r[n]);
    }
  }

  // Tickets.

  /** At step k of the run, thread t wins ticket p for the value v. */
  ghost predicate PutsAt(r: seq<State>, k: nat, t: Tid, p: nat, v: Value) {
    && k + 1 < |r| && t < |r[k].th| == |r[k + 1].th|
    && r[k].th[t].EnqCas? && r[k].th[t].pos == p && r[k].th[t].v == v && r[k + 1].th[t].EnqWrite?
  }

  /** At step k of the run, thread t wins the right to take ticket p. */
  ghost predicate TakesAt(r: seq<State>, k: nat, t: Tid, p: nat) {
    && k + 1 < |r| && t < |r[k].th| == |r[k + 1].th|
    && r[k].th[t].DeqCas? && r[k].th[t].pos == p && r[k + 1].th[t].DeqRead?
  }

  /** At step k of the run, the enqueue of ticket p by thread t is complete. */
  ghost predicate PutDone(r: seq<State>, k: nat, t: Tid, p: nat) {
    && k + 1 < |r| && t < |r[k].th| == |r[k + 1].th|
    && r[k].th[t].EnqStore? && r[k].th[t].pos == p && r[k + 1].th[t].Return?
  }

  /** At step k of the run, the dequeue of ticket p by thread t is complete, with the value v. */
  ghost predicate TakeDone(r: seq<State>, k: nat, t: Tid, p: nat, v: Value) {
    && k + 1 < |r| && t < |r[k].th| == |r[k + 1].th|
    && r[k].th[t].DeqStore? && r[k].th[t].pos == p && r[k + 1].th[t] == Return(Got(v))
  }

  /** A thread that moved made the step. */
  lemma Moved(s: State, s': State, t: Tid)
    requires Next(s, s') && t < |s.th| == |s'.th| && s'.th[t] != s.th[t]
    ensures exists c :: Enabled(s, t, c) && PowerOfTwo(|s.cells|) && |s.cur| == |s.cells| && s' == Step(s, t, c)
  {
    var u, c :| Enabled(s, u, c) && s' == Step(s, u, c);
    if u != t {
      OthersStay(s, u, c, t);
    }
  }

  lemma OthersStay(s: State, t: Tid, c: Choice, u: Tid)
    requires Enabled(s, t, c) && PowerOfTwo(|s.cells|) && |s.cur| == |s.cells| && u < |s.th| && u != t
    ensures |Step(s, t, c).th| == |s.th| && Step(s, t, c).th[u] == s.th[u]
  {
  }

  lemma PutStep(r: seq<State>, k: nat, t: Tid, p: nat, v: Value)
    requires Run(r) && PutsAt(r, k, t, p, v)
    ensures r[k].enq == p && r[k + 1] == ClaimEnq(r[k], t, v, p, r[k].th[t].b)
    ensures forall u :: 0 <= u < |r[k].th| && u != t ==> r[k + 1].th[u] == r[k].th[u]
  {
    NextAt(r, k);
    Moved(r[k], r[k + 1], t);
  }

  lemma TakeStep(r: seq<State>, k: nat, t: Tid, p: nat)
    requires Run(r) && TakesAt(r, k, t, p)
    ensures r[k].deq == p && r[k + 1] == ClaimDeq(r[k], t, p, r[k].th[t].b)
    ensures forall u :: 0 <= u < |r[k].th| && u != t ==> r[k + 1].th[u] == r[k].th[u]
  {
    NextAt(r, k);
    Moved(r[k], r[k + 1], t);
  }

  /** A ticket is won by one producer, once. */
  lemma OneProducer(r: seq<State>, k: nat, t: Tid, v: Value, k': nat, t': Tid, v': Value, p: nat)
    requires Run(r) && PutsAt(r, k, t, p, v) && PutsAt(r, k', t', p, v')
    ensures k == k' && t == t' && v == v'
  {
    PutStep(r, k, t, p, v);
    PutStep(r, k', t', p, v');
    if k < k' {
      RunGrows(r, k + 1, k');
    } else if k' < k {
      RunGrows(r, k' + 1, k);
    }
  }

  /** A ticket is won by at most one consumer, once. */
  lemma OneConsumer(r: seq<State>, k: nat, t: Tid, k': nat, t': Tid, p: nat)
    requires Run(r) && TakesAt(r, k, t, p) && TakesAt(r, k', t', p)
    ensures k == k' && t == t'
  {
    TakeStep(r, k, t, p);
    TakeStep(r, k', t', p);
    if k < k' {
      RunGrows(r, k + 1, k');
    } else if k' < k {
      RunGrows(r, k' + 1, k);
    }
  }

  lemma EnqMovesBy(s: State, t: Tid, c: Choice)
    requires Enabled(s, t, c) && PowerOfTwo(|s.cells|) && |s.cur| == |s.cells|
    ensures var s' := Step(s, t, c);
      s'.enq != s.enq ==>
        s.th[t].EnqCas? && s.enq == s.th[t].pos && s' == ClaimEnq(s, t, s.th[t].v, s.th[t].pos, s.th[t].b)
  {
  }

  /** Every claimed ticket was won by a producer, for the value on record. */
  lemma {:induction false} ProducerExists(r: seq<State>, n: nat, p: nat)
    requires Run(r) && n < |r| && p < r[n].enq
    ensures p < |r[n].vals| && exists k: nat, t: Tid :: k < n && PutsAt(r, k, t, p, r[n].vals[p])
  {
    RunInv(r, n);
    if n > 0 {
      GrowsAt(r, n - 1);
      if p < r[n - 1].enq {
        ProducerExists(r, n - 1, p);
      } else {
        NextAt(r, n - 1);
        var t, c :| Enabled(r[n - 1], t, c) && PowerOfTwo(|r[n - 1].cells|)
          && |r[n - 1].cur| == |r[n - 1].cells| && r[n] == Step(r[n - 1], t, c);
        EnqMovesBy(r[n - 1], t, c);
        RunInv(r, n - 1);
        assert PutsAt(r, n - 1, t, p, r[n].vals[p]);
      }
    }
  }

  lemma ConsMoves(s: State, t: Tid, c: Choice, p: nat)
    requires Enabled(s, t, c) && PowerOfTwo(|s.cells|) && |s.cur| == |s.cells| && p in Step(s, t, c).cons
    ensures var s' := Step(s, t, c);
      || (p in s.cons && s.cons[p] == s'.cons[p])
      || (s'.cons[p] == t && s.th[t].DeqCas? && s.th[t].pos == p && s'.th[t].DeqRead?)
  {
  }

  /** A ticket in a consumer's hands was won by that consumer. */
  lemma {:induction false} ConsumerExists(r: seq<State>, n: nat, p: nat)
    requires Run(r) && n < |r| && p in r[n].cons
    ensures exists k: nat :: k < n && TakesAt(r, k, r[n].cons[p], p)
  {
    if n > 0 {
      GrowsAt(r, n - 1);
      NextAt(r, n - 1);
      var t, c :| Enabled(r[n - 1], t, c) && PowerOfTwo(|r[n - 1].cells|)
        && |r[n - 1].cur| == |r[n - 1].cells| && r[n] == Step(r[n - 1], t, c);
      ConsMoves(r[n - 1], t, c, p);
      if p in r[n - 1].cons && r[n - 1].cons[p] == r[n].cons[p] {
        ConsumerExists(r, n - 1, p);
      } else {
        assert TakesAt(r, n - 1, t, p);
      }
    }
  }

  /** A dequeue returns the value that the one producer of its ticket put, and that the one
      consumer of its ticket, the caller itself, won afterwards. */
  lemma GotIsWhatWasPut(r: seq<State>, m: nat, t: Tid, p: nat, v: Value)
    requires Run(r) && TakeDone(r, m, t, p, v)
    ensures exists k: nat, u: Tid, d: nat :: k < d < m && PutsAt(r, k, u, p, v) && TakesAt(r, d, t, p)
  {
    TakenIsOnRecord(r, m, t, p, v);
    ConsumerExists(r, m, p);
    var d: nat :| d < m && TakesAt(r, d, t, p);
    TakenIsClaimed(r, d, t, p);
    ProducerExists(r, d, p);
    var k: nat, u: Tid :| k < d && PutsAt(r, k, u, p, r[d].vals[p]);
    RunGrows(r, d, m);
    assert PutsAt(r, k, u, p, v);
  }

  lemma TakenIsOnRecord(r: seq<State>, m: nat, t: Tid, p: nat, v: Value)
    requires Run(r) && TakeDone(r, m, t, p, v)
    ensures p < |r[m].vals| && r[m].vals[p] == v && p in r[m].cons && r[m].cons[p] == t
  {
    RunInv(r, m);
    assert ThreadOk(r[m], t);
    NextAt(r, m);
    Moved(r[m], r[m + 1], t);
  }

  lemma TakenIsClaimed(r: seq<State>, d: nat, t: Tid, p: nat)
    requires Run(r) && TakesAt(r, d, t, p)
    ensures p < r[d].enq
  {
    RunInv(r, d);
    TakeStep(r, d, t, p);
    DeqSeenIsCurrent(r[d], t);
  }

  // Retries.

  predicate SeekingPut(pc: PC) {
    pc.EnqLoad? || pc.EnqSeq? || pc.EnqCas?
  }

  predicate SeekingTake(pc: PC) {
    pc.DeqLoad? || pc.DeqSeq? || pc.DeqCas?
  }

  /** The position a thread has in hand, or the one it is about to reload will at least be. */
  function Position(pc: PC): nat
    requires SeekingPut(pc) || SeekingTake(pc)
  {
    if pc.EnqLoad? || pc.DeqLoad? then pc.low else pc.pos
  }

  /** One turn of a retry loop. */
  ghost predicate Retry(pc: PC, pc': PC, fails: bool)
    requires SeekingPut(pc) || SeekingTake(pc)
    requires SeekingPut(pc') || SeekingTake(pc')
  {
    && Position(pc') >= Position(pc) && pc.b.tries <= pc'.b.tries <= pc.b.tries + 1
    && (pc'.b.tries == pc.b.tries + 1 ==> Position(pc') > Position(pc))
    && ((pc.EnqCas? || pc.DeqCas?) && pc'.b.tries == pc.b.tries ==> fails && Position(pc') == Position(pc))
  }

  lemma PutRetryRaises(s: State, t: Tid, c: Choice)
    requires Shape(s) && Enabled(s, t, c) && ThreadOk(s, t)
    requires SeekingPut(s.th[t]) && SeekingPut(Step(s, t, c).th[t])
    ensures Retry(s.th[t], Step(s, t, c).th[t], c.Weak? && c.fails)
  {
  }

  lemma TakeRetryRaises(s: State, t: Tid, c: Choice)
    requires Shape(s) && Enabled(s, t, c) && ThreadOk(s, t)
    requires SeekingTake(s.th[t]) && SeekingTake(Step(s, t, c).th[t])
    ensures Retry(s.th[t], Step(s, t, c).th[t], c.Weak? && c.fails)
  {
  }

  /** A retry is counted and raises the position, unless the compare-and-exchange failed
      spuriously; and the position never falls. */
  lemma RetryRaises(s: State, t: Tid, c: Choice)
    requires Inv(s) && Enabled(s, t, c) && (SeekingPut(s.th[t]) || SeekingTake(s.th[t]))
    requires SeekingPut(Step(s, t, c).th[t]) || SeekingTake(Step(s, t, c).th[t])
    ensures Retry(s.th[t], Step(s, t, c).th[t], c.Weak? && c.fails)
  {
    assert ThreadOk(s, t);
    if SeekingPut(s.th[t]) {
      PutRetryRaises(s, t, c);
    } else {
      TakeRetryRaises(s, t, c);
    }
  }

  /** A call that began at `start` and still looks for a ticket, to put or to take. */
  predicate Seeks(pc: PC, put: bool, start: nat) {
    if put then SeekingPut(pc) && pc.b.start == start else SeekingTake(pc) && pc.b.start == start
  }

  lemma StepSeeks(s: State, t: Tid, c: Choice, put: bool)
    requires Enabled(s, t, c) && PowerOfTwo(|s.cells|) && |s.cur| == |s.cells|
    requires var pc' := Step(s, t, c).th[t]; if put then SeekingPut(pc') else SeekingTake(pc')
    ensures var pc, pc' := s.th[t], Step(s, t, c).th[t];
      if pc == Idle then Seeks(pc', put, if put then s.enq else s.deq) else Seeks(pc, put, pc'.b.start)
  {
  }

  lemma NextSeeks(r: seq<State>, k: nat, u: Tid, put: bool)
    requires Run(r) && k + 1 < |r| && u < |r[k].th| && u < |r[k + 1].th|
    requires if put then SeekingPut(r[k + 1].th[u]) else SeekingTake(r[k + 1].th[u])
    ensures var pc, pc' := r[k].th[u], r[k + 1].th[u];
      if pc == Idle then Seeks(pc', put, if put then r[k].enq else r[k].deq) else Seeks(pc, put, pc'.b.start)
  {
    var s, s' := r[k], r[k + 1];
    NextAt(r, k);
    GrowsAt(r, k);
    if s'.th[u] != s.th[u] {
      Moved(s, s', u);
      var c :| Enabled(s, u, c) && PowerOfTwo(|s.cells|) && |s.cur| == |s.cells| && s' == Step(s, u, c);
      StepSeeks(s, u, c, put);
    }
  }

  /** Thread u looks for a ticket after step m and up to n. */
  ghost predicate Seeking(r: seq<State>, m: nat, n: nat, u: Tid, put: bool) {
    && m < n < |r| && u < |r[m].th|
    && forall j :: m < j <= n ==> u < |r[j].th| && if put then SeekingPut(r[j].th[u]) else SeekingTake(r[j].th[u])
  }

  lemma {:induction false} StartKept(r: seq<State>, m: nat, n: nat, u: Tid, put: bool, start: nat)
    requires Run(r) && Seeking(r, m, n, u, put)
    requires if r[m].th[u] == Idle then start == (if put then r[m].enq else r[m].deq) else Seeks(r[m].th[u], put, start)
    ensures Seeks(r[n].th[u], put, start)
    decreases n - m
  {
    NextSeeks(r, m, u, put);
    if m + 1 < n {
      StartKept(r, m + 1, n, u, put, start);
    }
  }

  ghost predicate PutByOther(r: seq<State>, m: nat, n: nat, u: Tid, p: nat)
    requires n < |r|
  {
    exists k: nat, t: Tid, v :: m <= k < n && t != u && PutsAt(r, k, t, p, v)
  }

  ghost predicate TakenByOther(r: seq<State>, m: nat, n: nat, u: Tid, p: nat)
    requires n < |r|
  {
    exists k: nat, t: Tid :: m <= k < n && t != u && TakesAt(r, k, t, p)
  }

  lemma OtherPut(r: seq<State>, m: nat, n: nat, u: Tid, p: nat)
    requires Run(r) && Seeking(r, m, n, u, true) && r[m].enq <= p < r[n].enq
    ensures PutByOther(r, m, n, u, p)
  {
    ProducerExists(r, n, p);
    var k: nat, t: Tid :| k < n && PutsAt(r, k, t, p, r[n].vals[p]);
    PutStep(r, k, t, p, r[n].vals[p]);
    if k < m {
      RunGrows(r, k + 1, m);
    }
  }

  /** The retries of an enqueue that began at m are at most the tickets other threads won since. */
  lemma PutRetriesArePaid(r: seq<State>, m: nat, n: nat, u: Tid)
    requires Run(r) && Seeking(r, m, n, u, true) && r[m].th[u] == Idle
    ensures r[n].th[u].b.tries <= r[n].enq - r[m].enq
    ensures forall p :: r[m].enq <= p < r[n].enq ==> PutByOther(r, m, n, u, p)
  {
    StartKept(r, m, n, u, true, r[m].enq);
    SeekersLag(r, n, u);
    forall p | r[m].enq <= p < r[n].enq
      ensures PutByOther(r, m, n, u, p)
    {
      OtherPut(r, m, n, u, p);
    }
  }

  lemma SeekersLag(r: seq<State>, n: nat, u: Tid)
    requires Run(r) && n < |r| && u < |r[n].th|
    ensures SeekingPut(r[n].th[u]) ==> r[n].th[u].b.tries + r[n].th[u].b.start <= r[n].enq
    ensures SeekingTake(r[n].th[u]) ==> r[n].th[u].b.tries + r[n].th[u].b.start <= r[n].deq
  {
    RunInv(r, n);
    assert ThreadOk(r[n], u);
  }

  lemma DeqMovesBy(s: State, t: Tid, c: Choice)
    requires Enabled(s, t, c) && PowerOfTwo(|s.cells|) && |s.cur| == |s.cells|
    ensures var s' := Step(s, t, c);
      s'.deq != s.deq ==> s.th[t].DeqCas? && s.deq == s.th[t].pos && s' == ClaimDeq(s, t, s.th[t].pos, s.th[t].b)
  {
  }

  lemma {:induction false} TakerExists(r: seq<State>, n: nat, p: nat)
    requires Run(r) && n < |r| && p < r[n].deq
    ensures exists k: nat, t: Tid :: k < n && TakesAt(r, k, t, p)
  {
    if n > 0 {
      GrowsAt(r, n - 1);
      if p < r[n - 1].deq {
        TakerExists(r, n - 1, p);
      } else {
        NextAt(r, n - 1);
        var t, c :| Enabled(r[n - 1], t, c) && PowerOfTwo(|r[n - 1].cells|)
          && |r[n - 1].cur| == |r[n - 1].cells| && r[n] == Step(r[n - 1], t, c);
        DeqMovesBy(r[n - 1], t, c);
        assert TakesAt(r, n - 1, t, p);
      }
    }
  }

  lemma OtherTake(r: seq<State>, m: nat, n: nat, u: Tid, p: nat)
    requires Run(r) && Seeking(r, m, n, u, false) && r[m].deq <= p < r[n].deq
    ensures TakenByOther(r, m, n, u, p)
  {
    TakerExists(r, n, p);
    var k: nat, t: Tid :| k < n && TakesAt(r, k, t, p);
    TakeStep(r, k, t, p);
    if k < m {
      RunGrows(r, k + 1, m);
    }
  }

  /** The retries of a dequeue that began at m are at most the tickets other threads took since. */
  lemma TakeRetriesArePaid(r: seq<State>, m: nat, n: nat, u: Tid)
    requires Run(r) && Seeking(r, m, n, u, false) && r[m].th[u] == Idle
    ensures r[n].th[u].b.tries <= r[n].deq - r[m].deq
    ensures forall p :: r[m].deq <= p < r[n].deq ==> TakenByOther(r, m, n, u, p)
  {
    StartKept(r, m, n, u, false, r[m].deq);
    SeekersLag(r, n, u);
    forall p | r[m].deq <= p < r[n].deq
      ensures TakenByOther(r, m, n, u, p)
    {
      OtherTake(r, m, n, u, p);
    }
  }

  // Real-time order.

  /** A call that looks for a ticket began at these counters or later. */
  predicate Began(pc: PC, enq: nat, deq: nat) {
    && (SeekingPut(pc) ==> pc.b.start >= enq)
    && (SeekingTake(pc) ==> pc.b.start >= deq)
  }

  lemma BeganAt(r: seq<State>, k: nat, u: Tid, enq: nat, deq: nat)
    requires Run(r) && k + 1 < |r| && u < |r[k].th| && r[k].enq >= enq && r[k].deq >= deq
    requires Began(r[k].th[u], enq, deq)
    ensures u < |r[k + 1].th| && Began(r[k + 1].th[u], enq, deq)
  {
    GrowsAt(r, k);
    if SeekingPut(r[k + 1].th[u]) {
      NextSeeks(r, k, u, true);
    } else if SeekingTake(r[k + 1].th[u]) {
      NextSeeks(r, k, u, false);
    }
  }

  /** A thread that is idle at m, or in a call no older, has since begun no older call. */
  lemma {:induction false} BeganSince(r: seq<State>, m: nat, n: nat, u: Tid, enq: nat, deq: nat)
    requires Run(r) && m <= n < |r| && u < |r[m].th| && r[m].enq >= enq && r[m].deq >= deq
    requires Began(r[m].th[u], enq, deq)
    ensures u < |r[n].th| && Began(r[n].th[u], enq, deq)
    decreases n - m
  {
    if m < n {
      BeganAt(r, m, u, enq, deq);
      GrowsAt(r, m);
      BeganSince(r, m + 1, n, u, enq, deq);
    }
  }

  lemma PositionsFollow(s: State, t: Tid)
    requires Inv(s) && t < |s.th|
    ensures s.th[t].EnqCas? ==> s.th[t].pos >= s.th[t].b.start
    ensures s.th[t].DeqCas? ==> s.th[t].pos >= s.th[t].b.start
    ensures s.th[t].EnqStore? ==> s.th[t].pos < s.enq
    ensures s.th[t].DeqStore? ==> s.th[t].pos < s.deq
  {
    assert ThreadOk(s, t);
  }

  /** An enqueue that was complete before another began has the smaller ticket. */
  lemma PutsInRealTime(r: seq<State>, k: nat, t: Tid, p: nat, m: nat, n: nat, u: Tid, q: nat, v: Value)
    requires Run(r) && PutDone(r, k, t, p) && k < m <= n < |r|
    requires u < |r[m].th| && r[m].th[u] == Idle && PutsAt(r, n, u, q, v)
    ensures p < q
  {
    RunInv(r, k);
    PositionsFollow(r[k], t);
    RunGrows(r, k, m);
    BeganSince(r, m, n, u, r[m].enq, r[m].deq);
    RunInv(r, n);
    PositionsFollow(r[n], u);
  }

  /** A dequeue that was complete before another began has the smaller ticket. */
  lemma TakesInRealTime(r: seq<State>, k: nat, t: Tid, p: nat, w: Value, m: nat, n: nat, u: Tid, q: nat)
    requires Run(r) && TakeDone(r, k, t, p, w) && k < m <= n < |r|
    requires u < |r[m].th| && r[m].th[u] == Idle && TakesAt(r, n, u, q)
    ensures p < q
  {
    RunInv(r, k);
    PositionsFollow(r[k], t);
    RunGrows(r, k, m);
    BeganSince(r, m, n, u, r[m].enq, r[m].deq);
    RunInv(r, n);
    PositionsFollow(r[n], u);
  }
}
