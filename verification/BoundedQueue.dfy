/** The bounded queue as an object: the fields of the source, one method for each access to
    them, and the state machine as what these methods do. A method is called by thread t when
    it is t's turn, so any interleaving of calls is a run of the machine. */
module BoundedQueue {
  import opened Memory
  import opened Bits
  import opened QueueSpec
  import opened TicketQueue
  import opened TicketSafety
  import opened TicketTheorems
  import opened Runs
  import opened TicketRuns

  lemma Good(s: State, t: Tid, c: Choice)
    requires Reachable(s) && Shape(s) && Enabled(s, t, c)
    ensures Reachable(Step(s, t, c)) && Shape(Step(s, t, c)) && ThreadOk(s, t)
    ensures StepBy(Abstract(s), Abstract(Step(s, t, c)), t, CallOf(c))
  {
    ReachableInv(s);
    StepRefines(s, t, c);
    ReachStep(s, t, c);
    ReachableInv(Step(s, t, c));
  }

  /** What a winning enqueue finds and does. */
  lemma EnqueueWins(s: State, t: Tid, v: Value, pos: nat, b: Since)
    requires Reachable(s) && t < |s.th| && s.th[t] == EnqCas(v, pos, b) && s.enq == pos
    ensures Shape(s) && s.cells[pos % |s.cells|].sequence == pos
    ensures TakesEffect(Abstract(s), Abstract(ClaimEnq(s, t, v, pos, b)), t)
  {
    ReachableInv(s);
    EnqSeenIsCurrent(s, t);
    ClaimEnqRefines(s, t, v, pos, b);
  }

  /** What a winning dequeue finds and does. */
  lemma DequeueWins(s: State, t: Tid, pos: nat, b: Since)
    requires Reachable(s) && t < |s.th| && s.th[t] == DeqCas(pos, b) && s.deq == pos
    ensures Shape(s) && s.cells[pos % |s.cells|].sequence == pos + 1
    ensures TakesEffect(Abstract(s), Abstract(ClaimDeq(s, t, pos, b)), t)
  {
    ReachableInv(s);
    DeqSeenIsCurrent(s, t);
    ClaimDeqRefines(s, t, pos, b);
  }

  /** What a put and a take that are declined have found. */
  lemma PutDeclined(s: State, t: Tid, v: Value, pos: nat, b: Since)
    requires Reachable(s) && Shape(s) && t < |s.th| && s.th[t] == EnqSeq(v, pos, b)
    ensures var dif, pc := s.cells[pos % |s.cells|].sequence - pos, SeeEnq(s, t, v, pos, b).th[t];
      && (dif == 0 <==> pc.EnqCas?) && (dif < 0 <==> pc == Return(Declined))
      && (dif < 0 <==> NoRoom(s, pos))
  {
    ReachableInv(s);
    EnqueueFalse(s, t, v, pos, b);
  }

  lemma TakeDeclined(s: State, t: Tid, pos: nat, b: Since)
    requires Reachable(s) && Shape(s) && t < |s.th| && s.th[t] == DeqSeq(pos, b)
    ensures var dif, pc := s.cells[pos % |s.cells|].sequence - (pos + 1), SeeDeq(s, t, pos, b).th[t];
      && (dif == 0 <==> pc.DeqCas?) && (dif < 0 <==> pc == Return(Declined))
      && (dif < 0 <==> s.deq == pos && Unpublished(s, pos))
  {
    ReachableInv(s);
    DequeueFalse(s, t, pos, b);
  }

  /** What a taker reads is the value on record for its ticket. */
  lemma ReadIsOnRecord(s: State, t: Tid, pos: nat, lin: Value, b: Since)
    requires Reachable(s) && Shape(s) && t < |s.th| && s.th[t] == DeqRead(pos, lin, b)
    ensures pos < |s.vals| && s.cells[pos % |s.cells|].data == s.vals[pos]
    ensures Abstract(s) == Abstract(ReadDeq(s, t, pos, b))
  {
    ReachableInv(s);
    KeepReadDeq(s, t, pos, lin, b);
    ReadStutters(s, t, pos, lin, b);
  }

  class Queue {
    const buffer: array<Cell>
    const mask: nat
    var enqueuePos: nat
    var dequeuePos: nat
    // the bookkeeping of the proof
    ghost var th: seq<PC>
    ghost var vals: seq<Value>
    ghost var cur: seq<nat>
    ghost var prod: map<nat, Tid>
    ghost var cons: map<nat, Tid>

    ghost function View(): State
      reads this, buffer
    {
      State(buffer[..], enqueuePos, dequeuePos, th, vals, cur, prod, cons)
    }

    /** The object is in the last state of a run. */
    ghost predicate Valid()
      reads this, buffer
    {
      mask + 1 == buffer.Length && Shape(View()) && Reachable(View())
    }

    /** The thread's turn has come, at the place in the code that `at` describes. */
    ghost predicate Turn(t: Tid, pc: PC)
      reads this, buffer
    {
      Valid() && t < |th| && th[t] == pc
    }

    constructor (size: nat, ghost threads: nat)
      requires size >= 2 && And(size, size - 1) == 0
      ensures Valid() && Init(View()) && |th| == threads && fresh(buffer) && buffer.Length == size
    {
      var cells := new Cell[size](_ => Cell(0, 0));
      buffer, mask, enqueuePos, dequeuePos := cells, size - 1, 0, 0;
      th, vals, cur := seq(threads, _ => Idle), [], seq(size, i => i);
      prod, cons := map[], map[];
      new;
      var i := 0;
      while i != size
        invariant 0 <= i <= size
        invariant forall k :: 0 <= k < i ==> buffer[k].sequence == k
        modifies buffer
      {
        buffer[i] := Cell(i, 0);
        i := i + 1;
      }
      CheckIsPowerOfTwo(size);
      assert IsRun([View()], Init, Next);
    }

    ghost method Note(s: State)
      modifies `th, `vals, `cur, `prod, `cons
      ensures th == s.th && vals == s.vals && cur == s.cur && prod == s.prod && cons == s.cons
    {
      th, vals, cur, prod, cons := s.th, s.vals, s.cur, s.prod, s.cons;
    }

    function Index(pos: nat): (i: nat)
      reads this, buffer
      requires PowerOfTwo(buffer.Length) && mask + 1 == buffer.Length
      ensures i == CellOf(pos, buffer.Length) < buffer.Length
    {
      MaskIsModulo(pos, buffer.Length);
      And(pos, mask)
    }

    /** A thread calls an operation. */
    ghost method Enter(t: Tid, call: Call)
      requires Turn(t, Idle) && !call.waits
      modifies this
      ensures Valid() && View() == Step(old(View()), t, Choice.Call(call))
      ensures Begins(Abstract(old(View())), Abstract(View()), t, call)
    {
      var s := View();
      Good(s, t, Choice.Call(call));
      EdgeRefines(s, t, Choice.Call(call));
      Note(Step(s, t, Choice.Call(call)));
      assert View() == Step(s, t, Choice.Call(call));
    }

    /** A thread returns from an operation. */
    ghost method Leave(t: Tid, result: Result)
      requires Turn(t, Return(result))
      modifies this
      ensures Valid() && View() == Step(old(View()), t, Plain)
      ensures Returns(Abstract(old(View())), Abstract(View()), t)
    {
      var s := View();
      Good(s, t, Plain);
      EdgeRefines(s, t, Plain);
      Note(Step(s, t, Plain));
    }

    method LoadEnqueuePos(ghost t: Tid, ghost pc: PC) returns (pos: nat)
      requires Turn(t, pc) && pc.EnqLoad?
      modifies this
      ensures Valid() && View() == Step(old(View()), t, Plain)
      ensures pos == enqueuePos >= pc.low && Abstract(View()) == Abstract(old(View()))
    {
      ghost var s := View();
      Good(s, t, Plain);
      EnqStutters(s, t, Plain);
      pos := enqueuePos;
      Note(Step(s, t, Plain));
    }

    method LoadDequeuePos(ghost t: Tid, ghost pc: PC) returns (pos: nat)
      requires Turn(t, pc) && pc.DeqLoad?
      modifies this
      ensures Valid() && View() == Step(old(View()), t, Plain)
      ensures pos == dequeuePos >= pc.low && Abstract(View()) == Abstract(old(View()))
    {
      ghost var s := View();
      Good(s, t, Plain);
      DeqStutters(s, t, Plain);
      pos := dequeuePos;
      Note(Step(s, t, Plain));
    }

    /** `enqueue` looks at the sequence number of its cell: a false result means that the cell has
        not been emptied for this turn. */
    method LoadSequenceToPut(ghost t: Tid, pos: nat, ghost v: Value, ghost b: Since) returns (dif: int)
      requires Turn(t, EnqSeq(v, pos, b))
      modifies this
      ensures Valid() && View() == Step(old(View()), t, Plain)
      ensures dif == buffer[pos % buffer.Length].sequence - pos
      ensures dif == 0 <==> th[t].EnqCas?
      ensures dif < 0 <==> th[t] == Return(Declined)
      ensures dif < 0 <==> NoRoom(old(View()), pos)
      ensures StepBy(Abstract(old(View())), Abstract(View()), t, None)
    {
      ghost var s := View();
      Good(s, t, Plain);
      PutDeclined(s, t, v, pos, b);
      dif := buffer[Index(pos)].sequence - pos;
      Note(SeeEnq(s, t, v, pos, b));
      assert View() == SeeEnq(s, t, v, pos, b);
    }

    /** `dequeue` looks at the sequence number of its cell: a false result means that the value of
        the oldest ticket is not published. */
    method LoadSequenceToTake(ghost t: Tid, pos: nat, ghost b: Since) returns (dif: int)
      requires Turn(t, DeqSeq(pos, b))
      modifies this
      ensures Valid() && View() == Step(old(View()), t, Plain)
      ensures dif == buffer[pos % buffer.Length].sequence - (pos + 1)
      ensures dif == 0 <==> th[t].DeqCas?
      ensures dif < 0 <==> th[t] == Return(Declined)
      ensures dif < 0 <==> dequeuePos == pos && Unpublished(old(View()), pos)
      ensures StepBy(Abstract(old(View())), Abstract(View()), t, None)
    {
      ghost var s := View();
      Good(s, t, Plain);
      TakeDeclined(s, t, pos, b);
      dif := buffer[Index(pos)].sequence - (pos + 1);
      Note(SeeDeq(s, t, pos, b));
      assert View() == SeeDeq(s, t, pos, b);
    }

    /** compare_exchange_weak on enqueue_pos_. A win puts the value; the cell is still empty. */
    method CasEnqueuePos(ghost t: Tid, pos: nat, v: Value, ghost b: Since, fails: bool)
      returns (won: bool, expected: nat)
      requires Turn(t, EnqCas(v, pos, b))
      modifies this
      ensures Valid() && View() == Step(old(View()), t, Weak(fails))
      ensures won <==> old(enqueuePos) == pos && !fails
      ensures expected == old(enqueuePos) >= pos && (won ==> enqueuePos == pos + 1)
      ensures won ==> buffer[pos % buffer.Length].sequence == pos
      ensures won ==> TakesEffect(Abstract(old(View())), Abstract(View()), t)
      ensures !won ==> Abstract(View()) == Abstract(old(View()))
    {
      ghost var s := View();
      Good(s, t, Weak(fails));
      won, expected := enqueuePos == pos && !fails, enqueuePos;
      if won {
        EnqueueWins(s, t, v, pos, b);
        enqueuePos := pos + 1;
      } else {
        EnqStutters(s, t, Weak(fails));
      }
      Note(Step(s, t, Weak(fails)));
    }

    /** compare_exchange_weak on dequeue_pos_. A win takes the oldest value; the cell is full. */
    method CasDequeuePos(ghost t: Tid, pos: nat, ghost b: Since, fails: bool)
      returns (won: bool, expected: nat)
      requires Turn(t, DeqCas(pos, b))
      modifies this
      ensures Valid() && View() == Step(old(View()), t, Weak(fails))
      ensures won <==> old(dequeuePos) == pos && !fails
      ensures expected == old(dequeuePos) >= pos && (won ==> dequeuePos == pos + 1)
      ensures won ==> buffer[pos % buffer.Length].sequence == pos + 1
      ensures won ==> TakesEffect(Abstract(old(View())), Abstract(View()), t)
      ensures !won ==> Abstract(View()) == Abstract(old(View()))
    {
      ghost var s := View();
      Good(s, t, Weak(fails));
      won, expected := dequeuePos == pos && !fails, dequeuePos;
      if won {
        DequeueWins(s, t, pos, b);
        dequeuePos := pos + 1;
      } else {
        DeqStutters(s, t, Weak(fails));
      }
      Note(Step(s, t, Weak(fails)));
    }

    method WriteData(ghost t: Tid, pos: nat, v: Value, ghost b: Since)
      requires Turn(t, EnqWrite(v, pos, b))
      modifies this, buffer
      ensures Valid() && View() == Step(old(View()), t, Plain)
      ensures Abstract(View()) == Abstract(old(View()))
    {
      ghost var s := View();
      Good(s, t, Plain);
      EnqStutters(s, t, Plain);
      buffer[Index(pos)] := buffer[Index(pos)].(data := v);
      Note(Step(s, t, Plain));
    }

    /** Publishes the value to the consumer of ticket pos. */
    method StoreFull(ghost t: Tid, pos: nat, ghost v: Value, ghost b: Since)
      requires Turn(t, EnqStore(v, pos, b))
      modifies this, buffer
      ensures Valid() && View() == Step(old(View()), t, Plain) && th[t] == Return(Accepted)
      ensures buffer[pos % buffer.Length] == Cell(pos + 1, v)
      ensures Abstract(View()) == Abstract(old(View()))
    {
      ghost var s := View();
      Good(s, t, Plain);
      EnqStutters(s, t, Plain);
      buffer[Index(pos)] := buffer[Index(pos)].(sequence := pos + 1);
      Note(Step(s, t, Plain));
    }

    /** The value read is the one on record for the ticket. */
    method ReadData(ghost t: Tid, pos: nat, ghost lin: Value, ghost b: Since) returns (v: Value)
      requires Turn(t, DeqRead(pos, lin, b))
      modifies this
      ensures Valid() && View() == Step(old(View()), t, Plain)
      ensures pos < |vals| && v == vals[pos] && Abstract(View()) == Abstract(old(View()))
    {
      ghost var s := View();
      Good(s, t, Plain);
      ReadIsOnRecord(s, t, pos, lin, b);
      v := buffer[Index(pos)].data;
      Note(Step(s, t, Plain));
    }

    /** Hands the cell to the producer one turn later. */
    method StoreEmpty(ghost t: Tid, pos: nat, ghost v: Value, ghost b: Since)
      requires Turn(t, DeqStore(pos, v, b))
      modifies this, buffer
      ensures Valid() && View() == Step(old(View()), t, Plain) && th[t] == Return(Got(v))
      ensures buffer[pos % buffer.Length].sequence == pos + buffer.Length
      ensures Abstract(View()) == Abstract(old(View()))
    {
      ghost var s := View();
      Good(s, t, Plain);
      DeqStutters(s, t, Plain);
      buffer[Index(pos)] := buffer[Index(pos)].(sequence := pos + mask + 1);
      Note(StoreDeq(s, t, pos, v));
      assert View() == StoreDeq(s, t, pos, v);
    }
  }
}
