/** The mutex on one atomic flag as an object. */
module FlagMutexObject {
  import opened Memory
  import opened Runs
  import opened FlagMutex

  lemma Good(s: State, t: Tid, c: Choice)
    requires Reachable(s) && Enabled(s, t, c)
    ensures Inv(s) && Inv(Step(s, t, c)) && Reachable(Step(s, t, c))
  {
    ReachableInv(s);
    KeepStep(s, t, c);
    ReachStep(s, t, c);
  }

  class Mutex {
    var lk: bool
    ghost var th: seq<PC>

    ghost function View(): State
      reads this
    {
      State(lk, th)
    }

    ghost predicate Turn(t: Tid, pc: PC)
      reads this
    {
      Reachable(View()) && t < |th| && th[t] == pc
    }

    constructor (ghost threads: nat)
      ensures Reachable(View()) && Init(View()) && |th| == threads
    {
      lk, th := false, seq(threads, _ => Idle);
      new;
      assert IsRun([View()], Init, Next);
    }

    twostate predicate Stepped(t: Tid, c: Choice)
      reads this
    {
      Reachable(View()) && Enabled(old(View()), t, c) && View() == Step(old(View()), t, c)
    }

    /** Steps that do not touch the flag: a call, the end of a wait, a notification. */
    ghost method Move(t: Tid, c: Choice)
      requires Reachable(View()) && Enabled(View(), t, c) && !th[t].TestSet? && !th[t].Look? && !th[t].Inside?
      modifies `th
      ensures Stepped(t, c)
    {
      Good(View(), t, c);
      th := Step(View(), t, c).th;
    }

    /** lk.test_and_set(): the thread that finds the flag clear is inside, alone. */
    method TestAndSet(ghost t: Tid) returns (was: bool)
      requires Turn(t, TestSet)
      modifies this
      ensures Stepped(t, Plain) && was == old(lk)
      ensures if was then th[t] == Look else forall u :: 0 <= u < |th| ==> (th[u].Inside? <==> u == t)
    {
      ghost var s := View();
      Good(s, t, Plain);
      was := lk;
      lk := true;
      th := Step(s, t, Plain).th;
      assert th[t].Inside? || was;
    }

    /** The load in lk.wait(true): the thread sleeps if the flag is set. */
    method WaitWhileSet(ghost t: Tid) returns (sleeps: bool)
      requires Turn(t, Look)
      modifies `th
      ensures Stepped(t, Plain) && sleeps == lk && th[t] == if sleeps then Asleep else TestSet
    {
      ghost var s := View();
      Good(s, t, Plain);
      sleeps := lk;
      th := Step(s, t, Plain).th;
    }

    /** lk.clear(), by the thread inside */
    method Clear(ghost t: Tid)
      requires Turn(t, Inside)
      modifies this
      ensures Stepped(t, Plain) && forall u :: 0 <= u < |th| ==> !th[u].Inside?
    {
      ghost var s := View();
      Good(s, t, Plain);
      lk := false;
      th := Step(s, t, Plain).th;
    }
  }
}

/** The ticket lock as an object, for up to 2^32 threads. */
module TicketLockObject {
  import opened Memory
  import opened Runs
  import opened TicketLock

  class Mutex {
    var ticket: nat
    var turn: nat
    ghost var th: seq<PC>
    ghost var draws: seq<Tid>
    ghost var served: nat
    ghost var entered: seq<Tid>

    ghost function View(): State
      reads this
    {
      State(ticket, turn, th, draws, served, entered)
    }

    /** The object is in the last state of a run. */
    ghost predicate Valid()
      reads this
    {
      Reachable(View())
    }

    ghost predicate Turn(t: Tid, pc: PC)
      reads this
    {
      Valid() && t < |th| && th[t] == pc
    }

    constructor (ghost threads: nat)
      requires threads <= WORD
      ensures Valid() && Init(View()) && |th| == threads
    {
      ticket, turn, th, draws, served, entered := 0, 0, seq(threads, _ => Idle), [], 0, [];
      new;
      assert IsRun([View()], Start, Next);
    }

    twostate predicate Stepped(t: Tid)
      reads this
    {
      Valid() && t < |old(View()).th| && View() == Step(old(View()), t)
    }

    ghost method Note(s: State)
      modifies `th, `draws, `served, `entered
      ensures th == s.th && draws == s.draws && served == s.served && entered == s.entered
    {
      th, draws, served, entered := s.th, s.draws, s.served, s.entered;
    }

    lemma Good(t: Tid)
      requires Valid() && t < |th|
      ensures Inv(View()) && |th| <= WORD && Reachable(Step(View(), t))
    {
      ReachableInv(View());
      ReachStep(View(), t);
    }

    /** A thread calls lock(). */
    ghost method Enter(t: Tid)
      requires Turn(t, Idle)
      modifies this
      ensures Stepped(t)
    {
      Good(t);
      Note(Step(View(), t));
    }

    /** my_turn = ticket.fetch_add(1) */
    method FetchTicket(ghost t: Tid) returns (mine: nat)
      requires Turn(t, Draw)
      modifies this
      ensures Stepped(t) && mine == old(ticket) && draws == old(draws) + [t] && th[t] == Spin(mine, |old(draws)|)
    {
      ghost var s := View();
      Good(t);
      mine := ticket;
      ticket := (ticket + 1) % WORD;
      Note(Step(s, t));
    }

    /** turn.load(): a thread gets in exactly when every earlier ticket has been served. */
    method LoadTurn(ghost t: Tid, mine: nat, ghost n: nat) returns (now: nat)
      requires Turn(t, Spin(mine, n))
      modifies `th, `draws, `served, `entered
      ensures Stepped(t) && now == turn && (now == mine <==> th[t] == Inside(n))
      ensures now == mine <==> n == old(served)
    {
      ghost var s := View();
      Good(t);
      OutIsBounded(s);
      OneTurn(served, n);
      now := turn;
      Note(Step(s, t));
    }

    /** turn.fetch_add(1), by the holder */
    method ServeNext(ghost t: Tid, ghost n: nat)
      requires Turn(t, Inside(n))
      modifies this
      ensures Stepped(t) && served == old(served) + 1
    {
      ghost var s := View();
      Good(t);
      turn := (turn + 1) % WORD;
      Note(Step(s, t));
    }
  }
}

/** Peterson's algorithm as an object with the two shared variables. */
module PetersonObject {
  import opened Runs
  import opened Peterson

  lemma Good(s: State, p: nat)
    requires Reachable(s) && p < 2
    ensures Inv(s) && Inv(Step(s, p)) && Reachable(Step(s, p))
  {
    ReachableInv(s);
    KeepStep(s, p);
    ReachStep(s, p);
  }

  class Gate {
    const interested: array<bool>
    var turn: nat
    ghost var pc: seq<PC>
    ghost var overtaken: seq<nat>

    ghost function View(): State
      reads this, interested
    {
      State(turn, interested[..], pc, overtaken)
    }

    ghost predicate At(p: nat, place: PC)
      reads this, interested
    {
      interested.Length == 2 && Shape(View()) && Reachable(View()) && p < 2 && pc[p] == place
    }

    constructor (first: nat)
      requires first < 2
      ensures interested.Length == 2 && fresh(interested) && Reachable(View()) && Init(View())
    {
      interested := new bool[2](_ => false);
      turn, pc, overtaken := first, [Idle, Idle], [0, 0];
      new;
      assert IsRun([View()], Init, Next);
    }

    twostate predicate Stepped(p: nat)
      reads this, interested
    {
      interested.Length == 2 && Shape(View()) && Reachable(View()) && p < 2 && Shape(old(View())) && View() == Step(old(View()), p)
    }

    ghost method Note(s: State)
      modifies `pc, `overtaken
      ensures pc == s.pc && overtaken == s.overtaken
    {
      pc, overtaken := s.pc, s.overtaken;
    }

    /** A process calls enter(). */
    ghost method Approach(p: nat)
      requires At(p, Idle)
      modifies `pc, `overtaken
      ensures Stepped(p)
    {
      Good(View(), p);
      Note(Step(View(), p));
    }

    method RaiseFlag(p: nat)
      requires At(p, Raise)
      modifies this, interested
      ensures Stepped(p) && interested[p]
    {
      ghost var s := View();
      Good(s, p);
      interested[p] := true;
      Note(Step(s, p));
      assert View() == Step(s, p);
    }

    method GiveTurn(p: nat)
      requires At(p, Give)
      modifies this
      ensures Stepped(p) && turn == Other(p)
    {
      ghost var s := View();
      Good(s, p);
      turn := Other(p);
      Note(Step(s, p));
    }

    /** interested[other]: if it is down, p is inside and the other is not. */
    method LoadInterested(p: nat) returns (up: bool)
      requires At(p, TestOther)
      modifies `pc, `overtaken
      ensures Stepped(p) && up == interested[Other(p)]
      ensures if up then pc[p] == TestTurn else pc[p] == Inside && pc[Other(p)] != Inside
    {
      ghost var s := View();
      Good(s, p);
      up := interested[Other(p)];
      Note(Step(s, p));
    }

    /** turn: unless it is the other's, p is inside and the other is not. */
    method LoadTurn(p: nat) returns (now: nat)
      requires At(p, TestTurn)
      modifies `pc, `overtaken
      ensures Stepped(p) && now == turn
      ensures if now == Other(p) then pc[p] == TestOther else pc[p] == Inside && pc[Other(p)] != Inside
    {
      ghost var s := View();
      Good(s, p);
      now := turn;
      Note(Step(s, p));
    }

    method LowerFlag(p: nat)
      requires At(p, Inside)
      modifies this, interested
      ensures Stepped(p) && !interested[p]
    {
      ghost var s := View();
      Good(s, p);
      interested[p] := false;
      Note(Step(s, p));
      assert View() == Step(s, p);
    }
  }
}
