/** The ticket lock, whose two counters are 32-bit words that wrap around: as long as no more
    than 2^32 tickets are out, one thread holds it at a time, in the order of the draws. */
module TicketLock {
  import opened Memory
  import opened Runs

  const WORD: nat := 0x1_0000_0000

  /** Where a thread is. `mine` is the word it drew; `n` counts the draws without wrapping. */
  datatype PC =
    | Idle
    | Draw                    // my_turn = ticket.fetch_add(1)
    | Spin(mine: nat, n: nat) // my_turn != turn.load() ?
    | Inside(n: nat)          // holds the lock; unlock() is turn.fetch_add(1)

  datatype State = State(
    ticket: nat,
    turn: nat,
    th: seq<PC>,
    // the bookkeeping of the proof
    draws: seq<Tid>,          // who drew, in order
    served: nat,              // how many have unlocked
    entered: seq<Tid>)        // who entered, in order

  function At(s: State, t: Tid, pc: PC): State
    requires t < |s.th|
  {
    s.(th := s.th[t := pc])
  }

  function DrawTicket(s: State, t: Tid): State
    requires t < |s.th|
  {
    At(s, t, Spin(s.ticket, |s.draws|)).(ticket := (s.ticket + 1) % WORD, draws := s.draws + [t])
  }

  function LoadTurn(s: State, t: Tid, mine: nat, n: nat): State
    requires t < |s.th|
  {
    if mine == s.turn then At(s, t, Inside(n)).(entered := s.entered + [t]) else s
  }

  function Unlock(s: State, t: Tid): State
    requires t < |s.th|
  {
    At(s, t, Idle).(turn := (s.turn + 1) % WORD, served := s.served + 1)
  }

  function Step(s: State, t: Tid): State
    requires t < |s.th|
  {
    match s.th[t]
    case Idle => At(s, t, Draw)
    case Draw => DrawTicket(s, t)
    case Spin(mine, n) => LoadTurn(s, t, mine, n)
    case Inside(_) => Unlock(s, t)
  }

  ghost predicate Init(s: State) {
    && s.ticket == 0 == s.turn && s.draws == [] && s.served == 0 && s.entered == []
    && forall t :: 0 <= t < |s.th| ==> s.th[t] == Idle
  }

  predicate HasTicket(pc: PC) { pc.Spin? || pc.Inside? }

  predicate Occupied(th: seq<PC>) {
    exists t :: 0 <= t < |th| && th[t].Inside?
  }

  /** The tickets out are those drawn and not yet served, one a thread; only the first may be inside. */
  ghost predicate Inv(s: State) {
    && s.ticket == |s.draws| % WORD && s.turn == s.served % WORD && s.served <= |s.draws|
    && (forall t {:trigger s.th[t]} :: 0 <= t < |s.th| && HasTicket(s.th[t]) ==>
          && s.served <= s.th[t].n < |s.draws| && s.draws[s.th[t].n] == t
          && (s.th[t].Spin? ==> s.th[t].mine == s.th[t].n % WORD)
          && (s.th[t].Inside? ==> s.th[t].n == s.served))
    && (forall k {:trigger s.draws[k]} :: s.served <= k < |s.draws| ==>
          s.draws[k] < |s.th| && HasTicket(s.th[s.draws[k]]) && s.th[s.draws[k]].n == k)
    && s.served <= |s.entered| <= |s.draws| && s.entered == s.draws[..|s.entered|]
    && |s.entered| == s.served + (if Occupied(s.th) then 1 else 0)
  }

  function Out(s: State): int { |s.draws| - s.served }

  /** A waiter that the next load of `turn` lets in. */
  predicate Admitted(s: State, t: Tid) {
    t < |s.th| && s.th[t].Spin? && s.th[t].mine == s.turn
  }

  lemma OneTurn(served: nat, n: nat)
    requires served <= n < served + WORD
    ensures n % WORD == served % WORD <==> n == served
  {
  }

  lemma NextWord(n: nat)
    ensures (n % WORD + 1) % WORD == (n + 1) % WORD
  {
  }

  /** At most one thread is inside. */
  lemma MutualExclusion(s: State, t: Tid, u: Tid)
    requires Inv(s) && t < |s.th| && u < |s.th| && s.th[t].Inside? && s.th[u].Inside?
    ensures t == u
  {
  }

  /** The lock lets in only the oldest ticket exactly when no more than 2^32 tickets are out. */
  lemma AdmitsOldestIff(s: State)
    requires Inv(s)
    ensures (forall t: Tid :: Admitted(s, t) ==> s.th[t].n == s.served) <==> Out(s) <= WORD
  {
    if Out(s) <= WORD {
      forall t: Tid | Admitted(s, t)
        ensures s.th[t].n == s.served
      {
        OneTurn(s.served, s.th[t].n);
      }
    } else {
      var t := s.draws[s.served + WORD];
      assert s.th[t].n == s.served + WORD;
      assert Admitted(s, t);
    }
  }

  /** The oldest ticket's thread is inside or about to be let in, so the lock is never stuck. */
  lemma OldestEnters(s: State)
    requires Inv(s) && Out(s) > 0
    ensures var t := s.draws[s.served];
      t < |s.th| && (s.th[t].Inside? || (Admitted(s, t) && Step(s, t).th[t].Inside?))
  {
  }

  // Every step keeps the invariant.

  lemma KeepDraw(s: State, t: Tid)
    requires Inv(s) && t < |s.th| && s.th[t] == Draw
    ensures Inv(DrawTicket(s, t))
  {
    var s' := DrawTicket(s, t);
    NextWord(|s.draws|);
    SameOccupied(s.th, t, s'.th[t]);
  }

  lemma SameOccupied(th: seq<PC>, t: Tid, pc: PC)
    requires t < |th| && !th[t].Inside? && !pc.Inside?
    ensures Occupied(th[t := pc]) <==> Occupied(th)
  {
    assert forall u :: 0 <= u < |th| ==> (th[t := pc][u].Inside? <==> th[u].Inside?);
  }

  lemma KeepLoad(s: State, t: Tid, mine: nat, n: nat)
    requires Inv(s) && Out(s) <= WORD && t < |s.th| && s.th[t] == Spin(mine, n)
    ensures Inv(LoadTurn(s, t, mine, n))
  {
    if mine == s.turn {
      AdmitsOldestIff(s);
      assert Admitted(s, t);
      var s' := LoadTurn(s, t, mine, n);
      assert s'.th[t].Inside? && Occupied(s'.th);
      assert forall u :: 0 <= u < |s.th| ==> !s.th[u].Inside?;
    }
  }

  lemma NowEmpty(s: State, s': State, t: Tid)
    requires Inv(s) && t < |s.th| && s.th[t].Inside? && s'.th == s.th[t := Idle]
    ensures Occupied(s.th) && !Occupied(s'.th)
  {
    assert forall u :: 0 <= u < |s.th| && u != t ==> !s.th[u].Inside?;
  }

  lemma KeepUnlock(s: State, t: Tid, n: nat)
    requires Inv(s) && t < |s.th| && s.th[t] == Inside(n)
    ensures Inv(Unlock(s, t))
  {
    var s' := Unlock(s, t);
    NextWord(s.served);
    NowEmpty(s, s', t);
  }

  lemma KeepStep(s: State, t: Tid)
    requires Inv(s) && Out(s) <= WORD && t < |s.th|
    ensures Inv(Step(s, t))
  {
    match s.th[t]
    case Idle => SameOccupied(s.th, t, Draw);
    case Draw => KeepDraw(s, t);
    case Spin(mine, n) => KeepLoad(s, t, mine, n);
    case Inside(n) => KeepUnlock(s, t, n);
  }

  /** How many steps of its own a thread is from being out, when it need not wait. */
  function Rank(pc: PC): nat {
    match pc
    case Idle => 0
    case Inside(_) => 1
    case Spin(_, _) => 2
    case Draw => 3
  }

  /** Only the load of a turn that is not its own holds a thread up, and it enters with its first
      load of its own. */
  lemma OwnSteps(s: State, t: Tid)
    requires Inv(s) && Out(s) <= WORD && t < |s.th|
    ensures var pc, pc' := s.th[t], Step(s, t).th[t];
      && (Rank(pc') < Rank(pc) <==> !pc.Idle? && (pc.Spin? ==> pc.n == s.served))
      && (pc'.Inside? <==> pc.Spin? && pc.n == s.served)
      && (pc.Idle? ==> pc'.Draw?)
  {
    if s.th[t].Spin? {
      OneTurn(s.served, s.th[t].n);
    }
  }

  /** A waiter is as many unlocks from its turn as there are tickets before it: each unlock brings it
      one nearer, and nothing takes it back. */
  lemma EveryUnlockCounts(s: State, t: Tid, u: Tid)
    requires Inv(s) && t < |s.th| && u < |s.th| && t != u && s.th[t].Spin?
    ensures var s' := Step(s, u);
      s'.th[t] == s.th[t] && s'.th[t].n - s'.served == s.th[t].n - s.served - (if s.th[u].Inside? then 1 else 0)
  {
  }

  /** Distinct thread numbers below n are at most n. */
  lemma {:induction false} Pigeonhole(l: seq<Tid>, n: nat)
    requires forall k :: 0 <= k < |l| ==> l[k] < n
    requires forall j, k :: 0 <= j < k < |l| ==> l[j] != l[k]
    ensures |l| <= n
  {
    if |l| > 0 {
      assert l[0] < n;
      if i :| 0 <= i < |l| && l[i] == n - 1 {
        Pigeonhole(l[..i] + l[i + 1..], n - 1);
      } else {
        Pigeonhole(l, n - 1);
      }
    }
  }

  /** A thread has one ticket at most, so there are no more tickets out than threads. */
  lemma OutIsBounded(s: State)
    requires Inv(s)
    ensures Out(s) <= |s.th|
  {
    var l := s.draws[s.served..];
    forall k | 0 <= k < |l|
      ensures l[k] < |s.th| && s.th[l[k]].n == s.served + k
    {
      assert l[k] == s.draws[s.served + k];
    }
    Pigeonhole(l, |s.th|);
  }

  // Runs, of up to 2^32 threads.

  ghost predicate Next(s: State, s': State) {
    exists t: Tid :: t < |s.th| && s' == Step(s, t)
  }

  ghost predicate Start(s: State) {
    Init(s) && |s.th| <= WORD
  }

  ghost predicate Kept(s: State) {
    Inv(s) && |s.th| <= WORD
  }

  ghost predicate Run(r: seq<State>) {
    IsRun(r, Start, Next)
  }

  lemma NextKeeps(s: State, s': State)
    requires Kept(s) && Next(s, s')
    ensures Kept(s')
  {
    var t: Tid :| t < |s.th| && s' == Step(s, t);
    OutIsBounded(s);
    KeepStep(s, t);
  }

  lemma RunInv(r: seq<State>, n: nat)
    requires Run(r) && n < |r|
    ensures Inv(r[n]) && |r[n].th| <= WORD
  {
    forall s, s' | Kept(s) && Next(s, s')
      ensures Kept(s')
    {
      NextKeeps(s, s');
    }
    Always(r, Start, Next, Kept, n);
  }

  /** The last state of some run. */
  ghost predicate Reachable(s: State) {
    Reached(s, Start, Next)
  }

  lemma ReachableInv(s: State)
    requires Reachable(s)
    ensures Inv(s) && |s.th| <= WORD
  {
    var r :| IsRun(r, Start, Next) && r[|r| - 1] == s;
    RunInv(r, |r| - 1);
  }

  lemma ReachStep(s: State, t: Tid)
    requires Reachable(s) && t < |s.th|
    ensures Reachable(Step(s, t))
  {
    Reaches(s, Step(s, t), Start, Next);
  }

  /** In every run, of any length, the threads enter in the order of their draws and one at a
      time, and the oldest ticket is never left out. */
  lemma RunIsFair(r: seq<State>, n: nat)
    requires Run(r) && n < |r|
    ensures r[n].entered <= r[n].draws && r[n].served <= |r[n].entered| <= r[n].served + 1
    ensures forall t: Tid, u: Tid :: t < |r[n].th| && u < |r[n].th| ==>
      r[n].th[t].Inside? && r[n].th[u].Inside? ==> t == u
    ensures Out(r[n]) > 0 ==> var t := r[n].draws[r[n].served];
      t < |r[n].th| && (r[n].th[t].Inside? || Admitted(r[n], t))
  {
    RunInv(r, n);
    if Out(r[n]) > 0 {
      OldestEnters(r[n]);
    }
  }
}
