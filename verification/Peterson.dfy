/** Peterson's algorithm for two processes, each read and write of a shared variable a step of
    its own: mutual exclusion, no deadlock, and at most one overtaking. */
module Peterson {
  import opened Runs

  datatype PC =
    | Idle
    | Raise      // interested[process] = true
    | Give       // turn = other
    | TestOther  // interested[other] == true ?
    | TestTurn   // turn == other ?
    | Inside     // until exit(): interested[process] = false

  /** `overtaken[p]` counts the entries of the other process since p last wrote `turn`. */
  datatype State = State(turn: nat, interested: seq<bool>, pc: seq<PC>, overtaken: seq<nat>)

  function Other(p: nat): nat { if p == 0 then 1 else 0 }

  predicate Shape(s: State) {
    |s.interested| == 2 == |s.pc| == |s.overtaken| && s.turn < 2
  }

  function At(s: State, p: nat, pc: PC): State
    requires Shape(s) && p < 2
  {
    s.(pc := s.pc[p := pc])
  }

  predicate Waiting(pc: PC) { pc.TestOther? || pc.TestTurn? }

  function Enter(s: State, p: nat): State
    requires Shape(s) && p < 2
  {
    var o := Other(p);
    At(s, p, Inside).(overtaken := if Waiting(s.pc[o]) then s.overtaken[o := s.overtaken[o] + 1] else s.overtaken)
  }

  function Step(s: State, p: nat): State
    requires Shape(s) && p < 2
  {
    match s.pc[p]
    case Idle => At(s, p, Raise)
    case Raise => At(s, p, Give).(interested := s.interested[p := true])
    case Give => At(s, p, TestOther).(turn := Other(p), overtaken := s.overtaken[p := 0])
    case TestOther => if s.interested[Other(p)] then At(s, p, TestTurn) else Enter(s, p)
    case TestTurn => if s.turn == Other(p) then At(s, p, TestOther) else Enter(s, p)
    case Inside => At(s, p, Idle).(interested := s.interested[p := false])
  }

  /** `turn` may start as either process: it is only read after it has been written. */
  ghost predicate Init(s: State) {
    Shape(s) && s.interested == [false, false] && s.pc == [Idle, Idle] && s.overtaken == [0, 0]
  }

  /** The flag of p is up from Raise on. A process inside, and one that has overtaken, is not
      followed by the other before its turn. */
  predicate OkFor(s: State, p: nat)
    requires Shape(s) && p < 2
  {
    var o := Other(p);
    && (s.interested[p] <==> !s.pc[p].Idle? && !s.pc[p].Raise?)
    && (s.pc[p].Inside? ==> !s.pc[o].Inside? && (Waiting(s.pc[o]) ==> s.turn == p))
    && (Waiting(s.pc[p]) ==> s.overtaken[p] <= 1)
    && (Waiting(s.pc[p]) && s.overtaken[p] == 1 && Waiting(s.pc[o]) ==> s.turn == p)
  }

  predicate Inv(s: State) {
    Shape(s) && OkFor(s, 0) && OkFor(s, 1)
  }

  lemma KeepStep(s: State, p: nat)
    requires Inv(s) && p < 2
    ensures Inv(Step(s, p))
  {
    assert p == 0 || p == 1;
  }

  /** A process that would go round its loop again. */
  predicate Blocked(s: State, p: nat)
    requires Shape(s) && p < 2
  {
    Waiting(s.pc[p]) && s.interested[Other(p)] && s.turn == Other(p)
  }

  /** When both wait, exactly the process named by `turn` can pass, and it does within two of its
      own steps, whatever the other does meanwhile. */
  lemma NotBothStuck(s: State)
    requires Inv(s) && Waiting(s.pc[0]) && Waiting(s.pc[1])
    ensures forall p: nat :: p < 2 ==> (Blocked(s, p) <==> p != s.turn)
    ensures var p, o := s.turn, Other(s.turn);
      && Step(s, o).turn == p && Waiting(Step(s, o).pc[0]) && Waiting(Step(s, o).pc[1]) && Step(s, o).pc[p] == s.pc[p]
      && var s' := Step(s, p);
         s'.pc[p].Inside? || (s'.pc[p].TestTurn? && s'.turn == p && Waiting(s'.pc[o]) && Step(s', p).pc[p].Inside?)
  {
  }

  /** A waiting process whose turn it is keeps the turn until it enters. */
  lemma TurnIsKept(s: State, p: nat, q: nat)
    requires Inv(s) && p < 2 && q < 2 && Waiting(s.pc[p]) && s.turn == p
    ensures var s' := Step(s, q); s'.pc[p].Inside? || (Waiting(s'.pc[p]) && s'.turn == p)
  {
  }

  /** A waiting process, left to itself, is inside within two steps exactly when it is not blocked;
      beside a process that is out it never is. */
  lemma EntersIff(s: State, p: nat)
    requires Inv(s) && p < 2 && Waiting(s.pc[p])
    ensures Shape(Step(s, p)) && (Step(s, p).pc[p].Inside? || Step(Step(s, p), p).pc[p].Inside? <==> !Blocked(s, p))
    ensures s.pc[Other(p)].Idle? || s.pc[Other(p)].Raise? ==> !Blocked(s, p)
  {
  }

  /** A waiting process whose turn it is enters with its second step at the latest, whatever the
      other does in between. */
  lemma TurnEnters(s: State, p: nat, q: nat)
    requires Inv(s) && p < 2 && q < 2 && Waiting(s.pc[p]) && s.turn == p
    ensures var s' := Step(s, q);
      if q != p then s'.pc[p] == s.pc[p] && s'.turn == p
      else s'.pc[p].Inside? || (s.pc[p].TestOther? && s'.pc[p].TestTurn? && s'.turn == p)
  {
  }

  /** How far a process is from waiting, or from being out. */
  function Rank(pc: PC): nat {
    match pc
    case Idle => 0
    case Inside => 1
    case Raise => 4
    case Give => 3
    case _ => 2
  }

  /** Outside its loop a process is never held up: it goes from the call to the loop, and from
      inside to out, in steps of its own. */
  lemma OwnSteps(s: State, p: nat)
    requires Inv(s) && p < 2 && !Waiting(s.pc[p])
    ensures if s.pc[p].Idle? then Rank(Step(s, p).pc[p]) == 4 else Rank(Step(s, p).pc[p]) == Rank(s.pc[p]) - 1
    ensures s.pc[p].Give? ==> Waiting(Step(s, p).pc[p])
  {
  }

  // Runs.

  ghost predicate Next(s: State, s': State) {
    exists p: nat :: p < 2 && Shape(s) && s' == Step(s, p)
  }

  ghost predicate Run(r: seq<State>) {
    IsRun(r, Init, Next)
  }

  lemma NextKeeps(s: State, s': State)
    requires Inv(s) && Next(s, s')
    ensures Inv(s')
  {
    var p: nat :| p < 2 && Shape(s) && s' == Step(s, p);
    KeepStep(s, p);
  }

  lemma RunInv(r: seq<State>, n: nat)
    requires Run(r) && n < |r|
    ensures Inv(r[n])
  {
    forall s, s' | Inv(s) && Next(s, s')
      ensures Inv(s')
    {
      NextKeeps(s, s');
    }
    Always(r, Init, Next, Inv, n);
  }

  /** The last state of some run. */
  ghost predicate Reachable(s: State) {
    Reached(s, Init, Next)
  }

  lemma ReachableInv(s: State)
    requires Reachable(s)
    ensures Inv(s)
  {
    var r :| IsRun(r, Init, Next) && r[|r| - 1] == s;
    RunInv(r, |r| - 1);
  }

  lemma ReachStep(s: State, p: nat)
    requires Reachable(s) && Shape(s) && p < 2
    ensures Reachable(Step(s, p))
  {
    Reaches(s, Step(s, p), Init, Next);
  }

  /** In every run, never both inside, never both blocked, and a process that has written `turn`
      is overtaken at most once before it enters. */
  lemma RunIsFair(r: seq<State>, n: nat)
    requires Run(r) && n < |r|
    ensures Shape(r[n]) && !(r[n].pc[0].Inside? && r[n].pc[1].Inside?)
    ensures !(Blocked(r[n], 0) && Blocked(r[n], 1))
    ensures forall p: nat :: p < 2 && Waiting(r[n].pc[p]) ==> r[n].overtaken[p] <= 1
  {
    RunInv(r, n);
  }
}

/** The variant that claims the turn for itself after its loop. It does not exclude. */
module TweakedPeterson {
  import opened Runs

  datatype PC =
    | Idle
    | Raise      // interested[process] = true
    | TestOther  // interested[other] == true ?
    | TestTurn   // turn == other ?
    | Claim      // turn = process
    | Inside     // until leave_region(): interested[process] = false
    | Yield      // turn = other

  datatype State = State(turn: nat, interested: seq<bool>, pc: seq<PC>)

  function Other(p: nat): nat { if p == 0 then 1 else 0 }

  predicate Shape(s: State) {
    |s.interested| == 2 == |s.pc| && s.turn < 2
  }

  function At(s: State, p: nat, pc: PC): State
    requires Shape(s) && p < 2
  {
    s.(pc := s.pc[p := pc])
  }

  function Step(s: State, p: nat): State
    requires Shape(s) && p < 2
  {
    match s.pc[p]
    case Idle => At(s, p, Raise)
    case Raise => At(s, p, TestOther).(interested := s.interested[p := true])
    case TestOther => At(s, p, if s.interested[Other(p)] then TestTurn else Claim)
    case TestTurn => At(s, p, if s.turn == Other(p) then TestOther else Claim)
    case Claim => At(s, p, Inside).(turn := p)
    case Inside => At(s, p, Yield).(interested := s.interested[p := false])
    case Yield => At(s, p, Idle).(turn := Other(p))
  }

  ghost predicate Init(s: State) {
    s == State(0, [false, false], [Idle, Idle])
  }

  ghost predicate Next(s: State, s': State) {
    exists p: nat :: p < 2 && Shape(s) && s' == Step(s, p)
  }

  ghost predicate Run(r: seq<State>) {
    IsRun(r, Init, Next)
  }

  /** Past its loop and not yet out. */
  predicate Past(pc: PC) { pc.Claim? || pc.Inside? }

  predicate BothPast(s: State)
    requires Shape(s)
  {
    Past(s.pc[0]) && Past(s.pc[1])
  }

  /** Process p is about to find that it is its turn, while the other is past its loop but has
      not yet written `turn`. */
  predicate Slips(s: State, p: nat)
    requires Shape(s) && p < 2
  {
    s.pc[p].TestTurn? && s.turn == p && s.pc[Other(p)].Claim?
  }

  predicate OkFor(s: State, p: nat)
    requires Shape(s) && p < 2
  {
    && (s.interested[p] <==> !s.pc[p].Idle? && !s.pc[p].Raise? && !s.pc[p].Yield?)
    && (s.pc[p].Inside? ==> s.turn == p)
  }

  predicate Inv(s: State) {
    Shape(s) && OkFor(s, 0) && OkFor(s, 1) && !BothPast(s)
  }

  /** A step lets both past their loops exactly when it slips. */
  lemma SlipsIff(s: State, p: nat)
    requires Inv(s) && p < 2
    ensures Shape(Step(s, p)) && (BothPast(Step(s, p)) <==> Slips(s, p))
    ensures !Slips(s, p) ==> Inv(Step(s, p))
  {
    assert p == 0 || p == 1;
  }

  /** No state before the last of the run has a process that slips in the step after it. */
  ghost predicate NobodySlips(r: seq<State>) {
    forall i, j, p: nat :: 0 <= i && j == i + 1 < |r| && p < 2 && Shape(r[i]) && r[j] == Step(r[i], p) ==>
      !Slips(r[i], p)
  }

  lemma {:induction false} RunInv(r: seq<State>, n: nat)
    requires Run(r) && n < |r| && NobodySlips(r)
    ensures Inv(r[n])
  {
    if n > 0 {
      RunInv(r, n - 1);
      StepAt(r, Init, Next, n - 1);
      var p: nat :| p < 2 && r[n] == Step(r[n - 1], p);
      SlipsIff(r[n - 1], p);
    }
  }

  /** Up to step n nobody is past its loop together with the other. */
  ghost predicate Exclusive(r: seq<State>) {
    forall i :: 0 <= i < |r| ==> Shape(r[i]) && !BothPast(r[i])
  }

  lemma {:induction false} ExclusiveInv(r: seq<State>, n: nat)
    requires Run(r) && n < |r| && Exclusive(r)
    ensures Inv(r[n])
  {
    if n > 0 {
      ExclusiveInv(r, n - 1);
      StepAt(r, Init, Next, n - 1);
      var p: nat :| p < 2 && r[n] == Step(r[n - 1], p);
      SlipsIff(r[n - 1], p);
    }
  }

  /** A run keeps the processes apart exactly when nobody slips. */
  lemma ExclusiveIff(r: seq<State>)
    requires Run(r)
    ensures Exclusive(r) <==> NobodySlips(r)
  {
    if NobodySlips(r) {
      forall i | 0 <= i < |r|
        ensures Shape(r[i]) && !BothPast(r[i])
      {
        RunInv(r, i);
      }
    }
    if Exclusive(r) {
      forall i, j, p: nat | 0 <= i && j == i + 1 < |r| && p < 2 && Shape(r[i]) && r[j] == Step(r[i], p)
        ensures !Slips(r[i], p)
      {
        ExclusiveInv(r, i);
        SlipsIff(r[i], p);
      }
    }
  }

  /** From every slip the code goes on to both inside, in three steps. */
  lemma SlipEnters(s: State, p: nat)
    requires Inv(s) && p < 2 && Slips(s, p)
    ensures var s1 := Step(s, p);
      && Shape(s1) && var s2 := Step(s1, p);
      && Shape(s2) && var s3 := Step(s2, Other(p));
      Next(s, s1) && Next(s1, s2) && Next(s2, s3) && s3.pc == [Inside, Inside]
  {
    var s1 := Step(s, p);
    var s2 := Step(s1, p);
    var s3 := Step(s2, Other(p));
    assert p == 0 || p == 1;
    assert Next(s, s1) && Next(s1, s2) && Next(s2, s3);
  }

  /** Without a slip, never both inside. */
  lemma NobodySlipsExcludes(r: seq<State>, n: nat)
    requires Run(r) && NobodySlips(r) && n < |r|
    ensures Shape(r[n]) && !(r[n].pc[0].Inside? && r[n].pc[1].Inside?)
  {
    RunInv(r, n);
  }

  /** From the initial state, process 1 finds process 0 not interested, process 0 then finds that
      it is its turn, and both end up inside. */
  lemma BothEnter() returns (r: seq<State>)
    ensures Run(r) && var s := r[|r| - 1]; s.pc == [Inside, Inside]
  {
    var s0 := State(0, [false, false], [Idle, Idle]);
    var s1 := Step(s0, 1);
    var s2 := Step(s1, 1);
    var s3 := Step(s2, 1);
    var s4 := Step(s3, 0);
    var s5 := Step(s4, 0);
    var s6 := Step(s5, 0);
    var s7 := Step(s6, 0);
    var s8 := Step(s7, 0);
    var s9 := Step(s8, 1);
    r := [s0, s1, s2, s3, s4, s5, s6, s7, s8, s9];
    assert Next(s0, s1) && Next(s1, s2) && Next(s2, s3) && Next(s3, s4) && Next(s4, s5);
    assert Next(s5, s6) && Next(s6, s7) && Next(s7, s8) && Next(s8, s9);
  }
}
