/** The slots of the hazard-pointer stack: one is in use only while its owner looks for a node to pop,
    and a thread is refused one only when it has seen all of them taken. */
module HazardSlots {
  import opened Memory
  import opened Runs
  import opened StackSpec
  import opened HazardStack
  import opened HazardSafety
  import opened HazardTheorems
  import opened HazardProgress

  // Slots in use.

  /** From the store of its hazard pointer to the store that clears it. */
  predicate Using(pc: PC) {
    pc.PopHazard? || pc.PopCheck? || pc.PopNext? || pc.PopCas? || pc.PopClear?
  }

  /** A slot that holds a pointer has an owner, who is looking for a node to pop. */
  ghost predicate SlotsClear(s: State) {
    && |s.pointers| == |s.ids|
    && forall k {:trigger s.pointers[k]} :: 0 <= k < |s.ids| && s.pointers[k] != NULL ==>
         && s.ids[k].Some? && s.ids[k].value < |s.th|
         && s.th[s.ids[k].value].slot == Some(k) && Using(s.th[s.ids[k].value].pc)
  }

  lemma SameSlots(s: State, s': State, t: Tid)
    requires SlotsClear(s) && t < |s.th| && s'.pointers == s.pointers && s'.ids == s.ids
    requires |s'.th| == |s.th| && forall u :: 0 <= u < |s.th| && u != t ==> s'.th[u] == s.th[u]
    requires Using(s.th[t].pc) ==> Using(s'.th[t].pc) && s'.th[t].slot == s.th[t].slot
    ensures SlotsClear(s')
  {
  }

  lemma TakeKeepsSlots(s: State, t: Tid, k: nat)
    requires SlotsClear(s) && t < |s.th| && s.th[t].pc == SlotCas(k) && k < |s.ids| && s.ids[k] == None
    ensures SlotsClear(TakeSlot(s, t, k))
  {
  }

  lemma SetKeepsSlots(s: State, t: Tid, top: Addr)
    requires SlotsClear(s) && t < |s.th| && s.th[t].pc == PopHazard(top) && SlotOk(s.pointers, s.ids, t, s.th[t])
    ensures HasSlot(s, t) && SlotsClear(SetHazard(s, t, top))
  {
  }

  lemma PopSameSlots(s: State, t: Tid, c: Choice)
    requires Enabled(s, t, c) && InPop(s.th[t].pc) && !s.th[t].pc.PopClear? && !s.th[t].pc.PopHazard?
    requires s.th[t].pc.SlotCas? ==> s.th[t].pc.i < |s.ids| ==> s.ids[s.th[t].pc.i].Some?
    ensures var s' := Step(s, t, c);
      && s'.pointers == s.pointers && s'.ids == s.ids && |s'.th| == |s.th|
      && (Using(s.th[t].pc) ==> Using(s'.th[t].pc) && s'.th[t].slot == s.th[t].slot)
  {
    match s.th[t].pc
    case SlotCas(_) =>
    case PopCheck(_) =>
    case PopCas(_, _) =>
    case _ =>
  }

  lemma ClearKeepsSlots(s: State, t: Tid, top: Addr, lin: Option<Value>)
    requires SlotsClear(s) && t < |s.th| && s.th[t].pc == PopClear(top, lin)
    requires SlotOk(s.pointers, s.ids, t, s.th[t])
    ensures HasSlot(s, t) && SlotsClear(ClearHazard(s, t, top, lin))
  {
  }

  lemma ExitKeepsSlots(s: State, t: Tid, k: nat)
    requires SlotsClear(s) && t < |s.th| && k < |s.ids| && SlotOk(s.pointers, s.ids, t, s.th[t])
    ensures s.th[t].pc == ExitId(k) ==> s.pointers[k] == NULL && SlotsClear(DropId(s, t, k))
    ensures s.th[t].pc == ExitPointer(k) ==> SlotsClear(DropPointer(s, t, k))
  {
  }

  /** Everything else leaves the slots alone. */
  lemma OtherwiseSame(s: State, t: Tid, c: Choice)
    requires Enabled(s, t, c) && !InPop(s.th[t].pc) && !s.th[t].pc.ExitId? && !s.th[t].pc.ExitPointer?
    ensures var s' := Step(s, t, c); s'.pointers == s.pointers && s'.ids == s.ids
  {
    match s.th[t].pc
    case PushCas(_, _) =>
    case HandScan(_, _) =>
    case BoxCas(_, _) =>
    case Walk(_) =>
    case BoxScan(_, _, _, _) =>
    case _ =>
  }

  lemma OthersSame(s: State, t: Tid, c: Choice)
    requires Enabled(s, t, c)
    ensures var s' := Step(s, t, c); |s'.th| == |s.th| && forall u :: 0 <= u < |s.th| && u != t ==> s'.th[u] == s.th[u]
  {
    forall u | 0 <= u < |s.th| && u != t
      ensures u < |Step(s, t, c).th| && Step(s, t, c).th[u] == s.th[u]
    {
      Writes(s, t, c, u, NULL, NULL);
    }
    Writes(s, t, c, t + 1, NULL, NULL);
  }

  lemma StepKeepsSlots(s: State, t: Tid, c: Choice)
    requires SlotsClear(s) && Enabled(s, t, c) && SlotOk(s.pointers, s.ids, t, s.th[t])
    ensures SlotsClear(Step(s, t, c))
  {
    var pc := s.th[t].pc;
    if pc.PopClear? {
      ClearKeepsSlots(s, t, pc.top, pc.lin);
    } else if pc.PopHazard? {
      SetKeepsSlots(s, t, pc.top);
    } else if pc.SlotCas? && pc.i < |s.ids| && s.ids[pc.i] == None {
      TakeKeepsSlots(s, t, pc.i);
    } else if pc.ExitId? || pc.ExitPointer? {
      ExitKeepsSlots(s, t, pc.slot);
    } else {
      if InPop(pc) {
        PopSameSlots(s, t, c);
      } else {
        OtherwiseSame(s, t, c);
      }
      OthersSame(s, t, c);
      SameSlots(s, Step(s, t, c), t);
    }
  }

  lemma NextKeepsSlots(s: State, s': State)
    requires Inv(s) && SlotsClear(s) && Next(s, s')
    ensures SlotsClear(s')
  {
    var t, c :| Enabled(s, t, c) && Orderly(s, t) && s' == Step(s, t, c);
    assert ThreadOk(s, t);
    StepKeepsSlots(s, t, c);
  }

  /** In every run, a slot holds a pointer only while its owner looks for a node to pop; so a thread
      that begins its exit has cleared its slot already. */
  lemma {:induction false} RunKeepsSlots(r: seq<State>, n: nat)
    requires Run(r) && n < |r|
    ensures SlotsClear(r[n])
  {
    if n > 0 {
      RunKeepsSlots(r, n - 1);
      RunInv(r, n - 1);
      StepAt(r, Init, Next, n - 1);
      NextKeepsSlots(r[n - 1], r[n]);
    }
  }

  // Refusals.

  /** Thread t looks for a slot, or has been refused one, and has passed slot j. */
  predicate HasPassed(s: State, t: Tid, j: nat) {
    && t < |s.th|
    && (s.th[t].pc.SlotCas? || s.th[t].pc == Return(Refused))
    && if s.th[t].pc.SlotCas? then j < s.th[t].pc.i else j < |s.ids|
  }

  /** Thread t tries slot j, which is taken. */
  predicate FindsTaken(s: State, t: Tid, j: nat) {
    t < |s.th| && s.th[t].pc == SlotCas(j) && j < |s.ids| && s.ids[j].Some?
  }

  lemma PopPasses(s: State, t: Tid, c: Choice, j: nat)
    requires Enabled(s, t, c) && InPop(s.th[t].pc) && HasPassed(Step(s, t, c), t, j)
    ensures HasPassed(s, t, j) || FindsTaken(s, t, j)
  {
    match s.th[t].pc
    case SlotCas(_) =>
    case PopCheck(_) =>
    case PopCas(_, _) =>
    case _ =>
  }

  lemma OwnPasses(s: State, t: Tid, c: Choice, j: nat)
    requires Enabled(s, t, c) && ThreadOk(s, t) && HasPassed(Step(s, t, c), t, j)
    ensures HasPassed(s, t, j) || FindsTaken(s, t, j)
  {
    if InPop(s.th[t].pc) {
      PopPasses(s, t, c, j);
    } else {
      NeverRefused(s, t, c);
    }
  }

  lemma ReclaimNotRefused(s: State, t: Tid, c: Choice)
    requires Enabled(s, t, c) && InReclaim(s.th[t].pc)
    ensures t < |Step(s, t, c).th| && !Step(s, t, c).th[t].pc.SlotCas? && Step(s, t, c).th[t].pc != Return(Refused)
  {
    match s.th[t].pc
    case BoxCas(_, _) =>
    case Walk(_) =>
    case _ =>
  }

  lemma NeverRefused(s: State, t: Tid, c: Choice)
    requires Enabled(s, t, c) && !InPop(s.th[t].pc)
    ensures t < |Step(s, t, c).th|
    ensures Step(s, t, c).th[t].pc.SlotCas? ==> Step(s, t, c).th[t].pc.i == 0
    ensures Step(s, t, c).th[t].pc != Return(Refused)
  {
    if InReclaim(s.th[t].pc) {
      ReclaimNotRefused(s, t, c);
    } else {
      match s.th[t].pc
      case Idle =>
      case PushCas(_, _) =>
      case _ =>
    }
  }

  lemma SameIds(s: State, u: Tid, c: Choice)
    requires Enabled(s, u, c)
    ensures |Step(s, u, c).ids| == |s.ids|
  {
    if InPop(s.th[u].pc) {
      PopSameIds(s, u, c);
    } else if !s.th[u].pc.ExitId? && !s.th[u].pc.ExitPointer? {
      OtherwiseSame(s, u, c);
    }
  }

  lemma PopSameIds(s: State, u: Tid, c: Choice)
    requires Enabled(s, u, c) && InPop(s.th[u].pc)
    ensures |Step(s, u, c).ids| == |s.ids|
  {
    match s.th[u].pc
    case SlotCas(_) =>
    case PopCheck(_) =>
    case PopCas(_, _) =>
    case _ =>
  }

  lemma NextPasses(s: State, s': State, t: Tid, j: nat)
    requires Inv(s) && Next(s, s') && HasPassed(s', t, j)
    ensures HasPassed(s, t, j) || FindsTaken(s, t, j)
  {
    var u, c :| Enabled(s, u, c) && Orderly(s, u) && s' == Step(s, u, c);
    if u == t {
      assert ThreadOk(s, t);
      OwnPasses(s, t, c, j);
    } else {
      SameIds(s, u, c);
      Writes(s, u, c, t, NULL, NULL);
    }
  }

  /** In step k thread t found slot j taken, and it has looked for a slot ever since. */
  ghost predicate FoundTaken(r: seq<State>, k: nat, n: nat, t: Tid, j: nat) {
    k < n < |r| && FindsTaken(r[k], t, j) && forall i :: k < i <= n ==> HasPassed(r[i], t, j)
  }

  ghost predicate WasTaken(r: seq<State>, n: nat, t: Tid, j: nat) {
    exists k :: FoundTaken(r, k, n, t, j)
  }

  lemma RunPasses(r: seq<State>, k: nat, t: Tid, j: nat)
    requires Run(r) && k + 1 < |r| && HasPassed(r[k + 1], t, j)
    ensures HasPassed(r[k], t, j) || FindsTaken(r[k], t, j)
  {
    RunInv(r, k);
    StepAt(r, Init, Next, k);
    NextPasses(r[k], r[k + 1], t, j);
  }

  lemma NothingPassedAtFirst(r: seq<State>, n: nat, t: Tid, j: nat)
    requires Run(r) && n < |r| && HasPassed(r[n], t, j)
    ensures n > 0
  {
  }

  lemma {:induction false} PassedWasTaken(r: seq<State>, n: nat, t: Tid, j: nat)
    requires Run(r) && n < |r| && HasPassed(r[n], t, j)
    ensures WasTaken(r, n, t, j)
  {
    NothingPassedAtFirst(r, n, t, j);
    RunPasses(r, n - 1, t, j);
    assert r[n - 1 + 1] == r[n];
    if HasPassed(r[n - 1], t, j) {
      PassedWasTaken(r, n - 1, t, j);
      var k :| FoundTaken(r, k, n - 1, t, j);
      assert FoundTaken(r, k, n, t, j);
    } else {
      assert FoundTaken(r, n - 1, n, t, j);
    }
  }

  /** In every run, a pop that gives up for want of a slot has found every slot taken, each at some
      moment of its search. */
  lemma RefusedFoundAllTaken(r: seq<State>, n: nat, t: Tid)
    requires Run(r) && n < |r| && t < |r[n].th| && r[n].th[t].pc == Return(Refused)
    ensures forall j :: 0 <= j < |r[n].ids| ==> WasTaken(r, n, t, j)
  {
    forall j | 0 <= j < |r[n].ids|
      ensures WasTaken(r, n, t, j)
    {
      PassedWasTaken(r, n, t, j);
    }
  }
}
