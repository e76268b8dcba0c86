/** What the order of the two stores in the thread-exit destructor costs. From any state in which
    a thread is about to clear a slot in which its new owner has published, the code can go on to
    read a node that has been freed; and such a state is reached from the initial one. */
module HazardExit {
  import opened Memory
  import opened Runs
  import opened StackSpec
  import opened HazardStack
  import opened HazardSafety
  import opened HazardTheorems

  /** The code can go from s to s'. */
  ghost predicate Leads(s: State, s': State) {
    Reached(s', x => x == s, AnyNext)
  }

  lemma Reach(z: State, s: State, t: Tid, c: Choice, s': State)
    requires Leads(z, s) && Enabled(s, t, c) && s' == Step(s, t, c)
    ensures Leads(z, s')
  {
    assert AnyNext(s, s');
    Reaches(s, s', x => x == z, AnyNext);
  }

  lemma LeadsToItself(s: State)
    ensures Leads(s, s)
  {
    var init := (x: State) => x == s;
    assert IsRun([s], init, AnyNext);
  }

  /** Thread t is at place `pc`, with nothing in hand. */
  function Put(s: State, t: Tid, slot: Option<nat>, pc: PC): State
    requires t < |s.th|
  {
    s.(th := s.th[t := Local(slot, None, [], pc)])
  }

  lemma Already(s: State, t: Tid, slot: Option<nat>, pc: PC)
    requires t < |s.th| && s.th[t] == Local(slot, None, [], pc)
    ensures Put(s, t, slot, pc) == s
  {
    assert s.th[t := Local(slot, None, [], pc)] == s.th;
  }

  /** A step that leaves t with nothing in hand: from Put(s, t, ...) to Put(s', t, ...). */
  lemma Go(z: State, s: State, t: Tid, slot: Option<nat>, pc: PC, c: Choice,
           s': State, slot': Option<nat>, pc': PC)
    requires t < |s.th| && s'.th == s.th && Leads(z, Put(s, t, slot, pc)) && Enabled(Put(s, t, slot, pc), t, c)
    requires var n := Step(Put(s, t, slot, pc), t, c);
      n == s'.(th := n.th) && n.th == Put(s, t, slot, pc).th[t := Local(slot', None, [], pc')]
    ensures Leads(z, Put(s', t, slot', pc'))
  {
    assert Put(s, t, slot, pc).th[t := Local(slot', None, [], pc')] == s.th[t := Local(slot', None, [], pc')];
    Reach(z, Put(s, t, slot, pc), t, c, Put(s', t, slot', pc'));
  }

  /** The search for a slot takes the first free one. */
  lemma {:induction false} ReachSlot(z: State, s: State, t: Tid, i: nat, k: nat) returns (m: State)
    requires t < |s.th| && i <= k < |s.ids| && Leads(z, Put(s, t, None, SlotCas(i)))
    requires s.ids[k] == None && forall x :: i <= x < k ==> s.ids[x] != None
    ensures m == s.(ids := s.ids[k := Some(t)]) && Leads(z, Put(m, t, Some(k), PopLoad))
    decreases k - i
  {
    m := s.(ids := s.ids[k := Some(t)]);
    if i == k {
      Go(z, s, t, None, SlotCas(k), Plain, m, Some(k), PopLoad);
    } else {
      Go(z, s, t, None, SlotCas(i), Plain, s, None, SlotCas(i + 1));
      m := ReachSlot(z, s, t, i + 1, k);
    }
  }

  /** A pop publishes the head in its slot and looks at the head again. */
  lemma ReachChecked(z: State, s: State, t: Tid, k: nat) returns (m: State)
    requires t < |s.th| && k < |s.pointers| && Leads(z, Put(s, t, Some(k), PopLoad))
    ensures m == s.(pointers := s.pointers[k := s.head])
    ensures Leads(z, Put(m, t, Some(k), if s.head == NULL then PopClear(NULL, None) else PopNext(s.head)))
  {
    m := s.(pointers := s.pointers[k := s.head]);
    Go(z, s, t, Some(k), PopLoad, Plain, s, Some(k), PopHazard(s.head));
    Go(z, s, t, Some(k), PopHazard(s.head), Plain, m, Some(k), PopCheck(s.head));
    Go(z, m, t, Some(k), PopCheck(s.head), Plain, m, Some(k),
       if s.head == NULL then PopClear(NULL, None) else PopNext(s.head));
  }

  /** From its validation of the head x, a pop goes on to unlink x ... */
  lemma ReachUnlinked(z: State, s: State, t: Tid, k: nat, x: Addr) returns (m: State, lin: Option<Value>)
    requires t < |s.th| && Leads(z, Put(s, t, Some(k), PopNext(x))) && s.head == x && x in s.nodes
    ensures m.th == s.th && m.nodes == s.nodes && m.pointers == s.pointers
    ensures Leads(z, Put(m, t, Some(k), PopClear(x, lin)))
  {
    var next := s.nodes[x].next;
    Go(z, s, t, Some(k), PopNext(x), Plain, s, Some(k), PopCas(x, next));
    var s2 := Unlink(Put(s, t, Some(k), PopCas(x, next)), t, x, next);
    lin := s2.th[t].pc.lin;
    m := s2.(th := s.th);
    Go(z, s, t, Some(k), PopCas(x, next), Plain, m, Some(k), PopClear(x, lin));
  }

  /** ... to scan for it, in vain, and free it ... */
  lemma {:induction false} ReachScanned(z: State, s: State, t: Tid, x: Addr, i: nat) returns (s': State)
    requires t < |s.th| && Leads(z, s) && s.th[t].pc == HandScan(x, i) && i <= |s.pointers| && x in s.nodes
    requires forall k :: i <= k < |s.pointers| ==> s.pointers[k] != x
    ensures Leads(z, s') && |s'.th| == |s.th| && x !in s'.nodes
    ensures forall u :: 0 <= u < |s.th| && u != t ==> s'.th[u] == s.th[u]
    decreases |s.pointers| - i
  {
    s' := Step(s, t, Plain);
    Reach(z, s, t, Plain, s');
    if i < |s.pointers| {
      s' := ReachScanned(z, s', t, x, i + 1);
    }
  }

  /** ... when it is published in no other slot. */
  lemma ReachFreed(z: State, s: State, t: Tid, j: nat, x: Addr) returns (s': State)
    requires t < |s.th| && Leads(z, Put(s, t, Some(j), PopNext(x))) && s.head == x != NULL && x in s.nodes
    requires j < |s.pointers| && forall k :: 0 <= k < |s.pointers| && k != j ==> s.pointers[k] != x
    ensures Leads(z, s') && |s'.th| == |s.th| && x !in s'.nodes
    ensures forall u :: 0 <= u < |s.th| && u != t ==> s'.th[u] == s.th[u]
  {
    var m, lin := ReachUnlinked(z, s, t, j, x);
    var m1 := m.(pointers := m.pointers[j := NULL]);
    Go(z, m, t, Some(j), PopClear(x, lin), Plain, m1, Some(j), PopSwap(x, lin));
    var s3 := Put(m1, t, Some(j), PopSwap(x, lin));
    var s4 := SwapData(s3, t, x);
    Reach(z, s3, t, Plain, s4);
    s' := ReachScanned(z, s4, t, x, 0);
  }

  /** A push of v makes its node at address a ... */
  lemma ReachNode(z: State, s: State, t: Tid, slot: Option<nat>, v: Value, a: Addr) returns (m: State)
    requires t < |s.th| && Leads(z, Put(s, t, slot, Idle)) && Fresh(s, a)
    ensures m == s.(nodes := s.nodes[a := Node(Some(v), s.head)], own := s.own[a := Private(t)])
    ensures Leads(z, Put(m, t, slot, PushCas(a, v)))
  {
    var m1 := s.(nodes := s.nodes[a := Node(Some(v), NULL)], own := s.own[a := Private(t)]);
    m := s.(nodes := s.nodes[a := Node(Some(v), s.head)], own := s.own[a := Private(t)]);
    Go(z, s, t, slot, Idle, Choice.Call(Push(v)), s, slot, PushNew(v));
    Go(z, s, t, slot, PushNew(v), Address(a), m1, slot, PushLoad(a, v));
    assert m1.nodes[a := Node(Some(v), s.head)] == m.nodes;
    Go(z, m1, t, slot, PushLoad(a, v), Plain, m, slot, PushCas(a, v));
  }

  /** ... and publishes it. */
  lemma ReachPush(z: State, s: State, t: Tid, slot: Option<nat>, v: Value, a: Addr) returns (m: State)
    requires t < |s.th| && Leads(z, Put(s, t, slot, Idle)) && Fresh(s, a)
    ensures |m.th| == |s.th| && Leads(z, Put(m, t, slot, Idle)) && m.th == s.th
    ensures m.pointers == s.pointers && m.ids == s.ids && m.head == a && a in m.nodes
    ensures s.nodes.Keys <= m.nodes.Keys
  {
    var m1 := ReachNode(z, s, t, slot, v, a);
    m := m1.(head := a, stack := s.stack + [a], vals := s.vals + [v], own := m1.own[a := Linked(|s.stack|)]);
    Go(z, m1, t, slot, PushCas(a, v), Plain, m, slot, Return(Pushed));
    Go(z, m, t, slot, Return(Pushed), Plain, m, slot, Idle);
  }

  lemma {:induction false} Bound(a: set<Addr>) returns (b: Addr)
    ensures forall x :: x in a ==> x < b
  {
    if a == {} {
      b := 0;
    } else {
      var x :| x in a;
      var b' := Bound(a - {x});
      b := if x < b' then b' else x + 1;
      forall y | y in a
        ensures y < b
      {
        assert y == x || y in a - {x};
      }
    }
  }

  /** An address that is in use nowhere and published in no slot. */
  lemma UnusedAddress(s: State) returns (a: Addr)
    ensures Fresh(s, a) && forall i :: 0 <= i < |s.pointers| ==> s.pointers[i] != a
  {
    var used := s.nodes.Keys + s.boxes.Keys + (set i | 0 <= i < |s.pointers| :: s.pointers[i]);
    a := Bound(used + {NULL});
    assert NULL in used + {NULL} && a !in used + {NULL};
    forall i | 0 <= i < |s.pointers|
      ensures s.pointers[i] != a
    {
      assert s.pointers[i] in used;
    }
  }

  /** Thread u is about to clear slot k, in which its new owner t has published; w, which has slot
      j, can push and pop. */
  ghost predicate Disorder(s: State, t: Tid, u: Tid, w: Tid, k: nat, j: nat) {
    && t < |s.th| && u < |s.th| && w < |s.th|
    && s.th[u].pc == ExitPointer(k) && s.th[t].slot == Some(k) && Published(s.th[t].pc) != NULL
    && s.th[w] == Local(Some(j), None, [], Idle)
  }

  /** What the invariant says of the slots and nodes of such a state. */
  ghost predicate InPlace(s: State, t: Tid, k: nat, j: nat) {
    && t < |s.th| && |s.ids| == |s.pointers| && k < |s.ids| && j < |s.ids| && j != k
    && (s.th[t].pc.PopNext? ==> s.th[t].pc.top in s.nodes)
    && s.pointers[k] == Published(s.th[t].pc)
  }

  /** With a new head in the way, t goes round its loop ... */
  lemma ReachRetry(z: State, s: State, t: Tid)
    requires Leads(z, s) && t < |s.th| && Published(s.th[t].pc) !in {NULL, s.head}
    requires s.th[t].pc.PopNext? ==> s.th[t].pc.top in s.nodes
    ensures Leads(z, At(s, t, PopHazard(s.head)))
  {
    var s1 := s;
    if s.th[t].pc.PopNext? {
      s1 := Step(s, t, Plain);
      Reach(z, s, t, Plain, s1);
    }
    assert Step(s1, t, Plain).th == At(s, t, PopHazard(s.head)).th;
    Reach(z, s1, t, Plain, At(s, t, PopHazard(s.head)));
  }

  /** ... and validates the new head a. */
  lemma ReachValid(z: State, s: State, t: Tid, k: nat, a: Addr) returns (m: State)
    requires t < |s.th| && s.th[t].slot == Some(k) && k < |s.pointers| && s.head == a != NULL
    requires Leads(z, At(s, t, PopHazard(a)))
    ensures Leads(z, m) && m == At(s, t, PopNext(a)).(pointers := s.pointers[k := a])
  {
    var s2 := At(s, t, PopHazard(a));
    var s3 := SetHazard(s2, t, a);
    Reach(z, s2, t, Plain, s3);
    m := At(s, t, PopNext(a)).(pointers := s.pointers[k := a]);
    assert Step(s3, t, Plain).th == m.th;
    Reach(z, s3, t, Plain, m);
  }

  /** Thread w pushes a fresh node, t validates it, and u clears the slot it is published in. */
  lemma ReachUnprotected(s: State, t: Tid, u: Tid, w: Tid, k: nat, j: nat) returns (m: State, a: Addr)
    requires Disorder(s, t, u, w, k, j) && InPlace(s, t, k, j)
    ensures Leads(s, m) && |m.th| == |s.th| && m.th[t].pc == PopNext(a) && m.th[w] == s.th[w]
    ensures m.head == a != NULL && a in m.nodes && |m.pointers| == |s.pointers|
    ensures forall i :: 0 <= i < |m.pointers| ==> m.pointers[i] != a
  {
    a := UnusedAddress(s);
    LeadsToItself(s);
    Already(s, w, Some(j), Idle);
    var m0 := ReachPush(s, s, w, Some(j), 0, a);
    Already(m0, w, Some(j), Idle);
    ReachRetry(s, m0, t);
    var m1 := ReachValid(s, m0, t, k, a);
    m := DropPointer(m1, u, k);
    Reach(s, m1, u, Plain, m);
  }

  lemma ReachUseAfterFree(s: State, t: Tid, u: Tid, w: Tid, k: nat, j: nat) returns (s': State)
    requires Disorder(s, t, u, w, k, j) && InPlace(s, t, k, j)
    ensures Leads(s, s') && !Safe(s')
  {
    var m, a := ReachUnprotected(s, t, u, w, k, j);
    Already(m, w, Some(j), Idle);
    Go(s, m, w, Some(j), Idle, Choice.Call(Pop), m, Some(j), PopLoad);
    var m1 := ReachChecked(s, m, w, j);
    s' := ReachFreed(s, m1, w, j, a);
    assert NodesTouched(s', t) == {a};
  }

  /** From every such state the code can go on to read freed memory: w pushes a node, t validates
      it, u clears the slot, w pops the node, sees it in no slot and frees it. */
  lemma DisorderIsUnsafe(s: State, t: Tid, u: Tid, w: Tid, k: nat, j: nat) returns (s': State)
    requires Inv(s) && Disorder(s, t, u, w, k, j)
    ensures !Orderly(s, u) && Leads(s, s') && !Safe(s')
  {
    assert ThreadOk(s, t) && ThreadOk(s, u) && ThreadOk(s, w);
    s' := ReachUseAfterFree(s, t, u, w, k, j);
  }

  // Such a state is reached from the initial one.

  /** A thread that pops the empty stack comes to own the first free slot. */
  lemma ReachOwner(z: State, s: State, t: Tid, k: nat) returns (m: State)
    requires t < |s.th| && Leads(z, Put(s, t, None, Idle)) && s.head == NULL && |s.ids| == |s.pointers|
    requires k < |s.ids| && s.ids[k] == None && s.pointers[k] == NULL && forall x :: 0 <= x < k ==> s.ids[x] != None
    ensures m == s.(ids := s.ids[k := Some(t)]) && Leads(z, Put(m, t, Some(k), Idle))
  {
    Go(z, s, t, None, Idle, Choice.Call(Pop), s, None, SlotCas(0));
    m := ReachSlot(z, s, t, 0, k);
    var m1 := ReachChecked(z, m, t, k);
    assert m1.pointers == s.pointers == s.pointers[k := NULL];
    Go(z, m, t, Some(k), PopClear(NULL, None), Plain, m, Some(k), Return(Popped(None)));
    Go(z, m, t, Some(k), Return(Popped(None)), Plain, m, Some(k), Idle);
  }

  /** The owner of slot k begins to exit and has released the id, not yet the pointer. */
  lemma ReachHalfExit(z: State, s: State, t: Tid, k: nat) returns (m: State)
    requires t < |s.th| && Leads(z, Put(s, t, Some(k), Idle)) && k < |s.ids|
    ensures m == s.(ids := s.ids[k := None]) && Leads(z, Put(m, t, None, ExitPointer(k)))
  {
    m := s.(ids := s.ids[k := None]);
    Go(z, s, t, Some(k), Idle, Exit, s, Some(k), ExitId(k));
    Go(z, s, t, Some(k), ExitId(k), Plain, m, None, ExitPointer(k));
  }

  /** Threads 0 and 2 come to own slots 0 and 1, and thread 2 pushes a node. */
  lemma ReachPushed(z: State, v: Value) returns (m: State)
    requires |z.th| == 3 && forall t :: 0 <= t < 3 ==> z.th[t] == Local(None, None, [], Idle)
    requires z.head == NULL && z.pointers == [NULL, NULL] && z.ids == [None, None] && Fresh(z, 1)
    ensures Leads(z, m) && m.head == 1 && 1 in m.nodes && m.pointers == [NULL, NULL] && m.ids == [Some(0), Some(2)]
    ensures m.th == [Local(Some(0), None, [], Idle), Local(None, None, [], Idle), Local(Some(1), None, [], Idle)]
  {
    LeadsToItself(z);
    Already(z, 0, None, Idle);
    var m1 := ReachOwner(z, z, 0, 0);
    var a := Put(m1, 0, Some(0), Idle);
    Already(a, 2, None, Idle);
    var m2 := ReachOwner(z, a, 2, 1);
    var b := Put(m2, 2, Some(1), Idle);
    Already(b, 2, Some(1), Idle);
    m := ReachPush(z, b, 2, Some(1), v, 1);
    Already(m, 2, Some(1), Idle);
    assert m.ids == [Some(0), Some(2)];
  }

  lemma ReachLeaving(z: State, v: Value) returns (m: State)
    requires |z.th| == 3 && forall t :: 0 <= t < 3 ==> z.th[t] == Local(None, None, [], Idle)
    requires z.head == NULL && z.pointers == [NULL, NULL] && z.ids == [None, None] && Fresh(z, 1)
    ensures Leads(z, m) && m.head == 1 && 1 in m.nodes && m.pointers == [NULL, NULL] && m.ids == [None, Some(2)]
    ensures m.th == [Local(None, None, [], ExitPointer(0)), Local(None, None, [], Idle), Local(Some(1), None, [], Idle)]
  {
    var m0 := ReachPushed(z, v);
    Already(m0, 0, Some(0), Idle);
    var m1 := ReachHalfExit(z, m0, 0, 0);
    m := Put(m1, 0, None, ExitPointer(0));
  }

  /** Three threads and two slots: thread 0 is halfway out of slot 0, in which thread 1 has published. */
  lemma ReachDisorder(z: State, v: Value) returns (s: State)
    requires |z.th| == 3 && forall t :: 0 <= t < 3 ==> z.th[t] == Local(None, None, [], Idle)
    requires z.head == NULL && z.pointers == [NULL, NULL] && z.ids == [None, None] && Fresh(z, 1)
    ensures Leads(z, s) && Disorder(s, 1, 0, 2, 0, 1) && InPlace(s, 1, 0, 1)
  {
    var a := ReachLeaving(z, v);
    Already(a, 1, None, Idle);
    Go(z, a, 1, None, Idle, Choice.Call(Pop), a, None, SlotCas(0));
    var m2 := ReachSlot(z, a, 1, 0, 0);
    var m3 := ReachChecked(z, m2, 1, 0);
    s := Put(m3, 1, Some(0), PopNext(1));
  }

  lemma LeadsOn(z: State, s: State, s': State)
    requires Leads(z, s) && Leads(s, s')
    ensures Leads(z, s')
  {
    var r :| IsRun(r, x => x == s, AnyNext) && r[|r| - 1] == s';
    LeadsAlong(z, r, |r| - 1);
  }

  lemma {:induction false} LeadsAlong(z: State, r: seq<State>, n: nat)
    requires |r| > n && Leads(z, r[0]) && IsRun(r, x => x == r[0], AnyNext)
    ensures Leads(z, r[n])
  {
    if n > 0 {
      LeadsAlong(z, r, n - 1);
      StepAt(r, x => x == r[0], AnyNext, n - 1);
      Reaches(r[n - 1], r[n], x => x == z, AnyNext);
    }
  }

  /** The code can go from an initial state to the read of freed memory. */
  lemma ExitOrderIsUnsafe(v: Value) returns (z: State, s: State)
    ensures Init(z) && Leads(z, s) && !Safe(s)
  {
    var l := Local(None, None, [], Idle);
    z := State(NULL, NULL, [NULL, NULL], [None, None], map[], map[], [l, l, l], [], [], [], map[], map[]);
    var d := ReachDisorder(z, v);
    s := ReachUseAfterFree(d, 1, 0, 2, 0, 1);
    LeadsOn(z, d, s);
  }
}
