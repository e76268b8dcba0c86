/** The single-producer single-consumer ring as an object. A counter is its list of stores; each
    side has one method for each access it makes, and the destructor is the loop of the source. */
module SpscObject {
  import opened Memory
  import opened Runs
  import opened SpscRing
  import opened SpscSafety
  import opened SpscTheorems

  lemma GoodPush(s: State, c: Choice)
    requires Reachable(s) && PushEnabled(s, c)
    ensures Reachable(PushStep(s, c)) && Inv(PushStep(s, c))
  {
    ReachPush(s, c);
    ReachableInv(PushStep(s, c));
  }

  lemma GoodPop(s: State, c: Choice)
    requires Reachable(s) && PopEnabled(s, c)
    ensures Reachable(PopStep(s, c)) && Inv(PopStep(s, c))
  {
    ReachPop(s, c);
    ReachableInv(PopStep(s, c));
  }

  class Spsc {
    const ring: array<Slot>
    var heads: seq<Message>
    var tails: seq<Message>
    var p: Producer
    var c: Consumer
    // the bookkeeping of the proof
    ghost var built: seq<Value>
    ghost var destroyed: seq<Value>
    ghost var cur: seq<nat>

    ghost function View(): State
      reads this, ring
    {
      State(heads, tails, ring[..], p, c, built, destroyed, cur)
    }

    /** The object is in the last state of a run. */
    ghost predicate Valid()
      reads this, ring
    {
      Reachable(View()) && Inv(View())
    }

    constructor ()
      ensures Valid() && Init(View()) && fresh(ring)
    {
      ring := new Slot[CAPACITY](_ => Slot(Raw, 0, 0));
      heads, tails := [Message(0, Clock(0, 0))], [Message(0, Clock(0, 0))];
      p, c := Producer(PushIdle, Clock(0, 0), 0), Consumer(PopIdle, Clock(0, 0), 0);
      built, destroyed, cur := [], [], seq(CAPACITY, i => i);
      new;
      InitInv(View());
      assert IsRun([View()], Init, Next);
    }

    ghost method Note(s: State)
      modifies `built, `destroyed, `cur
      ensures built == s.built && destroyed == s.destroyed && cur == s.cur
    {
      built, destroyed, cur := s.built, s.destroyed, s.cur;
    }

    twostate predicate Pushed(ch: Choice)
      reads this, ring
    {
      Valid() && PushEnabled(old(View()), ch) && View() == PushStep(old(View()), ch)
    }

    twostate predicate Popped(ch: Choice)
      reads this, ring
    {
      Valid() && PopEnabled(old(View()), ch) && View() == PopStep(old(View()), ch)
    }

    // push

    method CallPush(v: Value)
      requires Valid() && p.pc == PushIdle
      modifies this
      ensures Pushed(Choice.Push(v)) && Carried(p.pc) == Some(v)
    {
      ghost var s := View();
      GoodPush(s, Choice.Push(v));
      p := p.(pc := LoadTail(v));
      Note(PushStep(s, Choice.Push(v)));
      assert View() == PushStep(s, Choice.Push(v));
    }

    /** tail_.load(relaxed), of the producer's own counter */
    method LoadOwnTail(v: Value) returns (tail: nat)
      requires Valid() && p.pc == LoadTail(v)
      modifies this
      ensures Pushed(Go) && tail == Stores(tails)
    {
      ghost var s := View();
      GoodPush(s, Go);
      tail := Last(tails);
      p := p.(pc := SeeHead(v, tail));
      Note(PushStep(s, Go));
      assert View() == PushStep(s, Go);
    }

    /** head_.load(acquire), whatever coherent message k it returns */
    method LoadHeadAcquire(v: Value, tail: nat, k: nat) returns (head: nat)
      requires Valid() && p.pc == SeeHead(v, tail) && p.seen <= k < |heads|
      modifies this
      ensures Pushed(See(k)) && head == k
      ensures p.pc == PushReturn(false) <==> tail - head == ring.Length
    {
      ghost var s := View();
      GoodPush(s, See(k));
      assert s.heads[k].value == k;
      head := heads[k].value;
      p := Producer(if tail - head != ring.Length then Build(v, tail) else PushReturn(false),
                    Join(p.clock, heads[k].clock), k);
      Note(PushStep(s, See(k)));
      assert View() == PushStep(s, See(k));
    }

    /** Placement new, in raw memory, after whatever the consumer did there */
    method ConstructAt(v: Value, tail: nat)
      requires Valid() && p.pc == Build(v, tail)
      modifies this, ring
      ensures Pushed(Go) && ring[tail % ring.Length].content == Live(v)
      ensures old(ring[tail % ring.Length].content) == Raw && old(ring[tail % ring.Length].lastC <= p.clock.c)
    {
      ghost var s := View();
      GoodPush(s, Go);
      InvIsSafe(s);
      var i, e := tail % ring.Length, p.clock.p + 1;
      ring[i] := ring[i].(content := Live(v), lastP := e);
      p := p.(pc := PushPC.StoreTail(v, tail), clock := p.clock.(p := e));
      Note(PushStep(s, Go));
      assert View() == PushStep(s, Go);
    }

    /** tail_.store(release): the element is in the queue. */
    method StoreTailRelease(v: Value, tail: nat)
      requires Valid() && p.pc == PushPC.StoreTail(v, tail)
      modifies this
      ensures Pushed(Go) && Queue(View()) == old(Queue(View())) + [v]
    {
      ghost var s := View();
      GoodPush(s, Go);
      PushRefines(s, Go);
      tails := tails + [Message(tail + 1, p.clock)];
      p := p.(pc := PushReturn(true));
      Note(PushStep(s, Go));
      assert View() == PushStep(s, Go);
    }

    method ReturnPush(ok: bool)
      requires Valid() && p.pc == PushReturn(ok)
      modifies this
      ensures Pushed(Go)
    {
      ghost var s := View();
      GoodPush(s, Go);
      p := p.(pc := PushIdle);
      Note(PushStep(s, Go));
      assert View() == PushStep(s, Go);
    }

    // pop

    method CallPop()
      requires Valid() && c.pc == PopIdle
      modifies this
      ensures Popped(Choice.Pop)
    {
      ghost var s := View();
      GoodPop(s, Choice.Pop);
      c := c.(pc := LoadHead);
      Note(PopStep(s, Choice.Pop));
      assert View() == PopStep(s, Choice.Pop);
    }

    /** head_.load(relaxed), of the consumer's own counter */
    method LoadOwnHead() returns (head: nat)
      requires Valid() && c.pc == LoadHead
      modifies this
      ensures Popped(Go) && head == Stores(heads)
    {
      ghost var s := View();
      GoodPop(s, Go);
      head := Last(heads);
      c := c.(pc := SeeTail(head));
      Note(PopStep(s, Go));
      assert View() == PopStep(s, Go);
    }

    /** tail_.load(acquire), whatever coherent message k it returns */
    method LoadTailAcquire(head: nat, k: nat) returns (tail: nat)
      requires Valid() && c.pc == SeeTail(head) && c.seen <= k < |tails|
      modifies this
      ensures Popped(See(k)) && tail == k
      ensures c.pc == PopReturn(None) <==> head >= tail
    {
      ghost var s := View();
      GoodPop(s, See(k));
      assert s.tails[k].value == k;
      tail := tails[k].value;
      c := Consumer(if head < tail then PopPC.MoveOut(head) else PopReturn(None),
                    Join(c.clock, tails[k].clock), k);
      Note(PopStep(s, See(k)));
      assert View() == PopStep(s, See(k));
    }

    /** Moves the oldest element out, after the producer built it */
    method MoveElement(head: nat) returns (v: Value)
      requires Valid() && c.pc == PopPC.MoveOut(head)
      modifies this, ring
      ensures Popped(Go) && head < |built| && v == built[head]
      ensures old(ring[head % ring.Length].content) == Live(v) && old(ring[head % ring.Length].lastP <= c.clock.p)
    {
      ghost var s := View();
      GoodPop(s, Go);
      InvIsSafe(s);
      SlotOf(s, head);
      var i, e := head % ring.Length, c.clock.c + 1;
      v := ring[i].content.v;
      ring[i] := ring[i].(content := Moved, lastC := e);
      c := c.(pc := PopPC.Destroy(head, v), clock := c.clock.(c := e));
      Note(PopStep(s, Go));
      assert View() == PopStep(s, Go);
    }

    method DestroyElement(head: nat, v: Value)
      requires Valid() && c.pc == PopPC.Destroy(head, v)
      modifies this, ring
      ensures Popped(Go) && ring[head % ring.Length].content == Raw
      ensures old(ring[head % ring.Length].content) == Moved
    {
      ghost var s := View();
      GoodPop(s, Go);
      InvIsSafe(s);
      var i, e := head % ring.Length, c.clock.c + 1;
      ring[i] := ring[i].(content := Raw, lastC := e);
      c := c.(pc := PopPC.StoreHead(head, v), clock := c.clock.(c := e));
      Note(PopStep(s, Go));
      assert View() == PopStep(s, Go);
    }

    /** head_.store(release): the element is out of the queue. */
    method StoreHeadRelease(head: nat, v: Value)
      requires Valid() && c.pc == PopPC.StoreHead(head, v)
      modifies this
      ensures Popped(Go) && old(Queue(View())) == [v] + Queue(View())
    {
      ghost var s := View();
      GoodPop(s, Go);
      PopRefines(s, Go);
      heads := heads + [Message(head + 1, c.clock)];
      c := c.(pc := PopReturn(Some(v)));
      Note(PopStep(s, Go));
      assert View() == PopStep(s, Go);
    }

    method ReturnPop(got: Option<Value>)
      requires Valid() && c.pc == PopReturn(got)
      modifies this
      ensures Popped(Go)
    {
      ghost var s := View();
      GoodPop(s, Go);
      c := c.(pc := PopIdle);
      Note(PopStep(s, Go));
      assert View() == PopStep(s, Go);
    }

    /** ~SPSC, with both sides joined: every element left is destroyed, oldest first. */
    method Teardown()
      requires Valid() && p.pc == PushIdle && c.pc == PopIdle
      modifies this, ring
      ensures WellFormed(old(View())) && View() == Destruct(old(View()))
      ensures destroyed == built == old(built) && forall i :: 0 <= i < ring.Length ==> ring[i].content == Raw
    {
      IdleIsSettled(View());
      ghost var s := View();
      DestructEmpties(s);
      while Last(heads) != Last(tails)
        invariant Settled(View()) && Destruct(View()) == Destruct(s)
        decreases |built| - |destroyed|
      {
        ghost var s' := DestroyOldest(View());
        OldestSlot(View());
        DestroySettled(View());
        var head := Last(heads);
        ring[head % ring.Length] := ring[head % ring.Length].(content := Raw);
        heads := heads + [Message(head + 1, c.clock)];
        Note(s');
        assert View() == s';
      }
    }
  }
}
