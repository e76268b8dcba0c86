/** The invariant of the single-producer single-consumer ring and its preservation. */
module SpscSafety {
  import opened Memory
  import opened Bits
  import opened SpscRing

  /** The number of stores to a counter. */
  function Stores(m: seq<Message>): nat
    requires m != []
  {
    |m| - 1
  }

  /** Message i stores i; later messages know more. */
  ghost predicate MessagesOk(heads: seq<Message>, tails: seq<Message>, p: Producer, c: Consumer) {
    && heads != [] && tails != []
    && (forall i :: 0 <= i < |heads| ==> heads[i].value == i && heads[i].clock.c <= c.clock.c)
    && (forall i :: 0 <= i < |tails| ==> tails[i].value == i && tails[i].clock.p <= p.clock.p)
    && (forall i, j :: 0 <= i <= j < |heads| ==> heads[i].clock.c <= heads[j].clock.c)
    && (forall i, j :: 0 <= i <= j < |tails| ==> tails[i].clock.p <= tails[j].clock.p)
    && p.seen < |heads| && heads[p.seen].clock.c <= p.clock.c
    && c.seen < |tails| && tails[c.seen].clock.p <= c.clock.p
  }

  /** The sides are where the counters say. Nothing is built beyond a turn of what the producer has
      seen popped, nothing popped beyond what the consumer has seen pushed. */
  ghost predicate SidesOk(h: nat, t: nat, n: nat, p: Producer, c: Consumer,
                          built: seq<Value>, destroyed: seq<Value>) {
    && |built| == (if p.pc.StoreTail? then t + 1 else t)
    && |destroyed| == (if c.pc.StoreHead? then h + 1 else h)
    && |destroyed| <= c.seen <= t && p.seen <= h && |built| <= p.seen + n
    && destroyed == built[..|destroyed|]
    && (p.pc.SeeHead? || p.pc.Build? || p.pc.StoreTail? ==> p.pc.tail == t)
    && (p.pc.Build? ==> t < p.seen + n)
    && (p.pc.StoreTail? ==> built[t] == p.pc.v)
    && (c.pc.SeeTail? || c.pc.MoveOut? || c.pc.Destroy? || c.pc.StoreHead? ==> c.pc.head == h)
    && (c.pc.MoveOut? || c.pc.Destroy? ==> h < c.seen)
    && (c.pc.Destroy? || c.pc.StoreHead? ==> c.pc.v == built[h])
  }

  /** Slot i, for position x: it is live from its construction to its destruction, and the stores
      to the counters publish the accesses to it. */
  ghost predicate SlotOk(s: State, i: nat)
    requires i < |s.ring| == |s.cur| && s.heads != [] && s.tails != [] && |s.destroyed| <= |s.built|
  {
    var x, slot, n, h := s.cur[i], s.ring[i], |s.ring|, Stores(s.heads);
    && x % n == i && |s.destroyed| <= x < |s.destroyed| + n
    && slot.lastP <= s.p.clock.p && slot.lastC <= s.c.clock.c
    && slot.content == (if x >= |s.built| then Raw
                        else if x == |s.destroyed| && s.c.pc.Destroy? then Moved
                        else Live(s.built[x]))
    && (x < Stores(s.tails) ==> slot.lastP <= s.tails[x + 1].clock.p)
    && (x >= |s.built| ==> if x < n then slot.lastC == 0 else x - n < h ==> slot.lastC <= s.heads[x - n + 1].clock.c)
  }

  ghost predicate Shape(s: State) {
    && WellFormed(s) && MessagesOk(s.heads, s.tails, s.p, s.c)
    && SidesOk(Stores(s.heads), Stores(s.tails), |s.ring|, s.p, s.c, s.built, s.destroyed)
  }

  ghost predicate SlotsOk(s: State)
    requires Shape(s)
  {
    forall i {:trigger SlotOk(s, i)} :: 0 <= i < |s.ring| ==> SlotOk(s, i)
  }

  ghost predicate Inv(s: State) {
    Shape(s) && SlotsOk(s)
  }

  /** The slot of a position that is next to be built or next to be destroyed holds that position. */
  lemma SlotOf(s: State, x: nat)
    requires Inv(s) && |s.destroyed| <= x < |s.destroyed| + |s.ring|
    ensures x % |s.ring| < |s.ring| && s.cur[x % |s.ring|] == x && SlotOk(s, x % |s.ring|)
  {
    var i := x % |s.ring|;
    assert SlotOk(s, i);
    if s.cur[i] < x {
      TurnsApart(s.cur[i], x, |s.ring|);
    } else if x < s.cur[i] {
      TurnsApart(x, s.cur[i], |s.ring|);
    }
  }

  // The producer.

  lemma KeepPushMove(s: State, pc: PushPC)
    requires Inv(s) && !s.p.pc.StoreTail? && !pc.Build? && !pc.StoreTail?
    requires pc.SeeHead? ==> pc.tail == Stores(s.tails)
    ensures Inv(PushAt(s, pc))
  {
    var s' := PushAt(s, pc);
    forall i | 0 <= i < |s'.ring|
      ensures SlotOk(s', i)
    {
      assert SlotOk(s, i);
    }
  }

  lemma KeepAcquireHead(s: State, v: Value, tail: nat, k: nat)
    requires Inv(s) && s.p.pc == SeeHead(v, tail) && s.p.seen <= k < |s.heads|
    ensures Inv(AcquireHead(s, v, tail, k))
  {
    var s' := AcquireHead(s, v, tail, k);
    forall i | 0 <= i < |s'.ring|
      ensures SlotOk(s', i)
    {
      assert SlotOk(s, i);
    }
  }

  lemma KeepConstruct(s: State, v: Value, tail: nat)
    requires Inv(s) && s.p.pc == Build(v, tail)
    ensures Inv(Construct(s, v, tail))
  {
    var s' := Construct(s, v, tail);
    SlotOf(s, tail);
    forall i | 0 <= i < |s'.ring|
      ensures SlotOk(s', i)
    {
      assert SlotOk(s, i);
    }
  }

  lemma KeepReleaseTail(s: State, v: Value, tail: nat)
    requires Inv(s) && s.p.pc == StoreTail(v, tail)
    ensures Inv(ReleaseTail(s, tail))
  {
    var s' := ReleaseTail(s, tail);
    forall i | 0 <= i < |s'.ring|
      ensures SlotOk(s', i)
    {
      assert SlotOk(s, i);
    }
  }

  // The consumer.

  lemma KeepPopMove(s: State, pc: PopPC)
    requires Inv(s) && !s.c.pc.StoreHead? && !s.c.pc.Destroy?
    requires !pc.MoveOut? && !pc.Destroy? && !pc.StoreHead?
    requires pc.SeeTail? ==> pc.head == Stores(s.heads)
    ensures Inv(PopAt(s, pc))
  {
    var s' := PopAt(s, pc);
    forall i | 0 <= i < |s'.ring|
      ensures SlotOk(s', i)
    {
      assert SlotOk(s, i);
    }
  }

  lemma KeepAcquireTail(s: State, head: nat, k: nat)
    requires Inv(s) && s.c.pc == SeeTail(head) && s.c.seen <= k < |s.tails|
    ensures Inv(AcquireTail(s, head, k))
  {
    var s' := AcquireTail(s, head, k);
    forall i | 0 <= i < |s'.ring|
      ensures SlotOk(s', i)
    {
      assert SlotOk(s, i);
    }
  }

  lemma KeepTakeElement(s: State, head: nat)
    requires Inv(s) && s.c.pc == MoveOut(head)
    ensures Inv(TakeElement(s, head))
  {
    var s' := TakeElement(s, head);
    SlotOf(s, head);
    forall i | 0 <= i < |s'.ring|
      ensures SlotOk(s', i)
    {
      assert SlotOk(s, i);
    }
  }

  lemma KeepEndLife(s: State, head: nat, v: Value)
    requires Inv(s) && s.c.pc == Destroy(head, v)
    ensures Inv(EndLife(s, head, v))
  {
    var s' := EndLife(s, head, v);
    SlotOf(s, head);
    NextTurn(head, |s.ring|);
    forall i | 0 <= i < |s'.ring|
      ensures SlotOk(s', i)
    {
      assert SlotOk(s, i);
    }
  }

  lemma KeepReleaseHead(s: State, head: nat, v: Value)
    requires Inv(s) && s.c.pc == StoreHead(head, v)
    ensures Inv(ReleaseHead(s, head, v))
  {
    var s' := ReleaseHead(s, head, v);
    forall i | 0 <= i < |s'.ring|
      ensures SlotOk(s', i)
    {
      assert SlotOk(s, i);
    }
  }
}
