/** What the invariant of the single-producer single-consumer ring gives: no data race and no
    access outside an element's lifetime although loads may be stale, a bounded FIFO, the exact
    meaning of a false result, and one construction and one destruction for every element. */
module SpscTheorems {
  import opened Memory
  import opened Bits
  import opened Runs
  import opened SpscRing
  import opened SpscSafety

  lemma KeepPush(s: State, c: Choice)
    requires Inv(s) && PushEnabled(s, c)
    ensures Inv(PushStep(s, c))
  {
    match s.p.pc
    case PushIdle => KeepPushMove(s, LoadTail(c.v));
    case LoadTail(v) => KeepPushMove(s, SeeHead(v, Last(s.tails)));
    case SeeHead(v, tail) => KeepAcquireHead(s, v, tail, c.k);
    case Build(v, tail) => KeepConstruct(s, v, tail);
    case StoreTail(v, tail) => KeepReleaseTail(s, v, tail);
    case PushReturn(_) => KeepPushMove(s, PushIdle);
  }

  lemma KeepPop(s: State, c: Choice)
    requires Inv(s) && PopEnabled(s, c)
    ensures Inv(PopStep(s, c))
  {
    match s.c.pc
    case PopIdle => KeepPopMove(s, LoadHead);
    case LoadHead => KeepPopMove(s, SeeTail(Last(s.heads)));
    case SeeTail(head) => KeepAcquireTail(s, head, c.k);
    case MoveOut(head) => KeepTakeElement(s, head);
    case Destroy(head, v) => KeepEndLife(s, head, v);
    case StoreHead(head, v) => KeepReleaseHead(s, head, v);
    case PopReturn(_) => KeepPopMove(s, PopIdle);
  }

  // Races and lifetimes.

  /** The producer builds in raw memory, and the consumer's last access to it happens before. */
  ghost predicate BuildIsSafe(s: State)
    requires WellFormed(s)
  {
    s.p.pc.Build? ==>
      var slot := s.ring[s.p.pc.tail % |s.ring|];
      slot.content == Raw && slot.lastC <= s.p.clock.c
  }

  /** The consumer moves out of a live element and destroys what it moved out of, and the
      producer's last access to it happens before. */
  ghost predicate TakeIsSafe(s: State)
    requires WellFormed(s)
  {
    && (s.c.pc.MoveOut? ==>
          var slot := s.ring[s.c.pc.head % |s.ring|];
          slot.content.Live? && slot.lastP <= s.c.clock.p)
    && (s.c.pc.Destroy? ==>
          var slot := s.ring[s.c.pc.head % |s.ring|];
          slot.content == Moved && slot.lastP <= s.c.clock.p)
  }

  lemma InvIsSafe(s: State)
    requires Inv(s)
    ensures BuildIsSafe(s) && TakeIsSafe(s)
  {
    if s.p.pc.Build? {
      SlotOf(s, s.p.pc.tail);
    }
    if s.c.pc.MoveOut? || s.c.pc.Destroy? {
      SlotOf(s, s.c.pc.head);
    }
  }

  // A bounded FIFO.

  /** What has been pushed and not popped. */
  function Queue(s: State): seq<Value> {
    if s.heads != [] && s.tails != [] && Stores(s.heads) <= Stores(s.tails) <= |s.built|
    then s.built[Stores(s.heads)..Stores(s.tails)] else []
  }

  /** The queue is what the ring holds, but for the element being popped. */
  lemma QueueIsInRing(s: State, k: nat)
    requires Inv(s) && |s.destroyed| <= Stores(s.heads) + k < Stores(s.tails)
    ensures k < |Queue(s)|
    ensures var slot := s.ring[(Stores(s.heads) + k) % |s.ring|];
      || slot.content == Live(Queue(s)[k])
      || (k == 0 && s.c.pc.Destroy? && slot.content == Moved && s.c.pc.v == Queue(s)[0])
  {
    SlotOf(s, Stores(s.heads) + k);
  }

  lemma ReleaseAppends(s: State, v: Value, tail: nat)
    requires Inv(s) && s.p.pc == StoreTail(v, tail)
    ensures |Queue(s)| < |s.ring| && Queue(ReleaseTail(s, tail)) == Queue(s) + [v]
  {
    var h := Stores(s.heads);
    assert s.built[h..tail + 1] == s.built[h..tail] + [s.built[tail]];
  }

  lemma PushStutters(s: State, c: Choice)
    requires PushEnabled(s, c) && !s.p.pc.StoreTail? && Stores(s.heads) <= Stores(s.tails) <= |s.built|
    ensures Queue(PushStep(s, c)) == Queue(s) && PushStep(s, c).p.pc != PushReturn(true)
  {
  }

  /** A push takes effect when it stores the counter: it appends to a queue that has room. */
  lemma PushRefines(s: State, c: Choice)
    requires Inv(s) && PushEnabled(s, c)
    ensures Inv(PushStep(s, c))
    ensures var s' := PushStep(s, c);
      if s.p.pc.StoreTail?
      then |Queue(s)| < |s.ring| && Queue(s') == Queue(s) + [s.p.pc.v] && s'.p.pc == PushReturn(true)
      else Queue(s') == Queue(s) && s'.p.pc != PushReturn(true)
  {
    KeepPush(s, c);
    if s.p.pc.StoreTail? {
      ReleaseAppends(s, s.p.pc.v, s.p.pc.tail);
    } else {
      PushStutters(s, c);
    }
  }

  lemma ReleaseRemoves(s: State, head: nat, v: Value)
    requires Inv(s) && s.c.pc == StoreHead(head, v)
    ensures Queue(s) == [v] + Queue(ReleaseHead(s, head, v))
  {
    var t := Stores(s.tails);
    assert s.built[head..t] == [s.built[head]] + s.built[head + 1..t];
  }

  lemma PopStutters(s: State, c: Choice)
    requires PopEnabled(s, c) && !s.c.pc.StoreHead?
    ensures var s' := PopStep(s, c);
      Queue(s') == Queue(s) && (s'.c.pc.PopReturn? ==> s'.c.pc.got == None)
  {
  }

  /** A pop takes effect when it stores the counter: it removes and returns the oldest element. */
  lemma PopRefines(s: State, c: Choice)
    requires Inv(s) && PopEnabled(s, c)
    ensures Inv(PopStep(s, c))
    ensures var s' := PopStep(s, c);
      if s.c.pc.StoreHead?
      then Queue(s) == [s.c.pc.v] + Queue(s') && s'.c.pc == PopReturn(Some(s.c.pc.v))
      else Queue(s') == Queue(s) && (s'.c.pc.PopReturn? ==> s'.c.pc.got == None)
  {
    KeepPop(s, c);
    if s.c.pc.StoreHead? {
      ReleaseRemoves(s, s.c.pc.head, s.c.pc.v);
    } else {
      PopStutters(s, c);
    }
  }

  /** `push` gives up exactly when the pops it can see leave a full queue; it lags behind by the
      pops it does not see, and a load of the newest message makes the answer exact. */
  lemma PushFalse(s: State, v: Value, tail: nat, k: nat)
    requires Inv(s) && s.p.pc == SeeHead(v, tail) && s.p.seen <= k < |s.heads|
    ensures AcquireHead(s, v, tail, k).p.pc == PushReturn(false) <==>
      |Queue(s)| + (Stores(s.heads) - k) == |s.ring|
    ensures k == Stores(s.heads) ==>
      (AcquireHead(s, v, tail, k).p.pc == PushReturn(false) <==> |Queue(s)| == |s.ring|)
  {
    assert s.heads[k].value == k;
  }

  /** `pop` gives up exactly when it sees no push beyond what it popped. */
  lemma PopFalse(s: State, head: nat, k: nat)
    requires Inv(s) && s.c.pc == SeeTail(head) && s.c.seen <= k < |s.tails|
    ensures AcquireTail(s, head, k).c.pc == PopReturn(None) <==> k == Stores(s.heads)
    ensures k == Stores(s.tails) ==>
      (AcquireTail(s, head, k).c.pc == PopReturn(None) <==> Queue(s) == [])
  {
    assert s.tails[k].value == k;
  }

  // Runs.

  ghost predicate Next(s: State, s': State) {
    || (exists c :: PushEnabled(s, c) && s' == PushStep(s, c))
    || (exists c :: PopEnabled(s, c) && s' == PopStep(s, c))
  }

  ghost predicate Run(r: seq<State>) {
    IsRun(r, Init, Next)
  }

  lemma InitInv(s: State)
    requires Init(s)
    ensures Inv(s)
  {
    forall i | 0 <= i < |s.ring|
      ensures SlotOk(s, i)
    {
      ModUnique(i, |s.ring|, 0, i);
    }
  }

  lemma NextKeeps(s: State, s': State)
    requires Inv(s) && Next(s, s')
    ensures Inv(s')
  {
    if c :| PushEnabled(s, c) && s' == PushStep(s, c) {
      KeepPush(s, c);
    } else {
      var c :| PopEnabled(s, c) && s' == PopStep(s, c);
      KeepPop(s, c);
    }
  }

  lemma RunInv(r: seq<State>, n: nat)
    requires Run(r) && n < |r|
    ensures Inv(r[n])
  {
    forall s | Init(s)
      ensures Inv(s)
    {
      InitInv(s);
    }
    forall s, s' | Inv(s) && Next(s, s')
      ensures Inv(s')
    {
      NextKeeps(s, s');
    }
    Always(r, Init, Next, Inv, n);
  }

  /** The last state of some run. */
  ghost predicate Reachable(s: State) {
    Reached(s, Init, Next)
  }

  lemma ReachableInv(s: State)
    requires Reachable(s)
    ensures Inv(s)
  {
    var r :| IsRun(r, Init, Next) && r[|r| - 1] == s;
    RunInv(r, |r| - 1);
  }

  lemma ReachPush(s: State, c: Choice)
    requires Reachable(s) && PushEnabled(s, c)
    ensures Reachable(PushStep(s, c))
  {
    Reaches(s, PushStep(s, c), Init, Next);
  }

  lemma ReachPop(s: State, c: Choice)
    requires Reachable(s) && PopEnabled(s, c)
    ensures Reachable(PopStep(s, c))
  {
    Reaches(s, PopStep(s, c), Init, Next);
  }

  /** In every run, whatever the loads return, no access races and none is outside a lifetime. */
  lemma RunIsSafe(r: seq<State>, n: nat)
    requires Run(r) && n < |r|
    ensures WellFormed(r[n]) && BuildIsSafe(r[n]) && TakeIsSafe(r[n])
  {
    RunInv(r, n);
    InvIsSafe(r[n]);
  }

  /** The sequential bounded queue. */
  datatype Fifo = Fifo(capacity: nat, queue: seq<Value>)

  function View(s: State): Fifo {
    Fifo(|s.ring|, Queue(s))
  }

  ghost predicate Empty(o: Fifo) {
    o.queue == []
  }

  ghost predicate Appends(o: Fifo, o': Fifo, v: Value) {
    |o.queue| < o.capacity && o' == o.(queue := o.queue + [v])
  }

  ghost predicate Removes(o: Fifo, o': Fifo, v: Value) {
    o == o'.(queue := [v] + o'.queue)
  }

  ghost predicate FifoStep(o: Fifo, o': Fifo) {
    o' == o || exists v :: Appends(o, o', v) || Removes(o, o', v)
  }

  lemma NextRefines(s: State, s': State)
    requires Inv(s) && Next(s, s')
    ensures FifoStep(View(s), View(s'))
  {
    if c :| PushEnabled(s, c) && s' == PushStep(s, c) {
      PushRefines(s, c);
      if s.p.pc.StoreTail? {
        assert Appends(View(s), View(s'), s.p.pc.v);
      }
    } else {
      var c :| PopEnabled(s, c) && s' == PopStep(s, c);
      PopRefines(s, c);
      if s.c.pc.StoreHead? {
        assert Removes(View(s), View(s'), s.c.pc.v);
      }
    }
  }

  /** Every run, whatever the loads return, is a run of the bounded queue. */
  lemma RunRefines(r: seq<State>)
    requires Run(r)
    ensures IsRun(Trace(r, View), Empty, FifoStep)
  {
    forall s | Init(s)
      ensures Inv(s) && Empty(View(s))
    {
      InitInv(s);
    }
    forall s, s' | Inv(s) && Next(s, s')
      ensures Inv(s') && FifoStep(View(s), View(s'))
    {
      NextKeeps(s, s');
      NextRefines(s, s');
    }
    Simulates(r, Init, Next, Inv, View, Empty, FifoStep);
  }

  // What was pushed and what was popped.

  /** A step of one side, with what it leaves open: the argument of a call, the message it reads. */
  datatype Event = Producing(c: Choice) | Consuming(c: Choice)

  ghost predicate Happens(s: State, e: Event, s': State) {
    match e
    case Producing(c) => PushEnabled(s, c) && s' == PushStep(s, c)
    case Consuming(c) => PopEnabled(s, c) && s' == PopStep(s, c)
  }

  /** A run and its events, among them the calls with their arguments. Every run has its events. */
  ghost predicate Logged(r: seq<State>, es: seq<Event>) {
    IsLog(r, es, Init, Happens)
  }

  lemma LoggedIsRun(r: seq<State>, es: seq<Event>)
    requires Logged(r, es)
    ensures Run(r)
  {
    LogIsRun(r, es, Init, Next, Happens);
  }

  lemma RunIsLogged(r: seq<State>) returns (es: seq<Event>)
    requires Run(r)
    ensures Logged(r, es)
  {
    forall s, s' | Next(s, s')
      ensures exists e :: Happens(s, e, s')
    {
      if c :| PushEnabled(s, c) && s' == PushStep(s, c) {
        assert Happens(s, Producing(c), s');
      } else {
        var c :| PopEnabled(s, c) && s' == PopStep(s, c);
        assert Happens(s, Consuming(c), s');
      }
    }
    es := RunHasLog(r, Init, Next, Happens);
  }

  /** The argument of a call of push. */
  function PushArgument(e: Event): Option<Value> {
    if e.Producing? && e.c.Push? then Some(e.c.v) else None
  }

  /** The arguments of the calls of push that have come to return true, in order. */
  function Accepted(r: seq<State>, es: seq<Event>): seq<Value>
    requires |r| == |es| + 1
  {
    if es == [] then [] else
      var n := |es|;
      var before := Accepted(r[..n], es[..n - 1]);
      if r[n - 1].p.pc != PushReturn(true) && r[n].p.pc == PushReturn(true) && LastArgument(es, PushArgument).Some?
      then before + [LastArgument(es, PushArgument).value] else before
  }

  /** The values that calls of pop have come to return, in order. */
  function Returned(r: seq<State>): seq<Value> {
    if |r| < 2 then [] else
      var s, s' := r[|r| - 2], r[|r| - 1];
      Returned(r[..|r| - 1]) +
      if !s.c.pc.PopReturn? && s'.c.pc.PopReturn? && s'.c.pc.got.Some? then [s'.c.pc.got.value] else []
  }

  /** The value that a push carries through the code until its element is in the queue. */
  function Carried(pc: PushPC): Option<Value> {
    match pc
    case LoadTail(v) => Some(v)
    case SeeHead(v, _) => Some(v)
    case Build(v, _) => Some(v)
    case StoreTail(v, _) => Some(v)
    case _ => None
  }

  /** The elements pushed, and the elements popped, up to the state. */
  function Pushed(s: State): seq<Value> {
    if s.tails != [] && Stores(s.tails) <= |s.built| then s.built[..Stores(s.tails)] else []
  }

  function Popped(s: State): seq<Value> {
    if s.heads != [] && Stores(s.heads) <= |s.built| then s.built[..Stores(s.heads)] else []
  }

  lemma PushLogs(s: State, c: Choice)
    requires Inv(s) && PushEnabled(s, c)
    ensures var s' := PushStep(s, c);
      && (if s.p.pc != PushReturn(true) && s'.p.pc == PushReturn(true)
          then s.p.pc.StoreTail? && Pushed(s') == Pushed(s) + [s.p.pc.v] else Pushed(s') == Pushed(s))
      && Popped(s') == Popped(s) && s'.c == s.c
  {
  }

  lemma PopLogs(s: State, c: Choice)
    requires Inv(s) && PopEnabled(s, c)
    ensures var s' := PopStep(s, c);
      && Popped(s') == Popped(s) +
           (if !s.c.pc.PopReturn? && s'.c.pc.PopReturn? && s'.c.pc.got.Some? then [s'.c.pc.got.value] else [])
      && Pushed(s') == Pushed(s) && s'.p == s.p
  {
  }

  /** A push carries the argument it was called with. */
  lemma CarriesOn(s: State, e: Event, s': State)
    requires Happens(s, e, s') && Carried(s'.p.pc).Some?
    ensures Carried(s'.p.pc) == if PushArgument(e).Some? then PushArgument(e) else Carried(s.p.pc)
  {
  }

  /** In every run, the value in the code of a push is the argument of the call. */
  lemma CarriesArgument(r: seq<State>, es: seq<Event>)
    requires Logged(r, es)
    ensures Carried(r[|es|].p.pc).Some? ==> LastArgument(es, PushArgument) == Carried(r[|es|].p.pc)
  {
    var carried := (s: State) => Carried(s.p.pc);
    forall s, e, s' | Happens(s, e, s') && carried(s').Some?
      ensures carried(s') == if PushArgument(e).Some? then PushArgument(e) else carried(s)
    {
      CarriesOn(s, e, s');
    }
    CarriesLast(r, es, Init, Happens, carried, PushArgument);
  }

  lemma StepAccepts(r: seq<State>, es: seq<Event>)
    requires Logged(r, es) && es != []
    ensures var s, s' := r[|es| - 1], r[|es|];
      if s.p.pc != PushReturn(true) && s'.p.pc == PushReturn(true)
      then LastArgument(es, PushArgument).Some? && Pushed(s') == Pushed(s) + [LastArgument(es, PushArgument).value]
      else Pushed(s') == Pushed(s)
  {
    var n := |es|;
    ShorterLog(r, es, Init, Happens);
    CarriesArgument(r[..n], es[..n - 1]);
    LoggedIsRun(r, es);
    RunInv(r, n - 1);
    EventAt(r, es, Init, Happens, n - 1);
    match es[n - 1]
    case Producing(c) => PushLogs(r[n - 1], c);
    case Consuming(c) => PopLogs(r[n - 1], c);
  }

  lemma {:induction false} AcceptedIsPushed(r: seq<State>, es: seq<Event>)
    requires Logged(r, es)
    ensures Accepted(r, es) == Pushed(r[|es|])
  {
    if es == [] {
      InitInv(r[0]);
    } else {
      var n := |es|;
      ShorterLog(r, es, Init, Happens);
      AcceptedIsPushed(r[..n], es[..n - 1]);
      StepAccepts(r, es);
    }
  }

  lemma NextReturns(s: State, s': State)
    requires Inv(s) && Next(s, s')
    ensures Popped(s') == Popped(s) +
      if !s.c.pc.PopReturn? && s'.c.pc.PopReturn? && s'.c.pc.got.Some? then [s'.c.pc.got.value] else []
  {
    if c :| PushEnabled(s, c) && s' == PushStep(s, c) {
      PushLogs(s, c);
    } else {
      var c :| PopEnabled(s, c) && s' == PopStep(s, c);
      PopLogs(s, c);
    }
  }

  lemma {:induction false} ReturnedIsPopped(r: seq<State>)
    requires Run(r)
    ensures Returned(r) == Popped(r[|r| - 1])
  {
    var n := |r| - 1;
    if n == 0 {
      InitInv(r[0]);
    } else {
      Shorter(r, Init, Next);
      ReturnedIsPopped(r[..n]);
      RunInv(r, n - 1);
      StepAt(r, Init, Next, n - 1);
      NextReturns(r[n - 1], r[n]);
    }
  }

  lemma PushedAndPopped(s: State)
    requires Inv(s)
    ensures Pushed(s) == Popped(s) + Queue(s) && |Queue(s)| <= |s.ring|
  {
  }

  /** In every run, what pop has returned is the beginning of what push was called with and has
      accepted, the queue is the rest, and it never has more than `capacity_` elements. */
  lemma RunIsFifo(r: seq<State>, es: seq<Event>)
    requires Logged(r, es)
    ensures Accepted(r, es) == Returned(r) + Queue(r[|es|])
    ensures |Queue(r[|es|])| <= |r[|es|].ring|
  {
    LoggedIsRun(r, es);
    AcceptedIsPushed(r, es);
    ReturnedIsPopped(r);
    RunInv(r, |es|);
    PushedAndPopped(r[|es|]);
  }

  // Wait-freedom.

  /** How many steps each side is from the end of its call. */
  function PushRank(pc: PushPC): nat {
    match pc
    case PushIdle => 0
    case LoadTail(_) => 5
    case SeeHead(_, _) => 4
    case Build(_, _) => 3
    case StoreTail(_, _) => 2
    case PushReturn(_) => 1
  }

  function PopRank(pc: PopPC): nat {
    match pc
    case PopIdle => 0
    case LoadHead => 6
    case SeeTail(_) => 5
    case MoveOut(_) => 4
    case Destroy(_, _) => 3
    case StoreHead(_, _) => 2
    case PopReturn(_) => 1
  }

  /** Both operations are wait-free: a side can always take its next step, each step of a call
      brings it nearer to its end, and the other side's steps do not touch it. */
  lemma PushIsWaitFree(s: State, c: Choice)
    requires Inv(s)
    ensures exists d :: PushEnabled(s, d)
    ensures PushEnabled(s, c) ==>
      && (if c.Push? then s.p.pc.PushIdle? && Carried(PushStep(s, c).p.pc) == Some(c.v)
          else PushRank(PushStep(s, c).p.pc) < PushRank(s.p.pc))
      && PushStep(s, c).c == s.c
  {
    assert PushEnabled(s, match s.p.pc case PushIdle => Push(0) case SeeHead(_, _) => See(|s.heads| - 1) case _ => Go);
  }

  lemma PopIsWaitFree(s: State, c: Choice)
    requires Inv(s)
    ensures exists d :: PopEnabled(s, d)
    ensures PopEnabled(s, c) ==>
      && (if c.Pop? then s.c.pc.PopIdle? && PopStep(s, c).c.pc == LoadHead
          else PopRank(PopStep(s, c).c.pc) < PopRank(s.c.pc))
      && PopStep(s, c).p == s.p
  {
    assert PopEnabled(s, match s.c.pc case PopIdle => Pop case SeeTail(_) => See(|s.tails| - 1) case _ => Go);
  }

  // The destructor.

  /** Nobody is in an operation: the slots hold exactly the elements not yet destroyed. */
  ghost predicate Settled(s: State) {
    && WellFormed(s) && Last(s.heads) == |s.destroyed| && Last(s.tails) == |s.built|
    && s.destroyed <= s.built && |s.built| <= |s.destroyed| + |s.ring|
    && forall i {:trigger s.cur[i]} :: 0 <= i < |s.ring| ==>
         && s.cur[i] % |s.ring| == i && |s.destroyed| <= s.cur[i] < |s.destroyed| + |s.ring|
         && s.ring[i].content == (if s.cur[i] < |s.built| then Live(s.built[s.cur[i]]) else Raw)
  }

  lemma IdleIsSettled(s: State)
    requires Inv(s) && s.p.pc == PushIdle && s.c.pc == PopIdle
    ensures Settled(s)
  {
    forall i | 0 <= i < |s.ring|
      ensures s.cur[i] % |s.ring| == i && |s.destroyed| <= s.cur[i] < |s.destroyed| + |s.ring|
      ensures s.ring[i].content == (if s.cur[i] < |s.built| then Live(s.built[s.cur[i]]) else Raw)
    {
      assert SlotOk(s, i);
    }
  }

  /** The slot of the oldest element holds it. */
  lemma OldestSlot(s: State)
    requires Settled(s) && |s.destroyed| < |s.built|
    ensures var i := |s.destroyed| % |s.ring|;
      i < |s.ring| && s.cur[i] == |s.destroyed| && s.ring[i].content == Live(s.built[|s.destroyed|])
  {
    var x := |s.destroyed|;
    var i := x % |s.ring|;
    if x < s.cur[i] {
      TurnsApart(x, s.cur[i], |s.ring|);
    }
  }

  lemma DestroySettled(s: State)
    requires Settled(s) && |s.destroyed| < |s.built|
    ensures Settled(DestroyOldest(s))
  {
    var s', x := DestroyOldest(s), |s.destroyed|;
    OldestSlot(s);
    NextTurn(x, |s.ring|);
    forall i | 0 <= i < |s.ring|
      ensures |s'.destroyed| <= s'.cur[i]
    {
      if s.cur[i] == x {
        assert i == x % |s.ring|;
      }
    }
  }

  lemma {:induction false} DestructEmpties(s: State)
    requires Settled(s)
    ensures var d := Destruct(s);
      Settled(d) && d.built == s.built && d.destroyed == s.built && |d.ring| == |s.ring|
      && forall i :: 0 <= i < |d.ring| ==> d.ring[i].content == Raw
    decreases |s.built| - |s.destroyed|
  {
    if |s.destroyed| < |s.built| {
      DestroySettled(s);
      DestructEmpties(DestroyOldest(s));
    } else {
      forall i | 0 <= i < |s.ring|
        ensures s.ring[i].content == Raw
      {
        assert s.cur[i] >= |s.built|;
      }
    }
  }

  /** A run that ends in the destructor destroys every element ever built, once each, in the
      order of their construction, and leaves raw memory. */
  lemma RunLifetimes(r: seq<State>, es: seq<Event>)
    requires Logged(r, es) && r[|r| - 1].p.pc == PushIdle && r[|r| - 1].c.pc == PopIdle
    ensures WellFormed(r[|r| - 1])
    ensures var s, d := r[|r| - 1], Destruct(r[|r| - 1]);
      && s.built == Accepted(r, es) && s.destroyed == Returned(r)
      && s.destroyed <= d.destroyed == d.built == s.built && forall i :: 0 <= i < |d.ring| ==> d.ring[i].content == Raw
  {
    LoggedIsRun(r, es);
    AcceptedIsPushed(r, es);
    ReturnedIsPopped(r);
    RunInv(r, |r| - 1);
    IdleIsSettled(r[|r| - 1]);
    DestructEmpties(r[|r| - 1]);
  }
}
