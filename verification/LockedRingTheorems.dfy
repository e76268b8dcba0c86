/** The ring buffer under a mutex is a bounded FIFO across any number of wrap-arounds, and no
    wakeup is lost, except that try_consume leaves sleeping producers asleep. */
module LockedRingTheorems {
  import opened Memory
  import opened Bits
  import opened QueueSpec
  import opened Runs
  import opened LockedRing

  predicate Holds(pc: PC) {
    || pc.PutTest? || pc.PutStore? || pc.PutNotify?
    || pc.TakeTest? || pc.TakeRead? || pc.TakeNotify? || pc.Unlock?
  }

  /** The words in_ and out_ count the takes and the puts, and the buffer holds what is between. */
  ghost predicate RingOk(buffer: seq<Value>, first: nat, last: nat, vals: seq<Value>, taken: nat) {
    && |buffer| == MAXSIZE && first == taken % WORD && last == |vals| % WORD
    && taken <= |vals| <= taken + MAXSIZE
    && forall p :: taken <= p < |vals| ==> buffer[p % MAXSIZE] == vals[p]
  }

  /** The mutex has at most one owner, who alone is in the critical section. */
  ghost predicate LockOk(owner: Option<Tid>, th: seq<PC>) {
    && (owner.Some? ==> owner.value < |th|)
    && forall t {:trigger th[t]} :: 0 <= t < |th| ==> (Holds(th[t]) <==> owner == Some(t))
  }

  /** What the predicate of the wait said still holds. */
  ghost predicate TestsOk(th: seq<PC>, vals: seq<Value>, taken: nat) {
    forall t {:trigger th[t]} :: 0 <= t < |th| ==>
      && (th[t].PutStore? ==> |vals| < taken + MAXSIZE)
      && (th[t].TakeRead? ==> taken < |vals|)
  }

  /** Who will look at the buffer as a consumer, or tell one to. */
  predicate ForTakers(pc: PC) {
    pc.TakeWoken? || pc.TakeTest? || pc.TakeRead? || pc.PutNotify?
  }

  /** Who will look at the buffer as a producer, or tell one to. */
  predicate ForPutters(pc: PC) {
    pc.PutWoken? || pc.PutTest? || pc.PutStore? || pc.TakeNotify?
  }

  function Those(th: seq<PC>, p: PC -> bool): set<Tid> {
    set t: Tid | t < |th| && p(th[t])
  }

  /** No wakeup is lost: a consumer sleeps only while every item has a consumer on its way. */
  ghost predicate TakersOk(th: seq<PC>, items: int) {
    (exists t :: 0 <= t < |th| && th[t].TakeAsleep?) ==> items <= |Those(th, ForTakers)|
  }

  /** A producer sleeps only while every free slot has a producer on its way. */
  ghost predicate PuttersOk(th: seq<PC>, free: int) {
    (exists t :: 0 <= t < |th| && th[t].PutAsleep?) ==> free <= |Those(th, ForPutters)|
  }

  function Items(s: State): int { |s.vals| - s.taken }

  ghost predicate Inv(s: State) {
    && RingOk(s.buffer, s.first, s.last, s.vals, s.taken) && LockOk(s.owner, s.th)
    && TestsOk(s.th, s.vals, s.taken) && TakersOk(s.th, Items(s))
  }

  // The words.

  /** Differences of wrapped counters are exact. */
  lemma SizeIsExact(s: State)
    requires RingOk(s.buffer, s.first, s.last, s.vals, s.taken)
    ensures Size(s) == Items(s) && (Full(s) <==> Items(s) == MAXSIZE) && (Empty(s) <==> Items(s) == 0)
  {
    WrappedDifference(s.taken, |s.vals|);
  }

  lemma WrappedDifference(a: nat, b: nat)
    requires a <= b <= a + MAXSIZE
    ensures (b % WORD - a % WORD) % WORD == b - a
    ensures b % WORD == a % WORD <==> a == b
  {
  }

  lemma WrappedNext(a: nat)
    ensures (a % WORD + 1) % WORD == (a + 1) % WORD
  {
  }

  lemma WrappedSum(a: nat, k: nat)
    ensures (a % WORD + k) % WORD == (a + k) % WORD
  {
  }

  /** The mask sees through the wrap-around, for 2^64 is a multiple of the size. */
  lemma WrappedMask(a: nat)
    ensures (a % WORD) % MAXSIZE == a % MAXSIZE
  {
    var q, w := a / WORD, a % WORD;
    assert a == MAXSIZE * (q * (WORD / MAXSIZE) + w / MAXSIZE) + w % MAXSIZE;
  }

  // Counting threads.

  function One(b: bool): nat { if b then 1 else 0 }

  lemma ThoseAt(th: seq<PC>, t: Tid, pc: PC, p: PC -> bool)
    requires t < |th|
    ensures |Those(th[t := pc], p)| + One(p(th[t])) == |Those(th, p)| + One(p(pc))
  {
    var a, b := Those(th, p), Those(th[t := pc], p);
    assert a - {t} == b - {t};
    assert p(th[t]) ==> a == (a - {t}) + {t};
    assert p(pc) ==> b == (b - {t}) + {t};
    assert !p(th[t]) ==> a == a - {t};
    assert !p(pc) ==> b == b - {t};
  }

  /** A step that adds no item without adding a consumer on its way. */
  lemma KeepTakers(th: seq<PC>, t: Tid, pc: PC, items: int, items': int)
    requires t < |th| && TakersOk(th, items)
    requires items' <= 0 || (!pc.TakeAsleep? && items' + One(ForTakers(th[t])) <= items + One(ForTakers(pc)))
    ensures TakersOk(th[t := pc], items')
  {
    ThoseAt(th, t, pc, ForTakers);
    assert forall u :: 0 <= u < |th| && u != t ==> th[t := pc][u] == th[u];
  }

  lemma KeepPutters(th: seq<PC>, t: Tid, pc: PC, free: int, free': int)
    requires t < |th| && PuttersOk(th, free)
    requires free' <= 0 || (!pc.PutAsleep? && free' + One(ForPutters(th[t])) <= free + One(ForPutters(pc)))
    ensures PuttersOk(th[t := pc], free')
  {
    ThoseAt(th, t, pc, ForPutters);
    assert forall u :: 0 <= u < |th| && u != t ==> th[t := pc][u] == th[u];
  }

  /** A notification hands its own place in the count to the thread it wakes, if any sleeps. */
  lemma NotifyTakers(s: State, t: Tid, c: Choice)
    requires Enabled(s, t, c) && s.th[t].PutNotify? && TakersOk(s.th, Items(s))
    ensures TakersOk(Step(s, t, c).th, Items(s))
  {
    if c.Wake? {
      ThoseAt(s.th, c.u, TakeWoken, ForTakers);
      ThoseAt(s.th[c.u := TakeWoken], t, Unlock(Accepted), ForTakers);
    }
  }

  lemma NotifyPutters(s: State, t: Tid, c: Choice, free: int)
    requires Enabled(s, t, c) && s.th[t].TakeNotify? && PuttersOk(s.th, free)
    ensures PuttersOk(Step(s, t, c).th, free)
  {
    if c.Wake? {
      ThoseAt(s.th, c.u, PutWoken(s.th[c.u].v), ForPutters);
      ThoseAt(s.th[c.u := PutWoken(s.th[c.u].v)], t, Unlock(Got(s.th[t].v)), ForPutters);
    }
  }

  // The steps.

  lemma OtherSlot(p: nat, q: nat)
    requires p < q < p + MAXSIZE
    ensures p % MAXSIZE != q % MAXSIZE
  {
    if p % MAXSIZE == q % MAXSIZE {
      TurnsApart(p, q, MAXSIZE);
    }
  }

  /** The next slot holds nothing that is still to be taken. */
  lemma StoreRing(buffer: seq<Value>, first: nat, last: nat, vals: seq<Value>, taken: nat, v: Value)
    requires RingOk(buffer, first, last, vals, taken) && |vals| < taken + MAXSIZE
    ensures RingOk(buffer[Mask(last) := v], first, (last + 1) % WORD, vals + [v], taken)
  {
    WrappedNext(|vals|);
    WrappedMask(|vals|);
    forall p | taken <= p < |vals|
      ensures p % MAXSIZE != |vals| % MAXSIZE
    {
      OtherSlot(p, |vals|);
    }
  }

  lemma KeepStore(s: State, t: Tid, v: Value, wait: bool)
    requires Inv(s) && t < |s.th| && s.th[t] == PutStore(v, wait)
    ensures Inv(Store(s, t, v))
  {
    StoreRing(s.buffer, s.first, s.last, s.vals, s.taken, v);
    KeepTakers(s.th, t, PutNotify, Items(s), Items(s) + 1);
  }

  lemma KeepRead(s: State, t: Tid, wait: bool)
    requires Inv(s) && t < |s.th| && s.th[t] == TakeRead(wait)
    ensures Inv(Read(s, t, wait)) && s.buffer[Mask(s.first)] == s.vals[s.taken]
  {
    WrappedNext(s.taken);
    WrappedMask(s.taken);
    KeepTakers(s.th, t, Read(s, t, wait).th[t], Items(s), Items(s) - 1);
  }

  /** Steps that move one thread and perhaps the mutex. */
  lemma KeepMove(s: State, s': State, t: Tid, pc: PC)
    requires Inv(s) && t < |s.th| && s' == At(s, t, pc).(owner := s'.owner)
    requires LockOk(s'.owner, s'.th)
    requires (pc.PutStore? ==> Items(s) < MAXSIZE) && (pc.TakeRead? ==> Items(s) > 0)
    requires Items(s) == 0 || (!pc.TakeAsleep? && (ForTakers(s.th[t]) ==> ForTakers(pc)))
    ensures Inv(s')
  {
    KeepTakers(s.th, t, pc, Items(s), Items(s));
  }

  lemma KeepTests(s: State, t: Tid, c: Choice)
    requires Inv(s) && Enabled(s, t, c) && (s.th[t].PutTest? || s.th[t].TakeTest?)
    ensures Inv(Step(s, t, c))
  {
    SizeIsExact(s);
    KeepMove(s, Step(s, t, c), t, Step(s, t, c).th[t]);
  }

  lemma KeepNotify(s: State, t: Tid, c: Choice)
    requires Inv(s) && Enabled(s, t, c) && (s.th[t].PutNotify? || s.th[t].TakeNotify?)
    ensures Inv(Step(s, t, c))
  {
    if s.th[t].PutNotify? {
      NotifyTakers(s, t, c);
    } else if c.Wake? {
      var th := s.th[c.u := PutWoken(s.th[c.u].v)];
      KeepTakers(s.th, c.u, th[c.u], Items(s), Items(s));
      KeepTakers(th, t, Unlock(Got(s.th[t].v)), Items(s), Items(s));
    } else {
      KeepMove(s, Step(s, t, c), t, Step(s, t, c).th[t]);
    }
  }

  lemma KeepStep(s: State, t: Tid, c: Choice)
    requires Inv(s) && Enabled(s, t, c)
    ensures Inv(Step(s, t, c))
  {
    var pc := s.th[t];
    if pc.PutStore? {
      KeepStore(s, t, pc.v, pc.wait);
    } else if pc.TakeRead? {
      KeepRead(s, t, pc.wait);
    } else if pc.PutTest? || pc.TakeTest? {
      KeepTests(s, t, c);
    } else if pc.PutNotify? || pc.TakeNotify? {
      KeepNotify(s, t, c);
    } else {
      KeepMove(s, Step(s, t, c), t, Step(s, t, c).th[t]);
    }
  }

  // Producers.

  function Free(s: State): int { MAXSIZE - Items(s) }

  /** Every step but the read of try_consume leaves no producer asleep beside a free slot. */
  lemma PuttersKept(s: State, t: Tid, c: Choice)
    requires Inv(s) && PuttersOk(s.th, Free(s)) && Enabled(s, t, c) && s.th[t] != TakeRead(false)
    ensures PuttersOk(Step(s, t, c).th, Free(Step(s, t, c)))
  {
    SizeIsExact(s);
    var pc, s' := s.th[t], Step(s, t, c);
    if pc.TakeNotify? {
      NotifyPutters(s, t, c, Free(s));
    } else if pc.PutNotify? && c.Wake? {
      KeepPutters(s.th, c.u, TakeWoken, Free(s), Free(s));
      KeepPutters(s.th[c.u := TakeWoken], t, Unlock(Accepted), Free(s), Free(s));
    } else {
      KeepPutters(s.th, t, s'.th[t], Free(s), Free(s'));
    }
  }

  predicate Woken(pc: PC) {
    pc.PutWoken?
  }

  /** Thread t is about to free a slot and tell nobody, while a producer sleeps and no more
      producers have been woken than there are free slots already. */
  ghost predicate Harms(s: State, t: Tid) {
    && t < |s.th| && s.th[t].TakeRead? && OpOf(s.th[t]) == Called(Take(false)) && |Those(s.th, Woken)| <= Free(s)
    && exists u :: 0 <= u < |s.th| && s.th[u].PutAsleep?
  }

  /** While a thread reads, it has the mutex, so the producers on their way are those woken. */
  lemma OnlyWoken(s: State, t: Tid)
    requires Inv(s) && t < |s.th| && s.th[t].TakeRead?
    ensures Those(s.th, ForPutters) == Those(s.th, Woken)
  {
    forall u: Tid | u < |s.th|
      ensures ForPutters(s.th[u]) <==> Woken(s.th[u])
    {
    }
  }

  /** The read of try_consume loses a wakeup exactly when it is harmful. */
  lemma TryConsumeKeepsIff(s: State, t: Tid)
    requires Inv(s) && PuttersOk(s.th, Free(s)) && t < |s.th| && s.th[t] == TakeRead(false)
    ensures PuttersOk(Read(s, t, false).th, Free(Read(s, t, false))) <==> !Harms(s, t)
  {
    var th' := Read(s, t, false).th;
    OnlyWoken(s, t);
    ThoseAt(s.th, t, th'[t], ForPutters);
    assert forall u :: 0 <= u < |s.th| ==> (th'[u].PutAsleep? <==> s.th[u].PutAsleep?);
  }

  lemma PuttersKeptIff(s: State, t: Tid, c: Choice)
    requires Inv(s) && PuttersOk(s.th, Free(s)) && Enabled(s, t, c)
    ensures PuttersOk(Step(s, t, c).th, Free(Step(s, t, c))) <==> !Harms(s, t)
  {
    if s.th[t] == TakeRead(false) {
      TryConsumeKeepsIff(s, t);
    } else {
      PuttersKept(s, t, c);
    }
  }

  /** With the mutex free, every item has a consumer that was woken for it, if any sleeps. */
  lemma NoLostWakeup(s: State)
    requires Inv(s) && s.owner == None && exists t :: 0 <= t < |s.th| && s.th[t].TakeAsleep?
    ensures Items(s) <= |set t: Tid | t < |s.th| && s.th[t].TakeWoken?|
  {
    forall t: Tid | t < |s.th|
      ensures ForTakers(s.th[t]) <==> s.th[t].TakeWoken?
    {
    }
    assert Those(s.th, ForTakers) == set t: Tid | t < |s.th| && s.th[t].TakeWoken?;
  }

  /** With the mutex free, every free slot has a producer that was woken for it, if any sleeps. */
  lemma NoLostWakeupOfPutters(s: State)
    requires Inv(s) && PuttersOk(s.th, Free(s)) && s.owner == None
    requires exists t :: 0 <= t < |s.th| && s.th[t].PutAsleep?
    ensures Free(s) <= |set t: Tid | t < |s.th| && s.th[t].PutWoken?|
  {
    forall t: Tid | t < |s.th|
      ensures ForPutters(s.th[t]) <==> s.th[t].PutWoken?
    {
    }
    assert Those(s.th, ForPutters) == set t: Tid | t < |s.th| && s.th[t].PutWoken?;
  }

  // Linearizability.

  /** Puts take effect when they store, takes when they read, the rest at their test. */
  function OpOf(pc: PC): Op {
    match pc
    case Idle => Ready
    case PutLock(v, wait) => Called(Put(v, wait))
    case PutTest(v, wait) => Called(Put(v, wait))
    case PutAsleep(v) => Called(Put(v, true))
    case PutWoken(v) => Called(Put(v, true))
    case PutStore(v, wait) => Called(Put(v, wait))
    case PutNotify => Finished(Accepted)
    case TakeLock(wait) => Called(Take(wait))
    case TakeTest(wait) => Called(Take(wait))
    case TakeAsleep => Called(Take(true))
    case TakeWoken => Called(Take(true))
    case TakeRead(wait) => Called(Take(wait))
    case TakeNotify(v) => Finished(Got(v))
    case Unlock(r) => Finished(r)
    case Return(r) => Finished(r)
  }

  function Abstract(s: State): Object {
    Object(MAXSIZE, if s.taken <= |s.vals| then s.vals[s.taken..] else [],
           seq(|s.th|, t requires 0 <= t < |s.th| => OpOf(s.th[t])))
  }

  /** The slot of the item k places after `in_` holds v. */
  ghost predicate IsAt(s: State, k: nat, v: Value) {
    |s.buffer| == MAXSIZE && s.buffer[Mask((s.first + k) % WORD)] == v
  }

  /** The abstract queue is what the buffer holds, from the masked `in_` on. */
  lemma QueueIsInBuffer(s: State, k: nat)
    requires Inv(s) && k < |Abstract(s).queue|
    ensures |Abstract(s).queue| == Size(s) && IsAt(s, k, Abstract(s).queue[k])
  {
    SizeIsExact(s);
    WrappedSum(s.taken, k);
    WrappedMask(s.taken + k);
  }

  lemma Stutters(s: State, t: Tid, c: Choice)
    requires Enabled(s, t, c)
    requires !s.th[t].Idle? && !s.th[t].PutTest? && !s.th[t].TakeTest? && !s.th[t].PutStore?
          && !s.th[t].TakeRead? && !s.th[t].Return?
    ensures Abstract(Step(s, t, c)) == Abstract(s)
  {
  }

  /** A try that fails finds the queue exactly full, or empty. */
  lemma TestRefines(s: State, t: Tid, c: Choice)
    requires Enabled(s, t, c) && (s.th[t].PutTest? || s.th[t].TakeTest?) && s.taken <= |s.vals|
    requires (Full(s) <==> Items(s) == MAXSIZE) && (Empty(s) <==> Items(s) == 0)
    ensures var s', o, o' := Step(s, t, c), Abstract(s), Abstract(Step(s, t, c));
      if s'.th[t] == Unlock(Declined)
      then Declines(o, o', t) && (if s.th[t].PutTest? then |o.queue| == MAXSIZE else o.queue == [])
      else o' == o
  {
  }

  lemma StoreRefines(s: State, t: Tid, v: Value, wait: bool)
    requires t < |s.th| && s.th[t] == PutStore(v, wait) && |s.buffer| == MAXSIZE
    requires s.taken <= |s.vals| < s.taken + MAXSIZE
    ensures TakesEffect(Abstract(s), Abstract(Store(s, t, v)), t)
  {
    assert (s.vals + [v])[s.taken..] == s.vals[s.taken..] + [v];
  }

  lemma ReadRefines(s: State, t: Tid, wait: bool)
    requires t < |s.th| && s.th[t] == TakeRead(wait) && |s.buffer| == MAXSIZE
    requires s.taken < |s.vals| && s.buffer[Mask(s.first)] == s.vals[s.taken]
    ensures TakesEffect(Abstract(s), Abstract(Read(s, t, wait)), t)
  {
    assert s.vals[s.taken..][1..] == s.vals[s.taken + 1..];
  }

  lemma EdgeRefines(s: State, t: Tid, c: Choice)
    requires Enabled(s, t, c) && (s.th[t].Idle? || s.th[t].Return?)
    ensures if s.th[t].Idle? then Begins(Abstract(s), Abstract(Step(s, t, c)), t, c.call)
            else Returns(Abstract(s), Abstract(Step(s, t, c)), t)
  {
  }

  /** Every step is one step of the atomic bounded queue, or none; the first is the call made, and
      only a call that does not wait is ever declined. */
  lemma StepRefines(s: State, t: Tid, c: Choice)
    requires Inv(s) && Enabled(s, t, c)
    ensures StepBy(Abstract(s), Abstract(Step(s, t, c)), t, CallOf(c))
  {
    var pc := s.th[t];
    if pc.PutTest? || pc.TakeTest? {
      SizeIsExact(s);
      TestRefines(s, t, c);
    } else if pc.PutStore? {
      StoreRefines(s, t, pc.v, pc.wait);
    } else if pc.TakeRead? {
      KeepRead(s, t, pc.wait);
      ReadRefines(s, t, pc.wait);
    } else if pc.Idle? || pc.Return? {
      EdgeRefines(s, t, c);
    } else {
      Stutters(s, t, c);
    }
  }

  // Runs.

  ghost predicate Next(s: State, s': State) {
    exists t, c :: Enabled(s, t, c) && s' == Step(s, t, c)
  }

  ghost predicate Run(r: seq<State>) {
    IsRun(r, Init, Next)
  }

  lemma InitInv(s: State)
    requires Init(s)
    ensures Inv(s) && PuttersOk(s.th, Free(s)) && Start(Abstract(s))
  {
  }

  lemma NextKeeps(s: State, s': State)
    requires Inv(s) && Next(s, s')
    ensures Inv(s') && Steps(Abstract(s), Abstract(s'))
  {
    var t, c :| Enabled(s, t, c) && s' == Step(s, t, c);
    KeepStep(s, t, c);
    StepRefines(s, t, c);
    assert StepBy(Abstract(s), Abstract(s'), t, CallOf(c));
  }

  lemma RunInv(r: seq<State>, n: nat)
    requires Run(r) && n < |r|
    ensures Inv(r[n])
  {
    forall s | Init(s)
      ensures Inv(s)
    {
      InitInv(s);
    }
    forall s, s' | Inv(s) && Next(s, s')
      ensures Inv(s')
    {
      NextKeeps(s, s');
    }
    Always(r, Init, Next, Inv, n);
  }

  /** The last state of some run. */
  ghost predicate Reachable(s: State) {
    Reached(s, Init, Next)
  }

  lemma ReachableInv(s: State)
    requires Reachable(s)
    ensures Inv(s)
  {
    var r :| IsRun(r, Init, Next) && r[|r| - 1] == s;
    RunInv(r, |r| - 1);
  }

  lemma Reach(s: State, t: Tid, c: Choice, s': State)
    requires Reachable(s) && Enabled(s, t, c) && s' == Step(s, t, c)
    ensures Reachable(s')
  {
    assert Next(s, s');
    Reaches(s, s', Init, Next);
  }

  lemma RunQueueIsInBuffer(r: seq<State>, n: nat, k: nat)
    requires Run(r) && n < |r| && k < |Abstract(r[n]).queue|
    ensures IsAt(r[n], k, Abstract(r[n]).queue[k])
  {
    RunInv(r, n);
    QueueIsInBuffer(r[n], k);
  }

  /** Every run is a history of the atomic bounded queue, which is at all times what the buffer
      holds, however often the counters wrap. */
  lemma RunLinearizable(r: seq<State>)
    requires Run(r)
    ensures History(Trace(r, Abstract))
    ensures forall n, k :: 0 <= n < |r| && 0 <= k < |Trace(r, Abstract)[n].queue| ==>
      IsAt(r[n], k, Trace(r, Abstract)[n].queue[k])
  {
    forall s | Init(s)
      ensures Inv(s) && Start(Abstract(s))
    {
      InitInv(s);
    }
    forall s, s' | Inv(s) && Next(s, s')
      ensures Inv(s') && Steps(Abstract(s), Abstract(s'))
    {
      NextKeeps(s, s');
    }
    forall n, k | 0 <= n < |r| && 0 <= k < |Trace(r, Abstract)[n].queue|
      ensures IsAt(r[n], k, Trace(r, Abstract)[n].queue[k])
    {
      RunQueueIsInBuffer(r, n, k);
    }
    Simulates(r, Init, Next, Inv, Abstract, Start, Steps);
  }

  /** The step from s to s' is a harmful read of try_consume. */
  ghost predicate Loses(s: State, s': State) {
    exists t, c :: Enabled(s, t, c) && Harms(s, t) && s' == Step(s, t, c)
  }

  lemma NextKeepsPutters(s: State, s': State)
    requires Inv(s) && Next(s, s') && PuttersOk(s.th, Free(s))
    ensures PuttersOk(s'.th, Free(s')) <==> !Loses(s, s')
  {
    var t, c :| Enabled(s, t, c) && s' == Step(s, t, c);
    PuttersKeptIff(s, t, c);
    if Loses(s, s') {
      var u, d :| Enabled(s, u, d) && Harms(s, u) && s' == Step(s, u, d);
      PuttersKeptIff(s, u, d);
    }
  }

  /** No step of the run is a harmful read. */
  ghost predicate NobodyHarms(r: seq<State>) {
    forall i, j {:trigger Loses(r[i], r[j])} :: 0 <= i && j == i + 1 < |r| ==> !Loses(r[i], r[j])
  }

  lemma WithoutTryConsume(r: seq<State>)
    requires forall i, t :: 0 <= i < |r| && 0 <= t < |r[i].th| ==> r[i].th[t] != TakeRead(false)
    ensures NobodyHarms(r)
  {
  }

  lemma {:induction false} RunKeepsPutters(r: seq<State>, n: nat)
    requires Run(r) && NobodyHarms(r) && n < |r|
    ensures PuttersOk(r[n].th, Free(r[n]))
  {
    if n == 0 {
      InitInv(r[0]);
    } else {
      RunKeepsPutters(r, n - 1);
      RunInv(r, n - 1);
      StepAt(r, Init, Next, n - 1);
      NextKeepsPutters(r[n - 1], r[n]);
    }
  }

  /** A run keeps every free slot attended while a producer sleeps exactly when no step of it is a
      harmful read of try_consume. */
  lemma RunKeepsPuttersIff(r: seq<State>)
    requires Run(r)
    ensures (forall n :: 0 <= n < |r| ==> PuttersOk(r[n].th, Free(r[n]))) <==> NobodyHarms(r)
  {
    if NobodyHarms(r) {
      forall n | 0 <= n < |r|
        ensures PuttersOk(r[n].th, Free(r[n]))
      {
        RunKeepsPutters(r, n);
      }
    } else if forall n :: 0 <= n < |r| ==> PuttersOk(r[n].th, Free(r[n])) {
      var i, j :| 0 <= i && j == i + 1 < |r| && Loses(r[i], r[j]);
      RunInv(r, i);
      StepAt(r, Init, Next, i);
      NextKeepsPutters(r[i], r[j]);
    }
  }

  /** Every thread is outside the queue or asleep in a wait. */
  ghost predicate AllQuiet(s: State) {
    forall t :: 0 <= t < |s.th| ==>
      s.th[t].Idle? || s.th[t].Return? || s.th[t].PutAsleep? || s.th[t].TakeAsleep?
  }

  lemma QuietCountsNobody(s: State)
    requires AllQuiet(s)
    ensures Those(s.th, ForTakers) == {} == Those(s.th, ForPutters)
  {
  }

  /** When all is quiet, a sleeping consumer means an empty queue. */
  lemma RunWakesConsumers(r: seq<State>, n: nat, t: Tid)
    requires Run(r) && n < |r| && AllQuiet(r[n]) && t < |r[n].th| && r[n].th[t].TakeAsleep?
    ensures Abstract(r[n]).queue == []
  {
    RunInv(r, n);
    QuietCountsNobody(r[n]);
  }

  /** When all is quiet, a sleeping producer means a full queue, provided that no read of
      try_consume was harmful; a run in which nobody uses try_consume has none. */
  lemma RunWakesProducers(r: seq<State>, n: nat, t: Tid)
    requires Run(r) && NobodyHarms(r) && n < |r| && AllQuiet(r[n]) && t < |r[n].th| && r[n].th[t].PutAsleep?
    ensures |Abstract(r[n]).queue| == MAXSIZE
  {
    RunInv(r, n);
    RunKeepsPutters(r, n);
    QuietCountsNobody(r[n]);
  }

  /** In every run, with the mutex free, every item has a consumer woken for it, if any sleeps. */
  lemma RunLosesNoWakeup(r: seq<State>, n: nat, t: Tid)
    requires Run(r) && n < |r| && r[n].owner == None && t < |r[n].th| && r[n].th[t].TakeAsleep?
    ensures Items(r[n]) <= |set u: Tid | u < |r[n].th| && r[n].th[u].TakeWoken?|
  {
    RunInv(r, n);
    NoLostWakeup(r[n]);
  }

  // A wakeup that try_consume loses.

  lemma ReachedSize(s: State)
    requires Reachable(s)
    ensures |s.buffer| == MAXSIZE && (Full(s) <==> Items(s) == MAXSIZE) && (Empty(s) <==> Items(s) == 0)
  {
    ReachableInv(s);
    SizeIsExact(s);
  }

  /** A thread calls an operation, takes the mutex and makes its test. */
  lemma ReachTest(s: State, t: Tid, pc: PC, call: Call) returns (s': State)
    requires Reachable(s) && t < |s.th| && |s.buffer| == MAXSIZE && s.th[t].Idle? && s.owner == None
    requires pc == if call.Put? then PutTest(call.v, call.waits) else TakeTest(call.waits)
    ensures s' == s.(owner := Some(t), th := s.th[t := pc]) && Reachable(s')
  {
    var lock := if call.Put? then PutLock(call.v, call.waits) else TakeLock(call.waits);
    var s1 := At(s, t, lock);
    Reach(s, t, Choice.Call(call), s1);
    s' := Acquire(s1, t, pc);
    Reach(s1, t, Plain, s');
    assert s'.th == s.th[t := pc];
  }

  /** Two threads, neither in an operation. */
  ghost predicate Resting(s: State, items: nat) {
    Reachable(s) && s.th == [Idle, Idle] && s.owner == None && Items(s) == items
  }

  lemma ReachStored(s: State, v: Value, n: nat) returns (s': State)
    requires Reachable(s) && s.th == [PutStore(v, true), Idle] && |s.buffer| == MAXSIZE && Items(s) == n
    ensures Resting(s', n + 1)
  {
    var s1 := Store(s, 0, v);
    Reach(s, 0, Plain, s1);
    var s2 := At(s1, 0, Unlock(Accepted));
    Reach(s1, 0, Plain, s2);
    var s3 := Release(s2, 0, Return(Accepted));
    Reach(s2, 0, Plain, s3);
    s' := At(s3, 0, Idle);
    Reach(s3, 0, Plain, s');
  }

  lemma ReachPut(s: State, v: Value, n: nat) returns (s': State)
    requires Resting(s, n) && n < MAXSIZE
    ensures Resting(s', n + 1)
  {
    ReachedSize(s);
    var s1 := ReachTest(s, 0, PutTest(v, true), Put(v, true));
    var s2 := At(s1, 0, PutStore(v, true));
    Reach(s1, 0, Plain, s2);
    assert s2.th == [PutStore(v, true), Idle];
    s' := ReachStored(s2, v, n);
  }

  lemma {:induction false} ReachItems(n: nat) returns (s: State)
    requires n <= MAXSIZE
    ensures Resting(s, n)
  {
    if n == 0 {
      s := State(seq(MAXSIZE, _ => 0), 0, 0, None, [Idle, Idle], [], 0);
      assert IsRun([s], Init, Next);
    } else {
      var s0 := ReachItems(n - 1);
      s := ReachPut(s0, 0, n - 1);
    }
  }

  /** A producer goes to sleep on the full queue. */
  lemma ReachAsleep(v: Value) returns (s: State)
    ensures Reachable(s) && s.th == [PutAsleep(v), Idle] && s.owner == None && Items(s) == MAXSIZE
  {
    var s0 := ReachItems(MAXSIZE);
    ReachedSize(s0);
    var s1 := ReachTest(s0, 0, PutTest(v, true), Put(v, true));
    s := Release(s1, 0, PutAsleep(v));
    Reach(s1, 0, Plain, s);
    assert s.th == [PutAsleep(v), Idle];
  }

  /** A run in which a producer goes to sleep on the full queue, try_consume takes an item, and
      the producer sleeps on beside a free slot with nobody on the way to wake it. */
  lemma TryConsumeLosesAWakeup(v: Value) returns (r: seq<State>)
    ensures Run(r)
    ensures var s := r[|r| - 1];
      AllQuiet(s) && |s.th| == 2 && s.th[0] == PutAsleep(v) && |Abstract(s).queue| == MAXSIZE - 1
  {
    var s := ReachAsleep(v);
    ReachedSize(s);
    var s1 := ReachTest(s, 1, TakeTest(false), Take(false));
    var s2 := At(s1, 1, TakeRead(false));
    Reach(s1, 1, Plain, s2);
    var s3 := Read(s2, 1, false);
    Reach(s2, 1, Plain, s3);
    var s4 := Release(s3, 1, Return(s3.th[1].result));
    Reach(s3, 1, Plain, s4);
    r :| IsRun(r, Init, Next) && r[|r| - 1] == s4;
  }
}
