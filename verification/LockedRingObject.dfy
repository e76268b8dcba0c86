/** The ring buffer under a mutex as an object: the fields of the source, and one method for each
    lock operation, wait, notification and protected access of a thread. */
module LockedRingObject {
  import opened Memory
  import opened Runs
  import opened QueueSpec
  import opened LockedRing
  import opened LockedRingTheorems

  lemma Good(s: State, t: Tid, c: Choice)
    requires Reachable(s) && Enabled(s, t, c)
    ensures Reachable(Step(s, t, c)) && StepBy(Abstract(s), Abstract(Step(s, t, c)), t, CallOf(c))
  {
    ReachableInv(s);
    Reach(s, t, c, Step(s, t, c));
    StepRefines(s, t, c);
  }

  lemma GoodStore(s: State, t: Tid, v: Value, wait: bool)
    requires Reachable(s) && t < |s.th| && s.th[t] == PutStore(v, wait)
    ensures Enabled(s, t, Plain) && Step(s, t, Plain) == Store(s, t, v)
    ensures Reachable(Store(s, t, v)) && StepBy(Abstract(s), Abstract(Store(s, t, v)), t, None)
    ensures |Abstract(s).queue| < MAXSIZE && Abstract(Store(s, t, v)).queue == Abstract(s).queue + [v]
  {
    ReachableInv(s);
    Good(s, t, Plain);
    StoreRefines(s, t, v, wait);
  }

  lemma ReadsOldest(s: State, t: Tid, wait: bool)
    requires Reachable(s) && t < |s.th| && s.th[t] == TakeRead(wait)
    ensures |s.buffer| == MAXSIZE && s.taken < |s.vals| && s.buffer[Mask(s.first)] == s.vals[s.taken]
  {
    ReachableInv(s);
    KeepRead(s, t, wait);
  }

  lemma GoodRead(s: State, t: Tid, wait: bool)
    requires Reachable(s) && t < |s.th| && s.th[t] == TakeRead(wait)
    ensures Enabled(s, t, Plain) && Reachable(Step(s, t, Plain))
    ensures StepBy(Abstract(s), Abstract(Step(s, t, Plain)), t, None)
    ensures TakesEffect(Abstract(s), Abstract(Step(s, t, Plain)), t)
    ensures Abstract(s).queue != [] && s.buffer[Mask(s.first)] == Abstract(s).queue[0]
  {
    ReadsOldest(s, t, wait);
    Good(s, t, Plain);
    ReadRefines(s, t, wait);
  }

  lemma TestsAreExact(s: State)
    requires Reachable(s)
    ensures Full(s) <==> |Abstract(s).queue| == MAXSIZE
    ensures Empty(s) <==> Abstract(s).queue == []
  {
    ReachableInv(s);
    SizeIsExact(s);
  }

  class Mpmc {
    const buffer: array<Value>
    var first: nat
    var last: nat
    var owner: Option<Tid>
    // the bookkeeping of the proof
    ghost var th: seq<PC>
    ghost var vals: seq<Value>
    ghost var taken: nat

    ghost function View(): State
      reads this, buffer
    {
      State(buffer[..], first, last, owner, th, vals, taken)
    }

    /** The object is in the last state of a run. */
    ghost predicate Valid()
      reads this, buffer
    {
      buffer.Length == MAXSIZE && Reachable(View())
    }

    ghost predicate Turn(t: Tid, pc: PC)
      reads this, buffer
    {
      Valid() && t < |th| && th[t] == pc
    }

    /** The call was a step of thread t, and a step of the atomic queue or none. */
    twostate predicate Stepped(t: Tid, c: Choice)
      reads this, buffer
    {
      && Valid() && Enabled(old(View()), t, c) && View() == Step(old(View()), t, c)
      && StepBy(Abstract(old(View())), Abstract(View()), t, CallOf(c))
    }

    constructor (ghost threads: nat)
      ensures Valid() && Init(View()) && |th| == threads && fresh(buffer)
    {
      buffer := new Value[MAXSIZE](_ => 0);
      first, last, owner, th, vals, taken := 0, 0, None, seq(threads, _ => Idle), [], 0;
      new;
      assert IsRun([View()], Init, Next);
    }

    ghost method Note(s: State)
      modifies `th, `vals, `taken
      ensures th == s.th && vals == s.vals && taken == s.taken
    {
      th, vals, taken := s.th, s.vals, s.taken;
    }

    /** A thread calls or returns from an operation. */
    ghost method Move(t: Tid, c: Choice)
      requires Valid() && Enabled(View(), t, c) && (th[t].Idle? || th[t].Return?)
      modifies this
      ensures Stepped(t, c)
    {
      Good(View(), t, c);
      Note(Step(View(), t, c));
    }

    /** m_.lock(), at the start of an operation or on the way out of a wait */
    method Lock(t: Tid)
      requires Valid() && t < |th| && owner == None
      requires th[t].PutLock? || th[t].TakeLock? || th[t].PutWoken? || th[t].TakeWoken?
      modifies this
      ensures Stepped(t, Plain) && owner == Some(t)
      ensures t < |th| && (th[t].PutTest? || th[t].TakeTest?) && OpOf(th[t]) == OpOf(old(th[t]))
    {
      ghost var s := View();
      Good(s, t, Plain);
      owner := Some(t);
      Note(Step(s, t, Plain));
      assert View() == Step(s, t, Plain);
    }

    /** m_.unlock() */
    method Release(ghost t: Tid, ghost r: Result)
      requires Turn(t, Unlock(r))
      modifies this
      ensures Stepped(t, Plain)
    {
      ghost var s := View();
      Good(s, t, Plain);
      owner := None;
      Note(Step(s, t, Plain));
      assert View() == Step(s, t, Plain);
    }

    /** full(), and the wait or the failure if so */
    method TestFull(ghost t: Tid, ghost v: Value, wait: bool) returns (full: bool)
      requires Turn(t, PutTest(v, wait))
      modifies this
      ensures Stepped(t, Plain) && (full <==> |old(Abstract(View())).queue| == MAXSIZE)
      ensures if !full then th[t] == PutStore(v, wait)
        else if wait then th[t] == PutAsleep(v) && owner == None else th[t] == Unlock(Declined)
    {
      ghost var s := View();
      Good(s, t, Plain);
      TestsAreExact(s);
      full := Sub(last, first) == MAXSIZE;
      assert full == Full(s);
      if full && wait {
        owner := None;
      }
      Note(Step(s, t, Plain));
      assert View() == Step(s, t, Plain);
    }

    /** empty(), and the wait or the failure if so */
    method TestEmpty(ghost t: Tid, wait: bool) returns (empty: bool)
      requires Turn(t, TakeTest(wait))
      modifies this
      ensures Stepped(t, Plain) && (empty <==> old(Abstract(View())).queue == [])
      ensures if !empty then th[t] == TakeRead(wait)
        else if wait then th[t] == TakeAsleep && owner == None else th[t] == Unlock(Declined)
    {
      ghost var s := View();
      Good(s, t, Plain);
      TestsAreExact(s);
      empty := last == first;
      if empty && wait {
        owner := None;
      }
      Note(Step(s, t, Plain));
      assert View() == Step(s, t, Plain);
    }

    /** buffer_[mask(out_++)] = obj */
    method StoreItem(ghost t: Tid, v: Value, ghost wait: bool)
      requires Turn(t, PutStore(v, wait))
      modifies this, buffer
      ensures Stepped(t, Plain)
      ensures |old(Abstract(View())).queue| < MAXSIZE && Abstract(View()).queue == old(Abstract(View())).queue + [v]
    {
      ghost var s := View();
      GoodStore(s, t, v, wait);
      var i := Mask(last);
      buffer[i] := v;
      assert buffer[..] == s.buffer[i := v];
      last := Inc(last);
      Note(Step(s, t, Plain));
      assert View() == Step(s, t, Plain);
    }

    /** buffer_[mask(in_)] and in_++: the oldest item */
    method ReadItem(ghost t: Tid, wait: bool) returns (v: Value)
      requires Turn(t, TakeRead(wait))
      modifies this
      ensures Stepped(t, Plain) && TakesEffect(old(Abstract(View())), Abstract(View()), t)
      ensures old(Abstract(View())).queue != [] && v == old(Abstract(View())).queue[0]
    {
      ghost var s := View();
      GoodRead(s, t, wait);
      v := buffer[Mask(first)];
      first := Inc(first);
      Note(Step(s, t, Plain));
      assert View() == Step(s, t, Plain);
    }

    /** notify_one() on either condition variable: wakes a thread in the wait set, if there is one. */
    ghost method Notify(t: Tid, c: Choice)
      requires Valid() && Enabled(View(), t, c) && (th[t].PutNotify? || th[t].TakeNotify?)
      modifies this
      ensures Stepped(t, c)
    {
      Good(View(), t, c);
      Note(Step(View(), t, c));
    }

    /** A wait may end without a notification. */
    ghost method WakeSpuriously(t: Tid)
      requires Valid() && t < |th| && (th[t].PutAsleep? || th[t].TakeAsleep?)
      modifies this
      ensures Stepped(t, Spurious)
    {
      Good(View(), t, Spurious);
      Note(Step(View(), t, Spurious));
    }
  }
}
