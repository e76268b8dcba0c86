/** The thread pool as an object: the fields of the source that are shared, and one method for
    each access that a worker, a submitter or the destructor makes to them. */
module ThreadPoolObject {
  import opened Memory
  import opened Runs
  import opened ThreadPool
  import opened ThreadPoolTheorems

  lemma Good(p: State, a: Actor, c: Choice)
    requires Reachable(p) && Enabled(p, a, c)
    ensures Inv(p) && Reachable(Step(p, a, c))
  {
    ReachableInv(p);
    var _ := ReachStep(p, a, c);
  }

  class Pool {
    var stop: bool
    var jobs: seq<Job>
    var m: Option<Actor>
    // the bookkeeping of the proof
    ghost var w: seq<WorkerPC>
    ghost var s: seq<SubmitPC>
    ghost var d: OwnerPC
    ghost var accepted: seq<Job>
    ghost var takers: seq<nat>
    ghost var done: set<nat>

    ghost function View(): State
      reads this
    {
      State(stop, jobs, m, w, s, d, accepted, takers, done)
    }

    /** The object is in the last state of a run. */
    ghost predicate Valid()
      reads this
    {
      Reachable(View())
    }

    twostate predicate Stepped(a: Actor, c: Choice)
      reads this
    {
      Valid() && Enabled(old(View()), a, c) && View() == Step(old(View()), a, c)
    }

    constructor (ghost workers: nat, ghost submitters: nat)
      ensures Valid() && Init(View()) && |w| == workers && |s| == submitters
    {
      stop, jobs, m, d := false, [], None, Alive;
      w, s := seq(workers, _ => WorkerPC.Lock), seq(submitters, _ => Idle);
      accepted, takers, done := [], [], {};
      new;
      assert IsRun([View()], Init, Next);
    }

    ghost method Note(p: State)
      modifies `w, `s, `d, `accepted, `takers, `done
      ensures w == p.w && s == p.s && d == p.d && accepted == p.accepted && takers == p.takers && done == p.done
    {
      w, s, d, accepted, takers, done := p.w, p.s, p.d, p.accepted, p.takers, p.done;
    }

    /** The actor's next access is a lock of m. */
    ghost predicate WantsLock(a: Actor)
      reads this
    {
      match a
      case Worker(i) => i < |w| && (w[i].Lock? || w[i].Woken?)
      case Submitter(i) => i < |s| && s[i].SubmitLock?
      case Owner => d.StopLock?
    }

    /** The actor's next access is an unlock of m. */
    ghost predicate WantsUnlock(a: Actor)
      reads this
    {
      match a
      case Worker(i) => i < |w| && (w[i].Release? || w[i].Quit?)
      case Submitter(i) => i < |s| && (s[i].Accept? || s[i].Reject?)
      case Owner => d.StopUnlock?
    }

    method Lock(a: Actor)
      requires Valid() && WantsLock(a) && m == None
      modifies this
      ensures Stepped(a, Plain) && m == Some(a)
    {
      ghost var p := View();
      Good(p, a, Plain);
      m := Some(a);
      Note(Step(p, a, Plain));
      assert View() == Step(p, a, Plain);
    }

    method Unlock(ghost a: Actor)
      requires Valid() && WantsUnlock(a)
      modifies this
      ensures Stepped(a, Plain) && old(m) == Some(a) && m == None
    {
      ghost var p := View();
      Good(p, a, Plain);
      m := None;
      Note(Step(p, a, Plain));
      assert View() == Step(p, a, Plain);
    }

    /** Steps that touch none of the shared fields: a call, a notification, a wakeup, a job's
        run, a join. */
    ghost method Move(a: Actor, c: Choice)
      requires Valid() && Enabled(View(), a, c) && !WantsLock(a) && !WantsUnlock(a)
      requires a.Worker? ==> !w[a.i].Test? && !w[a.i].Take?
      requires a.Submitter? ==> !s[a.i].SubmitTest? && !s[a.i].Push?
      requires a.Owner? ==> !d.SetStop?
      modifies `w, `s, `d, `accepted, `takers, `done
      ensures Stepped(a, c)
    {
      ghost var p := View();
      Good(p, a, c);
      Note(Step(p, a, c));
      assert View() == Step(p, a, c);
    }

    /** start.wait with its predicate, and the test after it: to take, to quit or to sleep. */
    method WaitForJob(ghost i: nat) returns (quit: bool, sleep: bool)
      requires Valid() && i < |w| && w[i].Test?
      modifies this
      ensures Stepped(Worker(i), Plain)
      ensures quit <==> stop && jobs == []
      ensures sleep <==> !stop && jobs == []
      ensures w[i] == if quit then Quit else if sleep then Asleep else Take
    {
      ghost var p := View();
      Good(p, Worker(i), Plain);
      quit, sleep := stop && jobs == [], !stop && jobs == [];
      if sleep {
        m := None;
      }
      Note(Step(p, Worker(i), Plain));
      assert View() == Step(p, Worker(i), Plain);
    }

    /** job = move(jobs.front()); jobs.pop(): the oldest job that nobody has taken. */
    method PopJob(ghost i: nat) returns (job: Job)
      requires Valid() && i < |w| && w[i].Take?
      modifies this
      ensures Stepped(Worker(i), Plain) && w[i] == Release(|old(takers)|)
      ensures |old(takers)| < |accepted| && job == accepted[|old(takers)|]
    {
      ghost var p := View();
      Good(p, Worker(i), Plain);
      TakenInOrder(p, i);
      job := jobs[0];
      jobs := jobs[1..];
      Note(Step(p, Worker(i), Plain));
      assert View() == Step(p, Worker(i), Plain);
    }

    /** if (stop) throw */
    method TestStop(ghost i: nat) returns (refused: bool)
      requires Valid() && i < |s| && s[i].SubmitTest?
      modifies `w, `s, `d, `accepted, `takers, `done
      ensures Stepped(Submitter(i), Plain) && refused == stop && (refused <==> s[i].Reject?)
    {
      ghost var p := View();
      Good(p, Submitter(i), Plain);
      refused := stop;
      Note(Step(p, Submitter(i), Plain));
      assert View() == Step(p, Submitter(i), Plain);
    }

    /** jobs.push(f) */
    method PushJob(ghost i: nat, j: Job)
      requires Valid() && i < |s| && s[i] == Push(j)
      modifies this
      ensures Stepped(Submitter(i), Plain) && accepted == old(accepted) + [j] && jobs == old(jobs) + [j] && !stop
    {
      ghost var p := View();
      Good(p, Submitter(i), Plain);
      jobs := jobs + [j];
      Note(Step(p, Submitter(i), Plain));
      assert View() == Step(p, Submitter(i), Plain);
    }

    /** stop = true */
    method SetStop()
      requires Valid() && d.SetStop?
      modifies this
      ensures Stepped(Owner, Plain) && stop
    {
      ghost var p := View();
      Good(p, Owner, Plain);
      stop := true;
      Note(Step(p, Owner, Plain));
      assert View() == Step(p, Owner, Plain);
    }
  }
}
