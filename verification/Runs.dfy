/** Runs of a state machine: what is kept by every step holds in every state, and a machine whose
    every step is a step of another, seen through an abstraction, has only the other's runs. */
module Runs {
  import opened Memory

  ghost predicate IsRun<S(!new)>(r: seq<S>, init: S -> bool, next: (S, S) -> bool) {
    && |r| > 0 && init(r[0])
    && forall i, j {:trigger next(r[i], r[j])} :: 0 <= i && j == i + 1 < |r| ==> next(r[i], r[j])
  }

  ghost predicate Reached<S(!new)>(s: S, init: S -> bool, next: (S, S) -> bool) {
    exists r :: IsRun(r, init, next) && r[|r| - 1] == s
  }

  lemma StepAt<S(!new)>(r: seq<S>, init: S -> bool, next: (S, S) -> bool, k: nat)
    requires IsRun(r, init, next) && k + 1 < |r|
    ensures next(r[k], r[k + 1])
  {
  }

  lemma {:induction false} Always<S(!new)>(r: seq<S>, init: S -> bool, next: (S, S) -> bool, inv: S -> bool, n: nat)
    requires IsRun(r, init, next) && n < |r|
    requires forall s :: init(s) ==> inv(s)
    requires forall s, s' :: inv(s) && next(s, s') ==> inv(s')
    ensures inv(r[n])
  {
    if n > 0 {
      Always(r, init, next, inv, n - 1);
      StepAt(r, init, next, n - 1);
    }
  }

  lemma Reaches<S(!new)>(s: S, s': S, init: S -> bool, next: (S, S) -> bool)
    requires Reached(s, init, next) && next(s, s')
    ensures Reached(s', init, next)
  {
    var r :| IsRun(r, init, next) && r[|r| - 1] == s;
    var r' := r + [s'];
    forall i, j | 0 <= i && j == i + 1 < |r'|
      ensures next(r'[i], r'[j])
    {
      if j < |r| {
        StepAt(r, init, next, i);
      }
    }
    assert IsRun(r', init, next);
  }

  // Runs with their events.

  /** A run, and what happened in each of its steps. */
  ghost predicate IsLog<S(!new), E(!new)>(r: seq<S>, es: seq<E>, init: S -> bool, happens: (S, E, S) -> bool) {
    && |r| == |es| + 1 && init(r[0])
    && forall i, j {:trigger happens(r[i], es[i], r[j])} :: 0 <= i && j == i + 1 < |r| ==> happens(r[i], es[i], r[j])
  }

  lemma EventAt<S(!new), E(!new)>(r: seq<S>, es: seq<E>, init: S -> bool, happens: (S, E, S) -> bool, k: nat)
    requires IsLog(r, es, init, happens) && k < |es|
    ensures happens(r[k], es[k], r[k + 1])
  {
  }

  lemma ShorterLog<S(!new), E(!new)>(r: seq<S>, es: seq<E>, init: S -> bool, happens: (S, E, S) -> bool)
    requires IsLog(r, es, init, happens) && es != []
    ensures IsLog(r[..|es|], es[..|es| - 1], init, happens)
  {
    var r', es' := r[..|es|], es[..|es| - 1];
    forall i, j | 0 <= i && j == i + 1 < |r'|
      ensures happens(r'[i], es'[i], r'[j])
    {
      EventAt(r, es, init, happens, i);
    }
  }

  lemma LogIsRun<S(!new), E(!new)>(r: seq<S>, es: seq<E>, init: S -> bool, next: (S, S) -> bool, happens: (S, E, S) -> bool)
    requires IsLog(r, es, init, happens)
    requires forall s, e, s' :: happens(s, e, s') ==> next(s, s')
    ensures IsRun(r, init, next)
  {
    forall i, j | 0 <= i && j == i + 1 < |r|
      ensures next(r[i], r[j])
    {
      EventAt(r, es, init, happens, i);
    }
  }

  /** Every run has its events. */
  lemma {:induction false} RunHasLog<S(!new), E(!new)>(r: seq<S>, init: S -> bool, next: (S, S) -> bool,
                                                       happens: (S, E, S) -> bool) returns (es: seq<E>)
    requires IsRun(r, init, next)
    requires forall s, s' :: next(s, s') ==> exists e :: happens(s, e, s')
    ensures IsLog(r, es, init, happens)
  {
    var n := |r| - 1;
    if n == 0 {
      es := [];
    } else {
      Shorter(r, init, next);
      var es0 := RunHasLog(r[..n], init, next, happens);
      StepAt(r, init, next, n - 1);
      var e :| happens(r[n - 1], e, r[n]);
      es := es0 + [e];
      forall i, j | 0 <= i && j == i + 1 < |r|
        ensures happens(r[i], es[i], r[j])
      {
        if j < n {
          EventAt(r[..n], es0, init, happens, i);
        }
      }
    }
  }

  /** The argument of the last event that has one. */
  function LastArgument<E, V>(es: seq<E>, arg: E -> Option<V>): Option<V> {
    if es == [] then None
    else if arg(es[|es| - 1]).Some? then arg(es[|es| - 1])
    else LastArgument(es[..|es| - 1], arg)
  }

  /** What is carried from step to step, and taken up only from an argument, is the last argument. */
  lemma {:induction false} CarriesLast<S(!new), E(!new), V>(r: seq<S>, es: seq<E>, init: S -> bool,
                                                            happens: (S, E, S) -> bool,
                                                            carried: S -> Option<V>, arg: E -> Option<V>)
    requires IsLog(r, es, init, happens)
    requires forall s :: init(s) ==> carried(s) == None
    requires forall s, e, s' :: happens(s, e, s') && carried(s').Some? ==>
      carried(s') == if arg(e).Some? then arg(e) else carried(s)
    ensures carried(r[|es|]).Some? ==> LastArgument(es, arg) == carried(r[|es|])
  {
    if es != [] {
      var n := |es|;
      ShorterLog(r, es, init, happens);
      CarriesLast(r[..n], es[..n - 1], init, happens, carried, arg);
      EventAt(r, es, init, happens, n - 1);
    }
  }

  /** The observer reads v in all states from k to n. */
  ghost predicate Throughout<S, V>(r: seq<S>, observe: S -> V, v: V, k: nat, n: nat) {
    n < |r| && forall i :: k <= i <= n ==> observe(r[i]) == v
  }

  /** What a thread newly expects of a cell is what the cell holds. */
  ghost predicate Loads<S, V>(s: S, s': S, cell: S -> V, expects: S -> Option<V>) {
    expects(s') == None || expects(s') == expects(s) || expects(s') == Some(cell(s'))
  }

  /** A thread that expects a value other than the one in the cell, having loaded what it expects
      from the cell, has expected it since before some step that changed the cell. */
  lemma {:induction false} Overtaken<S, V>(r: seq<S>, cell: S -> V, expects: S -> Option<V>, x: V, n: nat)
    requires n < |r| && expects(r[n]) == Some(x) && cell(r[n]) != x && expects(r[0]) == None
    requires forall i, j {:trigger Loads(r[i], r[j], cell, expects)} ::
      0 <= i && j == i + 1 <= n ==> Loads(r[i], r[j], cell, expects)
    ensures exists k: nat :: k < n && cell(r[k]) != cell(r[k + 1]) && Throughout(r, expects, Some(x), k, n)
  {
    assert Loads(r[n - 1], r[n], cell, expects);
    if cell(r[n - 1]) == cell(r[n]) {
      Overtaken(r, cell, expects, x, n - 1);
      var k: nat :| k < n - 1 && cell(r[k]) != cell(r[k + 1]) && Throughout(r, expects, Some(x), k, n - 1);
      assert Throughout(r, expects, Some(x), k, n);
    } else {
      assert Throughout(r, expects, Some(x), n - 1, n) && r[n - 1 + 1] == r[n];
    }
  }

  // Ranks and outcomes.

  /** A run whose every step lowers a rank has no more steps than the rank at its start. */
  lemma {:induction false} Descent<S(!new)>(r: seq<S>, inv: S -> bool, step: (S, S) -> bool, rank: S -> nat)
    requires IsRun(r, inv, step)
    requires forall s, s' :: inv(s) && step(s, s') ==> inv(s') && rank(s') < rank(s)
    ensures inv(r[|r| - 1]) && |r| - 1 + rank(r[|r| - 1]) <= rank(r[0])
  {
    var n := |r| - 1;
    if n > 0 {
      Shorter(r, inv, step);
      Descent(r[..n], inv, step, rank);
      StepAt(r, inv, step, n - 1);
    }
  }

  lemma Shorter<S(!new)>(r: seq<S>, init: S -> bool, next: (S, S) -> bool)
    requires IsRun(r, init, next) && |r| > 1
    ensures IsRun(r[..|r| - 1], init, next)
  {
    var r' := r[..|r| - 1];
    forall i, j | 0 <= i && j == i + 1 < |r'|
      ensures next(r'[i], r'[j])
    {
      StepAt(r, init, next, i);
    }
  }

  /** What every step keeps is at the end what it was at the start. */
  lemma {:induction false} Foretold<S(!new), V>(r: seq<S>, inv: S -> bool, step: (S, S) -> bool, outcome: S -> V)
    requires IsRun(r, inv, step)
    requires forall s, s' :: inv(s) && step(s, s') ==> inv(s') && outcome(s') == outcome(s)
    ensures inv(r[|r| - 1]) && outcome(r[|r| - 1]) == outcome(r[0])
  {
    var n := |r| - 1;
    if n > 0 {
      Shorter(r, inv, step);
      Foretold(r[..n], inv, step, outcome);
      StepAt(r, inv, step, n - 1);
    }
  }

  /** What an observer sees of a run. */
  function Trace<S, A>(r: seq<S>, view: S -> A): (h: seq<A>)
    ensures |h| == |r| && forall i :: 0 <= i < |r| ==> h[i] == view(r[i])
  {
    seq(|r|, i requires 0 <= i < |r| => view(r[i]))
  }

  lemma Simulates<S(!new), A(!new)>(r: seq<S>, init: S -> bool, next: (S, S) -> bool, inv: S -> bool,
                                    view: S -> A, start: A -> bool, step: (A, A) -> bool)
    requires IsRun(r, init, next)
    requires forall s :: init(s) ==> inv(s) && start(view(s))
    requires forall s, s' :: inv(s) && next(s, s') ==> inv(s') && step(view(s), view(s'))
    ensures IsRun(Trace(r, view), start, step)
  {
    var h := Trace(r, view);
    forall i, j | 0 <= i && j == i + 1 < |h|
      ensures step(h[i], h[j])
    {
      Always(r, init, next, inv, i);
      StepAt(r, init, next, i);
    }
  }
}
