/** Runs of a step system, and the two inductions every protocol module uses on them. */
module Runs {

  /** A nonempty sequence of states in which every state is one step after the previous one. */
  ghost predicate IsRun<S(!new)>(next: (S, S) -> bool, run: seq<S>) {
    |run| > 0 && forall i :: 0 <= i < |run| - 1 ==> next(run[i], run[i + 1])
  }

  /** What holds at the start and is kept by every step holds in every state of the run. */
  lemma {:induction false} Invariant<S(!new)>(next: (S, S) -> bool, inv: S -> bool, run: seq<S>)
    requires IsRun(next, run) && inv(run[0])
    requires forall s, t :: inv(s) && next(s, t) ==> inv(t)
    ensures forall i :: 0 <= i < |run| ==> inv(run[i])
  {
    var n := 1;
    while n < |run|
      invariant 1 <= n <= |run|
      invariant forall i :: 0 <= i < n ==> inv(run[i])
    {
      assert next(run[n - 1], run[n - 1 + 1]);
      n := n + 1;
    }
  }

  /** A preorder that every step from an invariant state respects orders the whole run. */
  lemma {:induction false} Ordered<S(!new)>(next: (S, S) -> bool, inv: S -> bool, le: (S, S) -> bool,
                                            run: seq<S>, i: nat, j: nat)
    requires IsRun(next, run) && inv(run[0])
    requires forall s, t :: inv(s) && next(s, t) ==> inv(t) && le(s, t)
    requires forall s :: le(s, s)
    requires forall s, t, u :: le(s, t) && le(t, u) ==> le(s, u)
    requires i <= j < |run|
    ensures le(run[i], run[j])
  {
    Invariant(next, inv, run);
    var n := i;
    while n < j
      invariant i <= n <= j && le(run[i], run[n])
    {
      assert next(run[n], run[n + 1]);
      n := n + 1;
    }
  }

  /** What holds somewhere in the run and is kept by every step from an invariant state holds from there on. */
  lemma {:induction false} Onward<S(!new)>(next: (S, S) -> bool, inv: S -> bool, since: S -> bool, run: seq<S>, i: nat, j: nat)
    requires IsRun(next, run) && inv(run[0]) && i <= j < |run| && since(run[i])
    requires forall s, t :: inv(s) && next(s, t) ==> inv(t)
    requires forall s, t :: inv(s) && since(s) && next(s, t) ==> since(t)
    ensures since(run[j])
  {
    Invariant(next, inv, run);
    var n := i;
    while n < j
      invariant i <= n <= j && since(run[n])
    {
      assert next(run[n], run[n + 1]);
      n := n + 1;
    }
  }

  /** A run whose every step uses up work is no longer than the work it starts with. */
  lemma {:induction false} WorkBounds<S(!new)>(next: (S, S) -> bool, inv: S -> bool, work: S -> nat, run: seq<S>)
    requires IsRun(next, run) && inv(run[0])
    requires forall s, t :: inv(s) && next(s, t) ==> inv(t) && work(t) < work(s)
    ensures |run| - 1 + work(run[|run| - 1]) <= work(run[0]) && inv(run[|run| - 1])
  {
    Invariant(next, inv, run);
    var n := 0;
    while n < |run| - 1
      invariant 0 <= n <= |run| - 1 && n + work(run[n]) <= work(run[0])
    {
      assert next(run[n], run[n + 1]);
      n := n + 1;
    }
  }

  /** The last state of some run from an initial state. */
  ghost predicate Reachable<S(!new)>(init: S -> bool, next: (S, S) -> bool, s: S) {
    exists run :: IsRun(next, run) && init(run[0]) && run[|run| - 1] == s
  }

  /** An inductive invariant holds in every reachable state. */
  lemma InEveryReachable<S(!new)>(init: S -> bool, next: (S, S) -> bool, inv: S -> bool, s: S)
    requires Reachable(init, next, s)
    requires forall t :: init(t) ==> inv(t)
    requires forall t, u :: inv(t) && next(t, u) ==> inv(u)
    ensures inv(s)
  {
    var run :| IsRun(next, run) && init(run[0]) && run[|run| - 1] == s;
    Invariant(next, inv, run);
  }

  lemma ReachStart<S(!new)>(init: S -> bool, next: (S, S) -> bool, s: S)
    requires init(s)
    ensures Reachable(init, next, s)
  {
    assert IsRun(next, [s]);
  }

  lemma ReachStep<S(!new)>(init: S -> bool, next: (S, S) -> bool, s: S, t: S)
    requires Reachable(init, next, s) && next(s, t)
    ensures Reachable(init, next, t)
  {
    var run :| IsRun(next, run) && init(run[0]) && run[|run| - 1] == s;
    var longer := run + [t];
    assert IsRun(next, longer) && longer[|longer| - 1] == t;
  }

  /** What some steps reach, more steps reach too. */
  lemma ReachMore<S(!new)>(init: S -> bool, few: (S, S) -> bool, more: (S, S) -> bool, s: S)
    requires Reachable(init, few, s) && forall t, u :: few(t, u) ==> more(t, u)
    ensures Reachable(init, more, s)
  {
    var run :| IsRun(few, run) && init(run[0]) && run[|run| - 1] == s;
    assert IsRun(more, run);
  }
}
