/** Repeating a step that may fail to return. */
module Iteration {
  import opened Wrappers

  /** The state after n steps and what each of them returned, or None if one does not return. */
  ghost function Iterate<S, R>(step: S -> Option<(S, R)>, s: S, n: nat): (r: Option<(S, seq<R>)>)
    ensures r.Some? ==> |r.value.1| == n
    decreases n
  {
    if n == 0 then Some((s, []))
    else
      match step(s)
      case None => None
      case Some((s', r)) => Prepend(r, Iterate(step, s', n - 1))
  }

  ghost function Prepend<S, R>(r: R, rest: Option<(S, seq<R>)>): Option<(S, seq<R>)> {
    match rest
    case None => None
    case Some((t, rs)) => Some((t, [r] + rs))
  }

  /** n more steps after a run. */
  ghost function Continue<S, R>(step: S -> Option<(S, R)>, run: Option<(S, seq<R>)>, n: nat): Option<(S, seq<R>)> {
    match run
    case None => None
    case Some((t, rs)) =>
      match Iterate(step, t, n)
      case None => None
      case Some((u, qs)) => Some((u, rs + qs))
  }

  lemma ContinuePrepend<S, R>(step: S -> Option<(S, R)>, r: R, run: Option<(S, seq<R>)>, n: nat)
    ensures Continue(step, Prepend(r, run), n) == Prepend(r, Continue(step, run, n))
  {
    match run
    case None =>
    case Some((t, rs)) =>
      match Iterate(step, t, n)
      case None =>
      case Some((u, qs)) =>
        assert [r] + rs + qs == [r] + (rs + qs);
  }

  /** a + n steps are a steps and then n. */
  lemma {:induction false} IterateSplit<S, R>(step: S -> Option<(S, R)>, s: S, a: nat, n: nat)
    ensures Iterate(step, s, a + n) == Continue(step, Iterate(step, s, a), n)
    decreases a
  {
    if a == 0 {
      var run := Iterate(step, s, n);
      assert run.Some? ==> [] + run.value.1 == run.value.1;
    } else if step(s).Some? {
      var (s', r) := step(s).value;
      IterateSplit(step, s', a - 1, n);
      ContinuePrepend(step, r, Iterate(step, s', a - 1), n);
    }
  }
}
