/**
 * The two error policies of the tool, stated over the outcomes of a sequence of steps
 * (`None` for a step that returned nil, `Some(e)` for one that returned `e`):
 * fail-fast, which stops at the first error and returns it, and fail-soft, which runs
 * every step, logs every error and returns nil. The manifest loaders and the deploy
 * command follow the first; the combined remove command follows the second.
 */
module Sequencing {
  import opened Wrappers

  /** The error a fail-fast run of steps with these outcomes returns: the first one, or nil. */
  function FirstError(rs: seq<Option<Error>>): Option<Error>
  {
    if rs == [] then None
    else if rs[0].Some? then rs[0]
    else FirstError(rs[1..])
  }

  /** How many steps a fail-fast run attempts: every step up to and including the first that fails. */
  function Attempts(rs: seq<Option<Error>>): (n: nat)
    ensures n <= |rs|
    ensures rs != [] ==> 0 < n
  {
    if rs == [] then 0
    else if rs[0].Some? then 1
    else 1 + Attempts(rs[1..])
  }

  /** The errors a fail-soft run logs: that of every failing step, in the order of the steps. */
  function Failures(rs: seq<Option<Error>>): seq<Error>
  {
    if rs == [] then []
    else (if rs[0].Some? then [rs[0].value] else []) + Failures(rs[1..])
  }

  /** A fail-fast run of `a` followed by `b` returns the first error of `a`, or else that of `b`. */
  lemma {:induction false} FirstErrorAppend(a: seq<Option<Error>>, b: seq<Option<Error>>)
    ensures FirstError(a + b) == if FirstError(a).Some? then FirstError(a) else FirstError(b)
  {
    if a == [] {
      assert a + b == b;
    } else {
      assert (a + b)[0] == a[0];
      assert (a + b)[1..] == a[1..] + b;
      FirstErrorAppend(a[1..], b);
    }
  }

  /** A fail-fast and a fail-soft run of three steps, spelled out. */
  lemma OutcomesOfThree(x: Option<Error>, y: Option<Error>, z: Option<Error>)
    ensures FirstError([x, y, z]) == if x.Some? then x else if y.Some? then y else z
    ensures Attempts([x, y, z]) == if x.Some? then 1 else if y.Some? then 2 else 3
    ensures Failures([x, y, z])
            == (if x.Some? then [x.value] else []) + (if y.Some? then [y.value] else [])
               + (if z.Some? then [z.value] else [])
  {
    assert [z][1..] == [];
    assert FirstError([z]) == z && Attempts([z]) == 1;
    assert Failures([z]) == if z.Some? then [z.value] else [];
    assert [y, z][1..] == [z];
    assert [x, y, z][1..] == [y, z];
  }

  /**
   * Fail-fast: the run returns nil exactly when no step fails, and then attempts them all;
   * otherwise the last step it attempts is the first that fails, its error is the one
   * returned, and every step before it succeeded.
   */
  lemma {:induction false} FailFastStopsAtFirstError(rs: seq<Option<Error>>)
    ensures FirstError(rs).None? <==> (forall i | 0 <= i < |rs| :: rs[i].None?)
    ensures FirstError(rs).None? ==> Attempts(rs) == |rs|
    ensures FirstError(rs).Some? ==> 0 < Attempts(rs) && rs[Attempts(rs) - 1] == FirstError(rs)
    ensures forall i | 0 <= i < Attempts(rs) - 1 :: rs[i].None?
  {
    if rs != [] && rs[0].None? {
      var tail := rs[1..];
      FailFastStopsAtFirstError(tail);
      assert forall i | 1 <= i < |rs| :: rs[i] == tail[i - 1];
    }
  }

  /**
   * Fail-soft: an error is logged exactly when some step returned it, at most one error is
   * logged per step, every step is logged exactly when every step fails, and nothing is
   * logged exactly when the fail-fast run of the same steps would have returned nil.
   */
  lemma {:induction false} FailSoftLogsEveryError(rs: seq<Option<Error>>)
    ensures |Failures(rs)| <= |rs|
    ensures forall e :: e in Failures(rs) <==> Some(e) in rs
    ensures |Failures(rs)| == |rs| <==> (forall i | 0 <= i < |rs| :: rs[i].Some?)
    ensures Failures(rs) == [] <==> FirstError(rs).None?
  {
    if rs != [] {
      var tail := rs[1..];
      FailSoftLogsEveryError(tail);
      assert rs == [rs[0]] + tail;
      assert forall i | 1 <= i < |rs| :: rs[i] == tail[i - 1];
      if |Failures(rs)| == |rs| {
        assert rs[0].Some?;
        assert |Failures(tail)| == |tail|;
      }
    }
  }
}
