/** Every handler of the system is a sequence of early returns: check a
    condition, and if it fails return its error at once. `Guard` is one such
    check and `FirstFailure` runs a sequence of them in order. */
module Guards {
  import opened Text

  /** A check that passes when `ok`, and otherwise ends the call with `failure`. */
  datatype Guard<+E> = Guard(ok: bool, failure: E)

  /** All checks pass. */
  predicate AllPass<E>(gs: seq<Guard<E>>) {
    forall i :: 0 <= i < |gs| ==> gs[i].ok
  }

  /** Check `i` is the first that fails. */
  predicate FirstFailsAt<E>(gs: seq<Guard<E>>, i: int) {
    0 <= i < |gs| && !gs[i].ok && forall j :: 0 <= j < i ==> gs[j].ok
  }

  /** The error of the first failing check, or `None` when all pass. */
  function FirstFailure<E>(gs: seq<Guard<E>>): (r: Option<E>)
    ensures r.None? <==> AllPass(gs)
    ensures r.Some? ==> exists i :: FirstFailsAt(gs, i) && r.value == gs[i].failure
  {
    if gs == [] then None
    else if !gs[0].ok then
      assert FirstFailsAt(gs, 0);
      Some(gs[0].failure)
    else
      var r := FirstFailure(gs[1..]);
      FirstFailsAfterPass(gs, r);
      r
  }

  /** A first failure among the checks after a passing one is the first failure overall. */
  lemma FirstFailsAfterPass<E>(gs: seq<Guard<E>>, r: Option<E>)
    requires gs != [] && gs[0].ok
    requires r.Some? ==> exists i :: FirstFailsAt(gs[1..], i) && r.value == gs[1..][i].failure
    ensures r.Some? ==> exists i :: FirstFailsAt(gs, i) && r.value == gs[i].failure
  {
    if r.Some? {
      var i :| FirstFailsAt(gs[1..], i) && r.value == gs[1..][i].failure;
      assert FirstFailsAt(gs, i + 1);
    }
  }

  /** The first failing check decides the result, whatever the checks after it say. */
  lemma {:induction false} FirstFailureAt<E>(gs: seq<Guard<E>>, i: int)
    requires FirstFailsAt(gs, i)
    ensures FirstFailure(gs) == Some(gs[i].failure)
    decreases i
  {
    if i > 0 {
      assert gs[0].ok;
      assert FirstFailsAt(gs[1..], i - 1);
      FirstFailureAt(gs[1..], i - 1);
    }
  }

  /** Checks placed after a sequence that already fails are never consulted. */
  lemma {:induction false} FirstFailurePrefix<E>(gs: seq<Guard<E>>, more: seq<Guard<E>>)
    requires !AllPass(gs)
    ensures FirstFailure(gs + more) == FirstFailure(gs)
  {
    var r := FirstFailure(gs);
    var i :| FirstFailsAt(gs, i) && r.value == gs[i].failure;
    assert FirstFailsAt(gs + more, i);
    FirstFailureAt(gs + more, i);
  }
}
