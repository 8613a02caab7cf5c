/** The exceptions the modelled Python code raises, and the result type that
    carries them in place of raising. */
module Outcomes {

  /** The Python exception kinds that the modelled code can raise. */
  datatype Exception =
    | MemoryError                     // combine: the product set is too large
    | ValueError                      // numpy.reshape / axis errors
    | IndexError                      // indexing past the end of a list or array
    | TypeError                       // int() of an array with more than one element
    | AssertionError                  // a failed `assert` in the source
    | StochasticallyDependentError    // Dist.cdf on dependent components
    | DependencyError                 // quad_leja on dependent components

  datatype Result<+T> = Ok(value: T) | Err(error: Exception)

  datatype Option<+T> = None | Some(value: T)

  /** Evaluates a list comprehension whose items may raise: the first error
      wins, otherwise the list of values. */
  function AllOk<T>(rs: seq<Result<T>>): (r: Result<seq<T>>)
    ensures r.Ok? <==> forall i :: 0 <= i < |rs| ==> rs[i].Ok?
    ensures r.Ok? ==> |r.value| == |rs| && forall i :: 0 <= i < |rs| ==> r.value[i] == rs[i].value
  {
    if |rs| == 0 then Ok([])
    else
      match AllOk(rs[..|rs| - 1])
      case Err(e) => Err(e)
      case Ok(vs) =>
        if rs[|rs| - 1].Err? then Err(rs[|rs| - 1].error) else Ok(vs + [rs[|rs| - 1].value])
  }

  /** Once a prefix of the comprehension has raised, so has the whole. */
  lemma {:induction false} AllOkKeepsError<T>(rs: seq<Result<T>>, k: nat)
    requires k <= |rs| && AllOk(rs[..k]).Err?
    ensures AllOk(rs) == AllOk(rs[..k])
    decreases |rs| - k
  {
    if k < |rs| {
      assert rs[..k + 1][..k] == rs[..k];
      assert AllOk(rs[..k + 1]) == AllOk(rs[..k]);
      AllOkKeepsError(rs, k + 1);
    } else {
      assert rs[..k] == rs;
    }
  }

  /** One more item that does not raise extends the list of values. */
  lemma AllOkStep<T>(rs: seq<Result<T>>, k: nat, vs: seq<T>)
    requires k < |rs| && AllOk(rs[..k]) == Ok(vs) && rs[k].Ok?
    ensures AllOk(rs[..k + 1]) == Ok(vs + [rs[k].value])
  {
    assert rs[..k + 1][..k] == rs[..k];
  }

  /** The first item that raises decides the error of the whole list. */
  lemma AllOkFirstError<T>(rs: seq<Result<T>>, k: nat)
    requires k < |rs| && AllOk(rs[..k]).Ok? && rs[k].Err?
    ensures AllOk(rs) == Err(rs[k].error)
  {
    assert rs[..k + 1][..k] == rs[..k];
    AllOkKeepsError(rs, k + 1);
  }
}
