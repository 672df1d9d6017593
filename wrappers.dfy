/** Option and Result values used for missing data and for the scripts' aborts. */
module Wrappers {

  /** A value that may be missing (a NaN in the source's arrays). */
  datatype Option<+T> = None | Some(value: T) {
    function GetOr(default: T): T {
      match this
      case Some(v) => v
      case None => default
    }
  }

  /** The outcome of a step that can abort the whole script with a message. */
  datatype Result<+T> = Ok(value: T) | Err(msg: string) {
    predicate IsFailure() { Err? }
    function PropagateFailure<U>(): Result<U>
      requires Err?
    {
      Err(msg)
    }
    function Extract(): T
      requires Ok?
    {
      value
    }
  }

  /** The values of a sequence of results, or the first error in it. */
  function AllOk<T>(rs: seq<Result<T>>): (r: Result<seq<T>>)
    ensures r.Ok? <==> forall i :: 0 <= i < |rs| ==> rs[i].Ok?
    ensures r.Ok? ==> |r.value| == |rs| && forall i :: 0 <= i < |rs| ==> rs[i] == Ok(r.value[i])
  {
    if rs == [] then Ok([])
    else if rs[0].Err? then Err(rs[0].msg)
    else
      var rest := AllOk(rs[1..]);
      assert forall i :: 1 <= i < |rs| ==> rs[1..][i - 1] == rs[i];
      if rest.Err? then rest else Ok([rs[0].value] + rest.value)
  }

  /** The error reported is the first one. */
  lemma {:induction false} AllOkFirstErr<T>(rs: seq<Result<T>>, i: int)
    requires 0 <= i < |rs| && rs[i].Err? && forall k :: 0 <= k < i ==> rs[k].Ok?
    ensures AllOk(rs) == Err(rs[i].msg)
  {
    if i > 0 {
      assert forall k :: 0 <= k < i - 1 ==> rs[1..][k] == rs[k + 1];
      AllOkFirstErr(rs[1..], i - 1);
    }
  }

  /** One more success extends a prefix of successes. */
  lemma OkPrefixGrows<T>(rs: seq<Result<T>>, vs: seq<T>, v: T)
    requires |vs| < |rs| && rs[|vs|] == Ok(v)
    requires forall k :: 0 <= k < |vs| ==> rs[k] == Ok(vs[k])
    ensures forall k :: 0 <= k < |vs| + 1 ==> rs[k] == Ok((vs + [v])[k])
  {
  }

  /** A sequence of successes collects to its values. */
  lemma AllOkOfValues<T>(rs: seq<Result<T>>, vs: seq<T>)
    requires |rs| == |vs| && forall i :: 0 <= i < |rs| ==> rs[i] == Ok(vs[i])
    ensures AllOk(rs) == Ok(vs)
  {
    var r := AllOk(rs);
    assert r.Ok?;
    assert |r.value| == |vs|;
    assert forall i :: 0 <= i < |vs| ==> r.value[i] == vs[i];
    assert r.value == vs;
  }
}
