/** Option and Result: a C# reference that may be null, and a call that may throw. */
module Wrappers {

  /** A value that may be absent (a null reference in the modelled code). */
  datatype Option<+T> = None | Some(value: T)

  /** Either a returned value or the exception that escaped instead. */
  datatype Result<+T, +E> = Success(value: T) | Failure(error: E)

  /** The values of a sequence of results, in order, or the first failure
      among them: a loop that stops at the first exception. */
  function Collect<T, E>(rs: seq<Result<T, E>>): Result<seq<T>, E>
    decreases |rs|
  {
    if rs == [] then Success([])
    else match Collect(rs[..|rs| - 1])
      case Failure(e) => Failure(e)
      case Success(vs) =>
        match rs[|rs| - 1]
        case Failure(e) => Failure(e)
        case Success(v) => Success(vs + [v])
  }

  /** Collect succeeds exactly when every result does, and then keeps each value in place. */
  lemma {:induction false} CollectPerElement<T, E>(rs: seq<Result<T, E>>)
    ensures Collect(rs).Success? <==> forall i :: 0 <= i < |rs| ==> rs[i].Success?
    ensures Collect(rs).Success? ==>
      |Collect(rs).value| == |rs| && forall i :: 0 <= i < |rs| ==> Collect(rs).value[i] == rs[i].value
    decreases |rs|
  {
    if rs != [] {
      var n := |rs| - 1;
      var shorter := rs[..n];
      CollectPerElement(shorter);
      assert forall i :: 0 <= i < n ==> shorter[i] == rs[i];
    }
  }

  /** A successful Collect keeps one value per result. */
  lemma {:induction false} CollectLength<T, E>(rs: seq<Result<T, E>>)
    requires Collect(rs).Success?
    ensures |Collect(rs).value| == |rs|
    decreases |rs|
  {
    if rs != [] {
      CollectLength(rs[..|rs| - 1]);
    }
  }

  /** Result i of a successful Collect succeeded, and its value is value i. */
  lemma CollectAt<T, E>(rs: seq<Result<T, E>>, i: int)
    requires Collect(rs).Success? && 0 <= i < |rs|
    ensures rs[i].Success? && |Collect(rs).value| == |rs| && Collect(rs).value[i] == rs[i].value
  {
    CollectPerElement(rs);
  }

  /** One more successful result extends the collected values by one. */
  lemma CollectStep<T, E>(rs: seq<Result<T, E>>, i: nat)
    requires i < |rs|
    requires Collect(rs[..i]).Success? && rs[i].Success?
    ensures Collect(rs[..i + 1]) == Success(Collect(rs[..i]).value + [rs[i].value])
  {
    assert rs[..i + 1][..i] == rs[..i];
  }

  /** A failure after a successful prefix is the failure of the whole. */
  lemma {:induction false} CollectStopsAtFailure<T, E>(rs: seq<Result<T, E>>, k: nat)
    requires k < |rs|
    requires Collect(rs[..k]).Success? && rs[k].Failure?
    ensures Collect(rs) == Failure(rs[k].error)
    decreases |rs|
  {
    if |rs| == k + 1 {
      assert rs[..|rs| - 1] == rs[..k];
    } else {
      var shorter := rs[..|rs| - 1];
      assert shorter[..k] == rs[..k];
      CollectStopsAtFailure(shorter, k);
    }
  }

  /** A failed Collect fails with the first failing result, after a successful prefix. */
  lemma {:induction false} CollectFirstFailure<T, E>(rs: seq<Result<T, E>>)
    requires Collect(rs).Failure?
    ensures exists k :: 0 <= k < |rs| && Collect(rs[..k]).Success? && rs[k].Failure? && Collect(rs).error == rs[k].error
    decreases |rs|
  {
    var n := |rs| - 1;
    var shorter := rs[..n];
    if Collect(shorter).Failure? {
      CollectFirstFailure(shorter);
      var k :| 0 <= k < |shorter| && Collect(shorter[..k]).Success? && shorter[k].Failure? && Collect(shorter).error == shorter[k].error;
      assert shorter[..k] == rs[..k];
    } else {
      assert Collect(rs[..n]).Success? && rs[n].Failure?;
    }
  }

  /** The same, stated on the results alone: all results before k succeed,
      result k fails, and its error is the error of the whole. */
  lemma CollectFailsAtFirstFailure<T, E>(rs: seq<Result<T, E>>)
    requires Collect(rs).Failure?
    ensures exists k :: (0 <= k < |rs| && (forall j :: 0 <= j < k ==> rs[j].Success?)
      && rs[k].Failure? && Collect(rs) == Failure(rs[k].error))
  {
    CollectFirstFailure(rs);
    var k :| 0 <= k < |rs| && Collect(rs[..k]).Success? && rs[k].Failure? && Collect(rs).error == rs[k].error;
    CollectPerElement(rs[..k]);
    assert forall j :: 0 <= j < k ==> rs[..k][j] == rs[j];
  }

  /** The three parts of a + b + c, and where b's elements sit. */
  lemma ConcatParts<T>(a: seq<T>, b: seq<T>, c: seq<T>)
    ensures (a + b + c)[..|a|] == a
    ensures (a + b + c)[|a| + |b|..] == c
    ensures forall i :: 0 <= i < |b| ==> (a + b + c)[|a| + i] == b[i]
  {
    var s := a + b + c;
    assert s[..|a|] == a;
    assert s[|a| + |b|..] == c;
  }
}
