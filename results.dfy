/** Option and Result: the optional values and the thrown errors of the backup tool. */
module Results {

  datatype Option<+T> = None | Some(value: T) {
    function GetOr(default: T): T {
      match this
      case Some(v) => v
      case None => default
    }
  }

  /** A JavaScript call that either returns a value or throws (a rejected promise). */
  datatype Result<+T, +E> = Ok(value: T) | Err(error: E)

  /** `f` applied to each element in order, stopping at the first error
      (a `for ... of` loop whose body may throw). */
  function MapAll<A, B, E>(f: A -> Result<B, E>, xs: seq<A>): (r: Result<seq<B>, E>)
    ensures r.Ok? ==> |r.value| == |xs|
  {
    if xs == [] then Ok([])
    else
      match MapAll(f, xs[..|xs| - 1])
      case Err(e) => Err(e)
      case Ok(ys) =>
        match f(xs[|xs| - 1])
        case Err(e) => Err(e)
        case Ok(y) => Ok(ys + [y])
  }

  /** The loop succeeds iff every element does, and then yields their results in order;
      otherwise its error is that of the first element that fails. */
  lemma {:induction false} MapAllMeaning<A, B, E>(f: A -> Result<B, E>, xs: seq<A>)
    ensures MapAll(f, xs).Ok? <==> forall i :: 0 <= i < |xs| ==> f(xs[i]).Ok?
    ensures MapAll(f, xs).Ok? ==> forall i :: 0 <= i < |xs| ==> MapAll(f, xs).value[i] == f(xs[i]).value
    ensures MapAll(f, xs).Err? ==>
              exists j :: 0 <= j < |xs| && f(xs[j]) == Err(MapAll(f, xs).error)
                          && forall i :: 0 <= i < j ==> f(xs[i]).Ok?
  {
    if xs != [] {
      var p := xs[..|xs| - 1];
      MapAllMeaning(f, p);
      assert forall i :: 0 <= i < |p| ==> p[i] == xs[i];
      var r := MapAll(f, p);
      if r.Err? {
        var j :| 0 <= j < |p| && f(p[j]) == Err(r.error) && forall i :: 0 <= i < j ==> f(p[i]).Ok?;
        assert f(xs[j]) == Err(MapAll(f, xs).error);
      } else if f(xs[|p|]).Err? {
        assert f(xs[|p|]) == Err(MapAll(f, xs).error);
      }
    }
  }

  /** One more turn of the loop. */
  lemma MapAllStep<A, B, E>(f: A -> Result<B, E>, xs: seq<A>, i: nat)
    requires i < |xs| && MapAll(f, xs[..i]).Ok?
    ensures f(xs[i]).Err? ==> MapAll(f, xs[..i + 1]) == Err(f(xs[i]).error)
    ensures f(xs[i]).Ok? ==> MapAll(f, xs[..i + 1]) == Ok(MapAll(f, xs[..i]).value + [f(xs[i]).value])
  {
    assert xs[..i + 1][..i] == xs[..i];
  }

  /** Once an element fails, later elements do not change the error. */
  lemma {:induction false} MapAllErrSticks<A, B, E>(f: A -> Result<B, E>, xs: seq<A>, k: nat)
    requires k <= |xs| && MapAll(f, xs[..k]).Err?
    ensures MapAll(f, xs) == MapAll(f, xs[..k])
    decreases |xs| - k
  {
    if k < |xs| {
      assert xs[..k + 1][..k] == xs[..k];
      MapAllErrSticks(f, xs, k + 1);
    } else {
      assert xs[..k] == xs;
    }
  }
}
