/** Option and Result values used where the modelled code returns `None`
    or raises an exception. */
module Wrappers {

  /** A value that may be absent (Python's `Optional`). */
  datatype Option<+T> = None | Some(value: T) {

    /** The held value, or `default` when absent (Python's `dict.get(k, default)`). */
    function GetOr(default: T): T
    {
      match this
      case Some(v) => v
      case None => default
    }
  }

  /** Either a computed value or the error that would have been raised. */
  datatype Result<+R, +E> = Ok(value: R) | Err(error: E)

  /** `[f(x) for x in s]` where `f` may raise: the results in order, or the
      error of the first element that raises. */
  function MapResult<T, R, E>(s: seq<T>, f: T -> Result<R, E>): (r: Result<seq<R>, E>)
    ensures r.Ok? <==> forall i | 0 <= i < |s| :: f(s[i]).Ok?
    ensures r.Ok? ==> |r.value| == |s| && forall i | 0 <= i < |s| :: r.value[i] == f(s[i]).value
    ensures r.Err? ==> exists i | 0 <= i < |s| :: f(s[i]).Err? && r.error == f(s[i]).error
                                                 && forall j | 0 <= j < i :: f(s[j]).Ok?
    decreases |s|
  {
    if |s| == 0 then Ok([])
    else
      var n := |s| - 1;
      match MapResult(s[..n], f)
      case Err(e) => Err(e)
      case Ok(prefix) =>
        match f(s[n])
        case Err(e) => Err(e)
        case Ok(last) => Ok(prefix + [last])
  }
}
