/** Values shared by the whole model: optional values, Python's "returns or raises",
    JSON scalars and Python's prefix slice `xs[:k]`. */
module Common {

  datatype Option<+T> = None | Some(value: T) {
    /** `d.get(key, default)` once the lookup itself is modelled as an Option. */
    function GetOr(default: T): T {
      match this
      case Some(v) => v
      case None => default
    }
  }

  /** A Python call that either returns a value or lets an exception escape. */
  datatype Outcome<+T> = Returned(value: T) | Threw

  /** A JSON scalar as the service and the web API pass it around (`None` is `JNull`). */
  datatype JsonValue = JNull | JString(s: string) | JNumber(n: real)

  function Min(a: int, b: int): int { if a <= b then a else b }

  function Max(a: int, b: int): int { if a <= b then b else a }

  /** Python's `xs[:k]`: the first k elements, or, for a negative k, all but the last -k. */
  function PyPrefix<T>(xs: seq<T>, k: int): (r: seq<T>)
    ensures |r| == if k >= 0 then Min(k, |xs|) else Max(0, |xs| + k)
    ensures r == xs[..|r|]
  {
    if k >= 0 then
      if k <= |xs| then xs[..k] else xs
    else if |xs| + k > 0 then xs[..|xs| + k]
    else []
  }
}
