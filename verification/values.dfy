/**
 Values of the alert builder: PHP configuration values are heterogeneous, so a
 configuration option holds a string, an integer, a boolean or PHP `null`.
 A configuration is a string-keyed map of such values; the insertion order of
 the PHP array is not kept.
 */
module Values {

  datatype Value = Str(s: string) | Int(i: int) | Bool(b: bool) | Null

  type Config = map<string, Value>

  datatype Option<+T> = None | Some(value: T)

  /** The entry stored under `k`, or None when `k` is absent. Unlike PHP's own
      lookups this tells an absent key apart from a stored `null`. */
  function Get(c: Config, k: string): (r: Option<Value>)
    ensures r.Some? <==> k in c
    ensures r.Some? ==> r.value == c[k]
  {
    if k in c then Some(c[k]) else None
  }

  /** `a` and `b` hold exactly the same entries for every key outside `ks`. */
  predicate AgreeOutside(a: Config, b: Config, ks: set<string>)
  {
    a - ks == b - ks
  }

  /** Two configurations agree on `k` when both lack it or both map it to the same value. */
  predicate SameOn(a: Config, b: Config, k: string)
  {
    Get(a, k) == Get(b, k)
  }
}
