/**
 * The two list operations the builder is made of: `_.last(list)` and overwriting the
 * last element of a list.
 */
module Lists {

  /** `_.last(s)` on a non-empty list. */
  function Last<T>(s: seq<T>): T
    requires s != []
  {
    s[|s| - 1]
  }

  /** `s` with its last element replaced by `x`; every other element is kept. */
  function WithLast<T>(s: seq<T>, x: T): (r: seq<T>)
    requires s != []
    ensures |r| == |s| && r[..|s| - 1] == s[..|s| - 1] && Last(r) == x
  {
    s[..|s| - 1] + [x]
  }
}
