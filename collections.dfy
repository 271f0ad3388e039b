/** Kotlin's nullable values and the list operations the app relies on
    (`filter`, `mapNotNull`, `firstOrNull`), stated once and reused. */
module Collections {

  /** A Kotlin `T?`: absent (`null`) or a value. */
  datatype Option<+T> = None | Some(value: T) {
    /** Kotlin's elvis operator `x ?: default`. */
    function GetOr(default: T): T {
      match this
      case Some(v) => v
      case None => default
    }
  }

  /** Kotlin's `filter`: the elements satisfying `p`, in their original order. */
  function Filter<T>(s: seq<T>, p: T -> bool): (r: seq<T>)
    ensures |r| <= |s|
    ensures forall x | x in r :: x in s && p(x)
  {
    if s == [] then [] else (if p(s[0]) then [s[0]] else []) + Filter(s[1..], p)
  }

  lemma {:induction false} FilterMembership<T>(s: seq<T>, p: T -> bool, x: T)
    ensures x in Filter(s, p) <==> x in s && p(x)
  {
    if s != [] {
      FilterMembership(s[1..], p, x);
      assert s == [s[0]] + s[1..];
    }
  }

  /** Filtering commutes with concatenation, so it keeps the input order. */
  lemma {:induction false} FilterConcat<T>(a: seq<T>, b: seq<T>, p: T -> bool)
    ensures Filter(a + b, p) == Filter(a, p) + Filter(b, p)
  {
    if a != [] {
      assert (a + b)[1..] == a[1..] + b;
      FilterConcat(a[1..], b, p);
    } else {
      assert a + b == b;
    }
  }

  /** A filter that every element passes is the identity. */
  lemma {:induction false} FilterKeepsAll<T>(s: seq<T>, p: T -> bool)
    requires forall x | x in s :: p(x)
    ensures Filter(s, p) == s
  {
    if s != [] {
      FilterKeepsAll(s[1..], p);
    }
  }

  /** Filters whose tests agree on the elements give the same result. */
  lemma {:induction false} FilterAgrees<T>(s: seq<T>, p: T -> bool, q: T -> bool)
    requires forall x | x in s :: p(x) == q(x)
    ensures Filter(s, p) == Filter(s, q)
  {
    if s != [] {
      FilterAgrees(s[1..], p, q);
    }
  }

  /** Kotlin's `mapNotNull`: apply `f`, keep the non-null results, in order. */
  function FilterMap<T, U>(s: seq<T>, f: T -> Option<U>): (r: seq<U>)
    ensures |r| <= |s|
  {
    if s == [] then []
    else (match f(s[0]) case Some(y) => [y] case None => []) + FilterMap(s[1..], f)
  }

  lemma {:induction false} FilterMapMembership<T, U>(s: seq<T>, f: T -> Option<U>, y: U)
    ensures y in FilterMap(s, f) <==> exists x | x in s :: f(x) == Some(y)
  {
    if s != [] {
      FilterMapMembership(s[1..], f, y);
      assert s == [s[0]] + s[1..];
      if f(s[0]) == Some(y) {
        assert y in FilterMap(s, f);
      }
    }
  }

  lemma {:induction false} FilterMapConcat<T, U>(a: seq<T>, b: seq<T>, f: T -> Option<U>)
    ensures FilterMap(a + b, f) == FilterMap(a, f) + FilterMap(b, f)
  {
    if a != [] {
      assert (a + b)[1..] == a[1..] + b;
      FilterMapConcat(a[1..], b, f);
    } else {
      assert a + b == b;
    }
  }

  /** Kotlin's `firstOrNull(p)`: the earliest element satisfying `p`, if any. */
  function FirstOrNull<T>(s: seq<T>, p: T -> bool): (r: Option<T>)
    ensures r.None? <==> forall x | x in s :: !p(x)
    ensures r.Some? ==> r.value in s && p(r.value)
  {
    if s == [] then None
    else if p(s[0]) then Some(s[0])
    else FirstOrNull(s[1..], p)
  }

  /** What `firstOrNull` returns stands at an index before which nothing matches. */
  lemma {:induction false} FirstOrNullIsFirst<T>(s: seq<T>, p: T -> bool)
    requires FirstOrNull(s, p).Some?
    ensures exists i | 0 <= i < |s| ::
      s[i] == FirstOrNull(s, p).value && forall j | 0 <= j < i :: !p(s[j])
  {
    if !p(s[0]) {
      FirstOrNullIsFirst(s[1..], p);
      var i :| 0 <= i < |s[1..]| && s[1..][i] == FirstOrNull(s[1..], p).value
                 && forall j | 0 <= j < i :: !p(s[1..][j]);
      assert s[i + 1] == FirstOrNull(s, p).value;
      assert forall j | 0 <= j < i + 1 :: !p(s[j]) by {
        forall j | 0 <= j < i + 1 ensures !p(s[j]) {
          if j > 0 { assert s[j] == s[1..][j - 1]; }
        }
      }
    } else {
      assert s[0] == FirstOrNull(s, p).value;
    }
  }

  /** The head of a non-empty filter is what `firstOrNull` with the same test returns. */
  lemma {:induction false} FilterHeadIsFirstOrNull<T>(s: seq<T>, p: T -> bool)
    requires Filter(s, p) != []
    ensures FirstOrNull(s, p) == Some(Filter(s, p)[0])
  {
    if !p(s[0]) {
      FilterHeadIsFirstOrNull(s[1..], p);
    }
  }
}
