/**
 * The iterator pipelines the generators are built from, as functions over
 * sequences: `map(..).collect::<Result<_>>()`, `filter_map(..).collect()` and
 * `filter_map(|x| f(x).transpose()).collect::<Result<_>>()`. Rust's iterators are
 * lazy and stop at the first `Err`; since every closure here is pure, walking the
 * sequence from the front and returning the first `Err` is the same thing.
 */
module Iter {
  import opened Wrappers

  /** `s.iter().map(f).collect::<Vec<_>>()` */
  function Map<T, U>(f: T -> U, s: seq<T>): (r: seq<U>)
    ensures |r| == |s|
    ensures forall i :: 0 <= i < |s| ==> r[i] == f(s[i])
  {
    seq(|s|, i requires 0 <= i < |s| => f(s[i]))
  }

  /** Number of elements of `s` that satisfy `p`. */
  function Count<T>(p: T -> bool, s: seq<T>): (n: nat)
    ensures n <= |s|
  {
    if s == [] then 0 else (if p(s[0]) then 1 else 0) + Count(p, s[1..])
  }

  /** `s.into_iter().filter_map(f).collect::<Vec<_>>()` */
  function FilterMap<T, U>(f: T -> Option<U>, s: seq<T>): (r: seq<U>)
    ensures |r| <= |s|
  {
    if s == [] then []
    else
      var rest := FilterMap(f, s[1..]);
      match f(s[0])
      case Some(u) => [u] + rest
      case None => rest
  }

  /** `s.into_iter().map(f).collect::<Result<Vec<_>, _>>()`: the first `Err` wins. */
  function TryMap<T, U, E>(f: T -> Result<U, E>, s: seq<T>): (r: Result<seq<U>, E>)
    ensures r.Ok? ==> |r.value| == |s|
  {
    if s == [] then Ok([])
    else
      match f(s[0])
      case Err(e) => Err(e)
      case Ok(u) =>
        match TryMap(f, s[1..])
        case Err(e) => Err(e)
        case Ok(us) => Ok([u] + us)
  }

  /**
   * `s.into_iter().filter_map(|x| f(x).transpose()).collect::<Result<Vec<_>, _>>()`:
   * `Ok(None)` elements are skipped, `Ok(Some(u))` contribute `u`, the first `Err` wins.
   */
  function TryFilterMap<T, U, E>(f: T -> Result<Option<U>, E>, s: seq<T>): (r: Result<seq<U>, E>)
    ensures r.Ok? ==> |r.value| <= |s|
  {
    if s == [] then Ok([])
    else
      match f(s[0])
      case Err(e) => Err(e)
      case Ok(o) =>
        match TryFilterMap(f, s[1..])
        case Err(e) => Err(e)
        case Ok(us) => Ok(match o case Some(u) => [u] + us case None => us)
  }

  // ---------------------------------------------------------------------------
  // filter_map

  /** The output has one element per input element for which `f` gives `Some`. */
  lemma {:induction false} FilterMapCount<T, U>(f: T -> Option<U>, p: T -> bool, s: seq<T>)
    requires forall x :: f(x).Some? <==> p(x)
    ensures |FilterMap(f, s)| == Count(p, s)
  {
    if s != [] {
      FilterMapCount(f, p, s[1..]);
    }
  }

  /** `filter_map` keeps the relative order: it distributes over concatenation. */
  lemma {:induction false} FilterMapAppend<T, U>(f: T -> Option<U>, a: seq<T>, b: seq<T>)
    ensures FilterMap(f, a + b) == FilterMap(f, a) + FilterMap(f, b)
  {
    if a == [] {
      assert a + b == b;
    } else {
      assert (a + b)[1..] == a[1..] + b;
      FilterMapAppend(f, a[1..], b);
    }
  }

  /** Every `Some` the closure produces ends up in the output. */
  lemma {:induction false} FilterMapContains<T, U>(f: T -> Option<U>, s: seq<T>, i: nat)
    requires i < |s| && f(s[i]).Some?
    ensures exists k :: 0 <= k < |FilterMap(f, s)| && FilterMap(f, s)[k] == f(s[i]).value
  {
    if i == 0 {
      assert FilterMap(f, s)[0] == f(s[0]).value;
    } else {
      FilterMapContains(f, s[1..], i - 1);
      var k :| 0 <= k < |FilterMap(f, s[1..])| && FilterMap(f, s[1..])[k] == f(s[1..][i - 1]).value;
      if f(s[0]).Some? {
        assert FilterMap(f, s)[k + 1] == f(s[i]).value;
      } else {
        assert FilterMap(f, s)[k] == f(s[i]).value;
      }
    }
  }

  /** Nothing else ends up in the output: each element is some input's `Some`. */
  lemma {:induction false} FilterMapFrom<T, U>(f: T -> Option<U>, s: seq<T>, k: nat)
    requires k < |FilterMap(f, s)|
    ensures exists i :: 0 <= i < |s| && f(s[i]) == Some(FilterMap(f, s)[k])
  {
    var rest := FilterMap(f, s[1..]);
    if f(s[0]).Some? && k == 0 {
      assert f(s[0]) == Some(FilterMap(f, s)[0]);
    } else {
      var k' := if f(s[0]).Some? then k - 1 else k;
      assert FilterMap(f, s)[k] == rest[k'];
      FilterMapFrom(f, s[1..], k');
      var i :| 0 <= i < |s[1..]| && f(s[1..][i]) == Some(rest[k']);
      assert f(s[i + 1]) == Some(FilterMap(f, s)[k]);
    }
  }

  /** If the closure accepts nothing, the output is empty. */
  lemma {:induction false} FilterMapNothing<T, U>(f: T -> Option<U>, s: seq<T>)
    requires forall i :: 0 <= i < |s| ==> f(s[i]).None?
    ensures FilterMap(f, s) == []
  {
    if s != [] {
      assert forall i :: 0 <= i < |s[1..]| ==> f(s[1..][i]) == f(s[i + 1]);
      FilterMapNothing(f, s[1..]);
    }
  }

  // ---------------------------------------------------------------------------
  // map + collect::<Result<_>>

  /** The collection succeeds exactly when every element maps to `Ok`, and then holds those values in order. */
  lemma {:induction false} TryMapOk<T, U, E>(f: T -> Result<U, E>, s: seq<T>)
    ensures TryMap(f, s).Ok? <==> forall i :: 0 <= i < |s| ==> f(s[i]).Ok?
    ensures TryMap(f, s).Ok? ==> forall i :: 0 <= i < |s| ==> f(s[i]) == Ok(TryMap(f, s).value[i])
  {
    if s != [] {
      TryMapOk(f, s[1..]);
      assert forall i :: 1 <= i < |s| ==> s[i] == s[1..][i - 1];
    }
  }

  /** A failing collection reports the error of the first element that maps to `Err`. */
  lemma {:induction false} TryMapFirstError<T, U, E>(f: T -> Result<U, E>, s: seq<T>)
    requires TryMap(f, s).Err?
    ensures exists i :: 0 <= i < |s| && f(s[i]) == Err(TryMap(f, s).error)
                        && forall j :: 0 <= j < i ==> f(s[j]).Ok?
  {
    if f(s[0]).Ok? {
      TryMapFirstError(f, s[1..]);
      var i :| 0 <= i < |s[1..]| && f(s[1..][i]) == Err(TryMap(f, s[1..]).error)
                && forall j :: 0 <= j < i ==> f(s[1..][j]).Ok?;
      assert forall j :: 1 <= j < i + 1 ==> s[j] == s[1..][j - 1];
      assert f(s[i + 1]) == Err(TryMap(f, s).error);
    }
  }

  // ---------------------------------------------------------------------------
  // filter_map(transpose) + collect::<Result<_>>

  /** The collection succeeds exactly when no element maps to `Err`. */
  lemma {:induction false} TryFilterMapOk<T, U, E>(f: T -> Result<Option<U>, E>, s: seq<T>)
    ensures TryFilterMap(f, s).Ok? <==> forall i :: 0 <= i < |s| ==> f(s[i]).Ok?
  {
    if s != [] {
      TryFilterMapOk(f, s[1..]);
      assert forall i :: 1 <= i < |s| ==> s[i] == s[1..][i - 1];
    }
  }

  /** When every element maps to `Ok(g(x))`, the collection is the plain `filter_map` of `g`. */
  lemma {:induction false} TryFilterMapAllOk<T, U, E>(f: T -> Result<Option<U>, E>, g: T -> Option<U>, s: seq<T>)
    requires forall i :: 0 <= i < |s| ==> f(s[i]) == Ok(g(s[i]))
    ensures TryFilterMap(f, s) == Ok(FilterMap(g, s))
  {
    if s != [] {
      assert forall i :: 0 <= i < |s[1..]| ==> s[1..][i] == s[i + 1];
      TryFilterMapAllOk(f, g, s[1..]);
    }
  }

  /** A failing collection reports the error of the first element that maps to `Err`. */
  lemma {:induction false} TryFilterMapFirstError<T, U, E>(f: T -> Result<Option<U>, E>, s: seq<T>)
    requires TryFilterMap(f, s).Err?
    ensures exists i :: 0 <= i < |s| && f(s[i]) == Err(TryFilterMap(f, s).error)
                        && forall j :: 0 <= j < i ==> f(s[j]).Ok?
  {
    if f(s[0]).Ok? {
      TryFilterMapFirstError(f, s[1..]);
      var i :| 0 <= i < |s[1..]| && f(s[1..][i]) == Err(TryFilterMap(f, s[1..]).error)
                && forall j :: 0 <= j < i ==> f(s[1..][j]).Ok?;
      assert forall j :: 1 <= j < i + 1 ==> s[j] == s[1..][j - 1];
      assert f(s[i + 1]) == Err(TryFilterMap(f, s).error);
    }
  }
}
