/** ContainsString and RemoveString of utils/utils.go: the finalizer list's two operations. */
module StringLists {

  method ContainsString(slice: seq<string>, s: string) returns (found: bool)
    ensures found <==> s in slice
  {
    for i := 0 to |slice|
      invariant s !in slice[..i]
    {
      if slice[i] == s {
        return true;
      }
    }
    return false;
  }

  /** The list without its occurrences of x, the other entries in their order. */
  function Without(xs: seq<string>, x: string): (r: seq<string>)
    ensures x !in r
  {
    if xs == [] then [] else (if xs[0] == x then [] else [xs[0]]) + Without(xs[1..], x)
  }

  method RemoveString(slice: seq<string>, s: string) returns (result: seq<string>)
    ensures result == Without(slice, s)
  {
    if |slice| < 1 {
      return [];
    }
    result := [];
    for i := 0 to |slice|
      invariant result == Without(slice[..i], s)
    {
      assert slice[..i + 1] == slice[..i] + [slice[i]];
      WithoutAppend(slice[..i], [slice[i]], s);
      if slice[i] != s {
        result := result + [slice[i]];
      }
    }
    assert slice[..|slice|] == slice;
  }

  lemma {:induction false} WithoutAppend(xs: seq<string>, ys: seq<string>, x: string)
    ensures Without(xs + ys, x) == Without(xs, x) + Without(ys, x)
  {
    if xs == [] {
      assert xs + ys == ys;
    } else {
      assert (xs + ys)[1..] == xs[1..] + ys;
      WithoutAppend(xs[1..], ys, x);
    }
  }

  /** Removing what is not there changes nothing. */
  lemma {:induction false} WithoutAbsent(xs: seq<string>, x: string)
    requires x !in xs
    ensures Without(xs, x) == xs
  {
    if xs != [] {
      WithoutAbsent(xs[1..], x);
    }
  }

  /** Adding an entry that is not there and removing it again gives back the list. */
  lemma AddThenRemove(xs: seq<string>, x: string)
    requires x !in xs
    ensures Without(xs + [x], x) == xs
  {
    WithoutAppend(xs, [x], x);
    WithoutAbsent(xs, x);
  }

  /** What is left does not depend on how often, or where, x was in the list. */
  lemma WithoutTwice(xs: seq<string>, x: string)
    ensures Without(Without(xs, x), x) == Without(xs, x)
  {
    WithoutAbsent(Without(xs, x), x);
  }
}
