/** Go's reference types on the heap: maps, and slices as windows of a backing array. */
module GoHeap {
  import opened Types

  class GoMap {
    var m: map<string, string>

    constructor ()
      ensures m == map[]
    {
      m := map[];
    }
  }

  /** A slice header: the window [off, off + len) of an array, which may grow in place up to cap. */
  datatype Header<T> = NilSlice | Slice(arr: array<T>, off: nat, len: nat, cap: nat)

  predicate InBounds<T>(s: Header<T>) {
    s.Slice? ==> s.len <= s.cap && s.off + s.cap <= s.arr.Length
  }

  type GoSlice<T> = s: Header<T> | InBounds(s) witness NilSlice

  ghost function MapRefs(g: GoMap?): set<object> {
    if g == null then {} else {g}
  }

  ghost function SliceRefs<T>(s: GoSlice<T>): set<object> {
    if s.Slice? then {s.arr} else {}
  }

  /** A pointed-to struct. */
  class Cell<T> {
    var value: T

    constructor (value: T)
      ensures this.value == value
    {
      this.value := value;
    }
  }

  function At<T>(s: GoSlice<T>, i: nat): T
    requires s.Slice? && i < s.len
    reads s.arr
  {
    s.arr[s.off + i]
  }

  /** What a reader sees through the slice. */
  ghost function Listed<T>(s: GoSlice<T>): Opt<seq<T>>
    reads SliceRefs(s)
  {
    if s.Slice? then Val(s.arr[s.off..s.off + s.len]) else Nil
  }

  /** The built-in append of one element: in place when the capacity allows it, otherwise
      into a new array, however much larger the runtime makes it. */
  method Append<T(0)>(s: GoSlice<T>, x: T) returns (r: GoSlice<T>)
    modifies SliceRefs(s)
    ensures r.Slice? && Listed(r) == Val(old(Items(Listed(s))) + [x])
    ensures if s.Slice? && s.len < s.cap then r == s.(len := s.len + 1) else fresh(r.arr)
    ensures s.Slice? ==> forall i :: 0 <= i < s.arr.Length && i != s.off + s.len ==> s.arr[i] == old(s.arr[i])
    ensures s.Slice? && s.len == s.cap ==> s.arr[..] == old(s.arr[..])
    ensures Listed(s) == old(Listed(s))
    ensures s.Slice? ==> s.arr[..s.off + s.len] == old(s.arr[..s.off + s.len])
  {
    if s.Slice? && s.len < s.cap {
      s.arr[s.off + s.len] := x;
      r := s.(len := s.len + 1);
      assert s.arr[s.off..s.off + s.len + 1] == s.arr[s.off..s.off + s.len] + [x];
    } else {
      var n := if s.Slice? then s.len else 0;
      var spare: nat :| 0 <= spare;
      var grown := new T[n + 1 + spare];
      for i := 0 to n
        invariant forall j :: 0 <= j < i ==> grown[j] == s.arr[s.off + j]
        invariant s.Slice? ==> s.arr[..] == old(s.arr[..])
      {
        grown[i] := s.arr[s.off + i];
      }
      grown[n] := x;
      r := Slice(grown, 0, n + 1, n + 1 + spare);
      assert grown[0..n] == old(Items(Listed(s)));
      assert grown[0..n + 1] == grown[0..n] + [x];
    }
  }
}
