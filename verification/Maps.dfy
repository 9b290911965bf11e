/** The map helpers of utils/utils.go.  Go ranges over a map in no particular order, so
    every loop picks any entry that is left; the results do not depend on the choice. */
module Maps {
  import opened Types

  type StringMap = map<string, string>
  type Bytes = seq<bv8>

  /** A nil map has no entries. */
  function Entries(m: Dict): StringMap {
    match m
    case Nil => map[]
    case Val(x) => x
  }

  // ---------- comparing maps

  /** What is left of a map without the ignored keys. */
  function Visible(m: StringMap, ignored: set<string>): StringMap {
    map k | k in m && k !in ignored :: m[k]
  }

  function Elements(xs: seq<string>): set<string> {
    set x | x in xs
  }

  /** Every visible entry of m is in n. */
  predicate VisibleIn(m: StringMap, n: StringMap, ignored: set<string>) {
    forall k :: k in m && k !in ignored ==> k in n && n[k] == m[k]
  }

  /** One of the two loops over entries, with its early exit. */
  method EntriesAgree(m: StringMap, n: StringMap, ignored: set<string>) returns (agree: bool)
    ensures agree <==> VisibleIn(m, n, ignored)
  {
    var left := m.Keys;
    while left != {}
      invariant left <= m.Keys
      invariant forall k :: k in m && k !in left && k !in ignored ==> k in n && n[k] == m[k]
      decreases |left|
    {
      var k :| k in left;
      left := left - {k};
      if k in ignored {
        continue;
      }
      if k !in n || n[k] != m[k] {
        return false;
      }
    }
    return true;
  }

  method StringMapsMatch(m1: Dict, m2: Dict, ignoreKeys: seq<string>) returns (same: bool)
    ensures same <==> Visible(Entries(m1), Elements(ignoreKeys)) == Visible(Entries(m2), Elements(ignoreKeys))
  {
    var e1, e2 := Entries(m1), Entries(m2);
    if |e1| == 0 && |e2| == 0 {
      return true;
    }
    var ignored: set<string> := {};
    for i := 0 to |ignoreKeys|
      invariant ignored == Elements(ignoreKeys[..i])
    {
      assert ignoreKeys[..i + 1] == ignoreKeys[..i] + [ignoreKeys[i]];
      ignored := ignored + {ignoreKeys[i]};
    }
    assert ignoreKeys[..|ignoreKeys|] == ignoreKeys;
    MatchBothWays(e1, e2, ignored);
    var forth := EntriesAgree(e1, e2, ignored);
    if !forth {
      return false;
    }
    same := EntriesAgree(e2, e1, ignored);
  }

  /** The two loops together decide equality of what is visible. */
  lemma MatchBothWays(m: StringMap, n: StringMap, ignored: set<string>)
    ensures VisibleIn(m, n, ignored) && VisibleIn(n, m, ignored) <==> Visible(m, ignored) == Visible(n, ignored)
  {
    var v, u := Visible(m, ignored), Visible(n, ignored);
    if v == u {
      forall k | k in m && k !in ignored ensures k in n && n[k] == m[k] { assert k in v && k in u; }
      forall k | k in n && k !in ignored ensures k in m && m[k] == n[k] { assert k in u && k in v; }
    }
  }

  /** Maps that match still match when more keys are ignored. */
  lemma IgnoringMore(m: StringMap, n: StringMap, ignored: set<string>, more: set<string>)
    requires Visible(m, ignored) == Visible(n, ignored) && ignored <= more
    ensures Visible(m, more) == Visible(n, more)
  {
    MatchBothWays(m, n, ignored);
    MatchBothWays(m, n, more);
  }

  method BytesMatch(v: Bytes, v2: Bytes) returns (same: bool)
    ensures same <==> v == v2
  {
    if |v2| != |v| {
      return false;
    }
    for i := 0 to |v|
      invariant v[..i] == v2[..i]
    {
      if v2[i] != v[i] {
        return false;
      }
      assert v[..i + 1] == v[..i] + [v[i]] && v2[..i + 1] == v2[..i] + [v2[i]];
    }
    assert v[..|v|] == v && v2[..|v|] == v2;
    return true;
  }

  /** One loop over one map is enough, because the maps are equally large. */
  method ByteMapsMatch(m1: map<string, Bytes>, m2: map<string, Bytes>) returns (same: bool)
    ensures same <==> m1 == m2
  {
    if |m1| != |m2| {
      return false;
    }
    var left := m1.Keys;
    while left != {}
      invariant left <= m1.Keys
      invariant forall k :: k in m1 && k !in left ==> k in m2 && m2[k] == m1[k]
      decreases |left|
    {
      var k :| k in left;
      left := left - {k};
      if k !in m2 {
        return false;
      }
      var equal := BytesMatch(m1[k], m2[k]);
      if !equal {
        return false;
      }
    }
    EquallyLarge(m1.Keys, m2.Keys);
    return true;
  }

  lemma EquallyLarge(s: set<string>, t: set<string>)
    requires s <= t && |s| == |t|
    ensures s == t
  {
    assert |t - s| == |t| - |s|;
  }

  // ---------- sorting keys

  /** The order of sort.Strings: the first character that differs decides, and a prefix comes first. */
  predicate Below(a: string, b: string) {
    b != "" && (a == "" || a[0] < b[0] || (a[0] == b[0] && Below(a[1..], b[1..])))
  }

  /** The strings agree up to i, and a has the smaller character there. */
  predicate SmallerAt(a: string, b: string, i: nat) {
    i < |a| && i < |b| && a[..i] == b[..i] && a[i] < b[i]
  }

  /** A proper prefix comes first; otherwise the first character that differs decides. */
  lemma {:induction false} BelowIff(a: string, b: string)
    ensures Below(a, b) <==> a < b || exists i :: SmallerAt(a, b, i)
    decreases |a|
  {
    if a == "" {
      assert forall i: nat :: !SmallerAt(a, b, i);
    } else if b != "" && a[0] == b[0] {
      BelowIff(a[1..], b[1..]);
      assert a == [a[0]] + a[1..] && b == [b[0]] + b[1..];
      assert a < b <==> a[1..] < b[1..];
      forall i: nat ensures SmallerAt(a[1..], b[1..], i) <==> SmallerAt(a, b, i + 1) {
        if i < |a[1..]| && i < |b[1..]| {
          assert a[..i + 1] == [a[0]] + a[1..][..i] && b[..i + 1] == [b[0]] + b[1..][..i];
          assert a[..i + 1][1..] == a[1..][..i] && b[..i + 1][1..] == b[1..][..i];
        }
      }
      assert !SmallerAt(a, b, 0);
      if i: nat :| SmallerAt(a, b, i) {
        assert i > 0 && SmallerAt(a[1..], b[1..], i - 1);
      }
    } else if b != "" {
      assert SmallerAt(a, b, 0) <==> a[0] < b[0];
      forall i: nat ensures i > 0 ==> !SmallerAt(a, b, i) {
        if 0 < i < |a| && i < |b| {
          assert a[..i][0] == a[0] && b[..i][0] == b[0];
        }
      }
    }
  }

  lemma {:induction false} BelowTotal(a: string, b: string)
    ensures Below(a, b) || a == b || Below(b, a)
    ensures !(Below(a, b) && Below(b, a)) && !Below(a, a)
    decreases |a|
  {
    if a != "" {
      BelowTotal(a[1..], a[1..]);
      if b != "" {
        BelowTotal(a[1..], b[1..]);
        assert a == [a[0]] + a[1..] && b == [b[0]] + b[1..];
      }
    }
  }

  lemma {:induction false} BelowTransitive(a: string, b: string, c: string)
    requires Below(a, b) && Below(b, c)
    ensures Below(a, c)
    decreases |a|
  {
    if a != "" && a[0] == b[0] && b[0] == c[0] {
      BelowTransitive(a[1..], b[1..], c[1..]);
    }
  }

  predicate Increasing(xs: seq<string>) {
    forall i, j :: 0 <= i < j < |xs| ==> Below(xs[i], xs[j])
  }

  /** The elements of s, each once, in increasing order. */
  predicate Enumerates(xs: seq<string>, s: set<string>) {
    Increasing(xs) && Elements(xs) == s
  }

  lemma NoElements(xs: seq<string>)
    ensures Elements(xs) == {} <==> xs == []
  {
    if xs != [] { assert xs[0] in Elements(xs); }
  }

  /** There is only one such list. */
  lemma {:induction false} EnumerationUnique(xs: seq<string>, ys: seq<string>, s: set<string>)
    requires Enumerates(xs, s) && Enumerates(ys, s)
    ensures xs == ys
    decreases |xs|
  {
    if xs == [] {
      NoElements(xs);
      NoElements(ys);
    } else {
      assert xs[0] in Elements(xs);
      var i :| 0 <= i < |ys| && ys[i] == xs[0];
      assert ys[0] in Elements(ys);
      var j :| 0 <= j < |xs| && xs[j] == ys[0];
      BelowTotal(xs[0], ys[0]);
      assert xs[0] == ys[0];
      WithoutFirst(xs, s);
      WithoutFirst(ys, s);
      EnumerationUnique(xs[1..], ys[1..], s - {xs[0]});
      assert xs == [xs[0]] + xs[1..] && ys == [ys[0]] + ys[1..];
    }
  }

  lemma WithoutFirst(xs: seq<string>, s: set<string>)
    requires xs != [] && Enumerates(xs, s)
    ensures Enumerates(xs[1..], s - {xs[0]})
  {
    forall x | x in xs[1..] ensures x != xs[0] {
      BelowTotal(x, x);
    }
    assert xs == [xs[0]] + xs[1..];
  }

  function Inserted(xs: seq<string>, x: string): seq<string> {
    if xs == [] then [x] else if Below(x, xs[0]) then [x] + xs else [xs[0]] + Inserted(xs[1..], x)
  }

  /** Stands for the library's sort.Strings. */
  function Sorted(xs: seq<string>): seq<string> {
    if xs == [] then [] else Inserted(Sorted(xs[1..]), xs[0])
  }

  lemma {:induction false} InsertedEnumerates(xs: seq<string>, s: set<string>, x: string)
    requires Enumerates(xs, s) && x !in s
    ensures Enumerates(Inserted(xs, x), s + {x})
    decreases |xs|
  {
    var ys := Inserted(xs, x);
    if xs == [] {
      NoElements(xs);
    } else {
      assert xs[0] in Elements(xs);
      BelowTotal(x, xs[0]);
      WithoutFirst(xs, s);
      assert xs == [xs[0]] + xs[1..];
      if Below(x, xs[0]) {
        forall j | 0 <= j < |xs| ensures Below(x, xs[j]) {
          if j > 0 { BelowTransitive(x, xs[0], xs[j]); }
        }
      } else {
        var rest := Inserted(xs[1..], x);
        InsertedEnumerates(xs[1..], s - {xs[0]}, x);
        forall j | 0 <= j < |rest| ensures Below(xs[0], rest[j]) {
          assert rest[j] in Elements(rest);
        }
      }
    }
  }

  predicate Distinct(xs: seq<string>) {
    forall i, j :: 0 <= i < j < |xs| ==> xs[i] != xs[j]
  }

  lemma {:induction false} SortedEnumerates(xs: seq<string>)
    requires Distinct(xs)
    ensures Enumerates(Sorted(xs), Elements(xs))
  {
    if xs != [] {
      SortedEnumerates(xs[1..]);
      assert xs == [xs[0]] + xs[1..];
      assert xs[0] !in Elements(xs[1..]);
      InsertedEnumerates(Sorted(xs[1..]), Elements(xs[1..]), xs[0]);
      assert Elements(xs) == Elements(xs[1..]) + {xs[0]};
    }
  }

  method SortedKeysMapString(m: StringMap) returns (keys: seq<string>)
    ensures Enumerates(keys, m.Keys)
  {
    keys := [];
    var left := m.Keys;
    while left != {}
      invariant left <= m.Keys && Distinct(keys) && Elements(keys) == m.Keys - left
      decreases |left|
    {
      var k :| k in left;
      left := left - {k};
      assert k !in Elements(keys);
      assert Elements(keys + [k]) == Elements(keys) + {k};
      keys := keys + [k];
    }
    SortedEnumerates(keys);
    keys := Sorted(keys);
  }

  // ---------- hashing

  lemma {:induction false} EnumerationExists(s: set<string>)
    ensures exists xs :: Enumerates(xs, s)
    decreases |s|
  {
    if s == {} {
      assert Enumerates([], s);
    } else {
      var x :| x in s;
      EnumerationExists(s - {x});
      var xs :| Enumerates(xs, s - {x});
      InsertedEnumerates(xs, s - {x}, x);
      assert s - {x} + {x} == s;
    }
  }

  ghost function Enumeration(s: set<string>): (xs: seq<string>)
    ensures Enumerates(xs, s)
  {
    EnumerationExists(s);
    var xs :| Enumerates(xs, s);
    xs
  }

  /** Keys and values one after another, with nothing in between. */
  function Joined(keys: seq<string>, m: StringMap): string
    requires forall k :: k in keys ==> k in m
  {
    if keys == [] then "" else Joined(keys[..|keys| - 1], m) + keys[|keys| - 1] + m[keys[|keys| - 1]]
  }

  /** What is hashed: a function of the map alone. */
  ghost function HashInput(m: StringMap): string {
    var keys := Enumeration(m.Keys);
    assert forall k :: k in keys ==> k in Elements(keys);
    Joined(keys, m)
  }

  /** `digest` stands for the hexadecimal MD5 of a text. */
  method SecretHashString(m: StringMap, digest: string -> string) returns (hash: string)
    ensures hash == digest(HashInput(m))
  {
    var keys := SortedKeysMapString(m);
    assert forall k :: k in keys ==> k in Elements(keys);
    var str := "";
    for i := 0 to |keys|
      invariant str == Joined(keys[..i], m)
    {
      assert keys[..i + 1][..i] == keys[..i];
      str := str + keys[i] + m[keys[i]];
    }
    assert keys[..|keys|] == keys;
    EnumerationUnique(keys, Enumeration(m.Keys), m.Keys);
    hash := digest(str);
  }

  /** The rendered values, when all of them render. */
  ghost function RenderedAll(m: StringMap, render: (string, string) -> Opt<string>): Opt<StringMap> {
    if forall k :: k in m ==> render(k, m[k]).Val? then Val(map k | k in m :: render(k, m[k]).value) else Nil
  }

  /** `render` stands for parsing and executing the template called k with the fake credentials. */
  method CreateFakeHash(m: StringMap, render: (string, string) -> Opt<string>, digest: string -> string)
    returns (hash: string)
    ensures hash == match RenderedAll(m, render)
                    case Nil => ""
                    case Val(data) => digest(HashInput(data))
  {
    var data: StringMap := map[];
    var left := m.Keys;
    while left != {}
      invariant left <= m.Keys && data.Keys == m.Keys - left
      invariant forall k :: k in data ==> render(k, m[k]) == Val(data[k])
      decreases |left|
    {
      var k :| k in left;
      left := left - {k};
      var rendered := render(k, m[k]);
      if rendered.Nil? {
        return "";
      }
      data := data[k := rendered.value];
    }
    assert (map k | k in m :: render(k, m[k]).value) == data;
    hash := SecretHashString(data, digest);
  }

  /** The hash never determines the map: no separator is written, so every map shares its
      text with another one. */
  lemma HashInputCollides(m: StringMap)
    ensures exists n :: n != m && HashInput(n) == HashInput(m)
  {
    var t := HashInput(m);
    SingleHashInput(t, "");
    SingleHashInput("", t);
    assert t + "" == t && "" + t == t;
    if t != "" {
      assert t in map[t := ""] && t !in map["" := t];
      assert map[t := ""] != map["" := t];
    } else if m == map[] {
      assert "" in map["" := t];
    } else {
      NoKeysNoText();
    }
  }

  lemma NoKeysNoText()
    ensures HashInput(map[]) == ""
  {
    var m: StringMap := map[];
    NoElements(Enumeration(m.Keys));
  }

  lemma SingleHashInput(k: string, v: string)
    ensures HashInput(map[k := v]) == k + v
  {
    var keys := Enumeration({k});
    assert Enumerates([k], {k});
    EnumerationUnique(keys, [k], {k});
    var m := map[k := v];
    assert m.Keys == {k};
    assert [k][..0] == [];
    assert Joined([k], m) == "" + k + v;
  }

  // ---------- when the hash does determine the map

  predicate SameShape(m: StringMap, n: StringMap) {
    m.Keys == n.Keys && forall k :: k in m ==> |m[k]| == |n[k]|
  }

  lemma EqualEnds(a: string, x: string, b: string, y: string)
    requires a + x == b + y && |x| == |y|
    ensures a == b && x == y
  {
    assert (a + x)[..|a|] == a && (b + y)[..|b|] == b;
    assert (a + x)[|a|..] == x && (b + y)[|b|..] == y;
  }

  lemma {:induction false} JoinedInjective(keys: seq<string>, m: StringMap, n: StringMap)
    requires SameShape(m, n) && forall k :: k in keys ==> k in m
    requires Joined(keys, m) == Joined(keys, n)
    ensures forall k :: k in keys ==> m[k] == n[k]
    decreases |keys|
  {
    if keys != [] {
      var rest, k := keys[..|keys| - 1], keys[|keys| - 1];
      EqualEnds(Joined(rest, m) + k, m[k], Joined(rest, n) + k, n[k]);
      EqualEnds(Joined(rest, m), k, Joined(rest, n), k);
      JoinedInjective(rest, m, n);
      assert keys == rest + [k];
    }
  }

  /** Maps with the same keys, and values of the same lengths, have different texts unless they are equal. */
  lemma SameShapeDetermines(m: StringMap, n: StringMap)
    requires SameShape(m, n) && HashInput(m) == HashInput(n)
    ensures m == n
  {
    var keys := Enumeration(m.Keys);
    assert forall k :: k in keys <==> k in Elements(keys);
    JoinedInjective(keys, m, n);
    forall k | k in m ensures m[k] == n[k] { assert k in keys; }
  }

  /** With the keys known, the text determines the map. */
  ghost predicate Determined(s: set<string>) {
    forall m: StringMap, n: StringMap :: m.Keys == s && n.Keys == s && HashInput(m) == HashInput(n) ==> m == n
  }

  /** It does so if and only if there is at most one key. */
  lemma DeterminedIff(s: set<string>)
    ensures Determined(s) <==> |s| <= 1
  {
    if |s| <= 1 {
      forall m: StringMap, n: StringMap | m.Keys == s && n.Keys == s && HashInput(m) == HashInput(n) ensures m == n {
        FewKeysDetermine(m, n);
      }
    } else {
      var m, n := TwoKeysCollide(s);
    }
  }

  lemma FewKeysDetermine(m: StringMap, n: StringMap)
    requires m.Keys == n.Keys && |m.Keys| <= 1 && HashInput(m) == HashInput(n)
    ensures m == n
  {
    if k :| k in m {
      assert |m.Keys - {k}| == 0;
      assert m.Keys == {k};
      assert m == map[k := m[k]] && n == map[k := n[k]];
      SingleHashInput(k, m[k]);
      SingleHashInput(k, n[k]);
      assert (k + m[k])[|k|..] == m[k] && (k + n[k])[|k|..] == n[k];
    } else {
      assert m.Keys == {};
    }
  }

  lemma ElementsCount(xs: seq<string>)
    ensures |Elements(xs)| <= |xs|
  {
    if xs != [] {
      ElementsCount(xs[1..]);
      assert Elements(xs) == {xs[0]} + Elements(xs[1..]);
    }
  }

  lemma JoinedAgrees(keys: seq<string>, m: StringMap, n: StringMap)
    requires forall k :: k in keys ==> k in m && k in n && m[k] == n[k]
    ensures Joined(keys, m) == Joined(keys, n)
  {
  }

  /** The map from the keys that gives `at` the value v and every other key the empty one. */
  function OnlyAt(s: set<string>, at: string, v: string): (m: StringMap)
    ensures m.Keys == s
  {
    map k | k in s :: if k == at then v else ""
  }

  /** Of the last two keys, the second can be written as the value of either. */
  lemma TwoKeysCollide(s: set<string>) returns (m: StringMap, n: StringMap)
    requires |s| >= 2
    ensures m.Keys == s && n.Keys == s && m != n && HashInput(m) == HashInput(n)
  {
    var keys := Enumeration(s);
    ElementsCount(keys);
    var front := keys[..|keys| - 2];
    var a, b := keys[|keys| - 2], keys[|keys| - 1];
    assert keys == front + [a, b] && Below(a, b);
    assert a in Elements(keys) && b in Elements(keys);
    m, n := OnlyAt(s, b, b), OnlyAt(s, a, b);
    BelowTotal(a, b);
    assert m[b] != n[b];
    LastTwoCollide(s, front, a, b);
  }

  lemma LastTwoCollide(s: set<string>, front: seq<string>, a: string, b: string)
    requires Enumerates(front + [a, b], s)
    ensures HashInput(OnlyAt(s, b, b)) == HashInput(OnlyAt(s, a, b))
  {
    hide Joined, Enumerates;
    var keys := front + [a, b];
    var m, n := OnlyAt(s, b, b), OnlyAt(s, a, b);
    LastTwoDiffer(s, front, a, b);
    TwoLast(keys, front, a, b, m);
    TwoLast(keys, front, a, b, n);
    JoinedAgrees(front, m, n);
    EmptyInBetween(Joined(front, m) + a, b);
    EnumerationUnique(keys, Enumeration(s), s);
  }

  lemma EmptyInBetween(f: string, b: string)
    ensures f + "" + b + b == f + b + b + ""
  {
  }

  lemma LastTwoDiffer(s: set<string>, front: seq<string>, a: string, b: string)
    requires Enumerates(front + [a, b], s)
    ensures a != b && forall k :: k in front + [a, b] ==> k in s && (k in front ==> k != a && k != b)
  {
    var keys := front + [a, b];
    assert keys[|front|] == a && keys[|front| + 1] == b;
    BelowTotal(a, b);
    forall k | k in keys ensures k in s && (k in front ==> k != a && k != b) {
      assert k in Elements(keys);
      if k in front {
        var i :| 0 <= i < |front| && front[i] == k;
        assert keys[i] == k;
        BelowTotal(k, k);
      }
    }
  }

  lemma TwoLast(keys: seq<string>, front: seq<string>, a: string, b: string, m: StringMap)
    requires keys == front + [a, b] && forall k :: k in keys ==> k in m
    ensures Joined(keys, m) == Joined(front, m) + a + m[a] + b + m[b]
  {
    assert keys[..|keys| - 1] == front + [a];
    assert (front + [a])[..|front|] == front;
  }

  /** The text of two entries: the smaller key and its value, then the larger key and its value. */
  lemma TwoEntries(m: StringMap, a: string, b: string)
    requires m.Keys == {a, b} && (a < b || exists i :: SmallerAt(a, b, i))
    ensures HashInput(m) == a + m[a] + b + m[b]
  {
    BelowIff(a, b);
    var keys := [a, b];
    assert keys[0] in Elements(keys) && keys[1] in Elements(keys);
    assert Enumerates(keys, m.Keys);
    EnumerationUnique(keys, Enumeration(m.Keys), m.Keys);
    TwoLast(keys, [], a, b, m);
    assert "" + a == a;
  }
}
