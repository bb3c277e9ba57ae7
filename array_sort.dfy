/** `Array.prototype.sort()` with no comparator, as `getDataAsParameterString`
    calls it on an array value: undefined elements go last, every other
    element is ordered by its string form, and the sort is stable. */
module ArraySort {
  import opened JsValues
  import opened StringOrder

  /** The string an element is compared by. */
  function SortKey(v: Val): string {
    ToJsString(v)
  }

  /** a's key is not after b's. */
  predicate NotAfter(a: Val, b: Val) {
    !Below(SortKey(b), SortKey(a))
  }

  predicate Ordered(s: seq<Val>) {
    forall i, j :: 0 <= i < j < |s| ==> NotAfter(s[i], s[j])
  }

  lemma NotAfterTransitive(a: Val, b: Val, c: Val)
    requires NotAfter(a, b) && NotAfter(b, c)
    ensures NotAfter(a, c)
  {
    var ka, kb, kc := SortKey(a), SortKey(b), SortKey(c);
    BelowTotal(ka, kb);
    BelowTotal(kb, kc);
    if Below(kc, ka) {
      if ka == kb {
      } else if kb == kc {
      } else {
        BelowTransitive(ka, kb, kc);
        BelowAsymmetric(ka, kc);
      }
    }
  }

  /** Insert x into an ordered list, after every element whose key is not
      after x's (which keeps equal elements in their original order). */
  function Insert(x: Val, s: seq<Val>): (r: seq<Val>)
    ensures multiset(r) == multiset(s) + multiset{x}
    ensures |r| == |s| + 1
    decreases |s|
  {
    if s == [] then [x]
    else if Below(SortKey(x), SortKey(s[|s| - 1])) then
      assert s == s[..|s| - 1] + [s[|s| - 1]];
      Insert(x, s[..|s| - 1]) + [s[|s| - 1]]
    else s + [x]
  }

  /** An element that no element of an ordered list is after can be
      appended. */
  lemma AppendOrdered(s: seq<Val>, x: Val)
    requires Ordered(s) && forall e :: e in s ==> NotAfter(e, x)
    ensures Ordered(s + [x])
  {
    forall i, j | 0 <= i < j < |s| + 1 ensures NotAfter((s + [x])[i], (s + [x])[j]) {
      if j == |s| {
        assert (s + [x])[i] == s[i] && s[i] in s;
      }
    }
  }

  lemma {:induction false} InsertOrdered(x: Val, s: seq<Val>)
    requires Ordered(s)
    ensures Ordered(Insert(x, s))
    decreases |s|
  {
    if s != [] {
      var init := s[..|s| - 1];
      if Below(SortKey(x), SortKey(s[|s| - 1])) {
        assert Ordered(init) by {
          forall i, j | 0 <= i < j < |init| ensures NotAfter(init[i], init[j]) {
            assert init[i] == s[i] && init[j] == s[j];
          }
        }
        InsertOrdered(x, init);
        InsertBeforeLast(x, s);
      } else {
        InsertAfterLast(x, s);
      }
    }
  }

  /** The step of InsertOrdered where x goes before the last element. */
  lemma InsertBeforeLast(x: Val, s: seq<Val>)
    requires s != [] && Ordered(s)
    requires Below(SortKey(x), SortKey(s[|s| - 1]))
    requires Ordered(Insert(x, s[..|s| - 1]))
    ensures Ordered(Insert(x, s))
  {
    var init, last := s[..|s| - 1], s[|s| - 1];
    var r := Insert(x, init);
    assert Insert(x, s) == r + [last];
    forall e | e in r ensures NotAfter(e, last) {
      assert e in multiset(r);
      if e == x {
        BelowAsymmetric(SortKey(x), SortKey(last));
      } else {
        assert e in multiset(init);
        var i :| 0 <= i < |init| && init[i] == e;
        assert s[i] == e;
      }
    }
    AppendOrdered(r, last);
  }

  /** The step of InsertOrdered where x goes after the last element. */
  lemma InsertAfterLast(x: Val, s: seq<Val>)
    requires s != [] && Ordered(s)
    requires !Below(SortKey(x), SortKey(s[|s| - 1]))
    ensures Ordered(Insert(x, s))
  {
    var last := s[|s| - 1];
    assert Insert(x, s) == s + [x];
    assert NotAfter(last, x);
    forall i | 0 <= i < |s| ensures NotAfter(s[i], x) {
      if i < |s| - 1 {
        NotAfterTransitive(s[i], last, x);
      }
    }
    AppendOrdered(s, x);
  }

  /** Insertion sort of the non-undefined elements, left to right. */
  function SortDefined(items: seq<Val>): (r: seq<Val>)
    ensures multiset(r) == multiset(items)
    ensures Ordered(r)
    decreases |items|
  {
    if items == [] then []
    else
      var init := items[..|items| - 1];
      assert items == init + [items[|items| - 1]];
      var sorted := SortDefined(init);
      InsertOrdered(items[|items| - 1], sorted);
      Insert(items[|items| - 1], sorted)
  }

  function Defined(items: seq<Val>): (r: seq<Val>)
    ensures forall v :: v in r <==> v in items && !v.Undef?
    ensures multiset(r) + multiset(Undefineds(items)) == multiset(items)
    decreases |items|
  {
    if items == [] then []
    else
      assert items == [items[0]] + items[1..];
      (if items[0].Undef? then [] else [items[0]]) + Defined(items[1..])
  }

  function Undefineds(items: seq<Val>): (r: seq<Val>)
    ensures forall i :: 0 <= i < |r| ==> r[i] == Undef
    decreases |items|
  {
    if items == [] then []
    else (if items[0].Undef? then [Undef] else []) + Undefineds(items[1..])
  }

  /** `items.sort()`: a permutation of the items, the non-undefined ones
      first and ordered by their string form, the undefined ones last. */
  function JsSort(items: seq<Val>): (r: seq<Val>)
    ensures multiset(r) == multiset(items)
    ensures var n := |r| - |Undefineds(items)|;
      0 <= n && Ordered(r[..n])
      && (forall i :: 0 <= i < |r| ==> (r[i].Undef? <==> i >= n))
  {
    var d := SortDefined(Defined(items));
    var u := Undefineds(items);
    DefinedHasNoUndefined(items, d);
    assert (d + u)[..|d|] == d;
    d + u
  }

  lemma DefinedHasNoUndefined(items: seq<Val>, d: seq<Val>)
    requires multiset(d) == multiset(Defined(items))
    ensures forall i :: 0 <= i < |d| ==> !d[i].Undef?
    ensures |d| + |Undefineds(items)| == |items|
  {
    forall i | 0 <= i < |d| ensures !d[i].Undef? {
      assert d[i] in multiset(d);
      assert d[i] in Defined(items);
    }
    assert |multiset(d)| == |d|;
    assert |multiset(Defined(items))| + |multiset(Undefineds(items))| == |multiset(items)|;
  }
}
