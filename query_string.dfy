/** The query-string decoder of the signing library: `convertQueryStringToObject`
    and `convertUrlToObject`, which turn `a=1&b=2` into an object whose values
    are decoded strings, or lists of them for a repeated key, and `getBaseUrl`. */
module QueryString {
  import opened JsValues
  import opened PercentCodec

  /** `const [key, value] = pair.split('=')`: the text before the first '='. */
  function PairKey(pair: string): string {
    Split(pair, '=')[0]
  }

  /** The text between the first and the second '=', None (undefined) when
      the pair has no '='. Anything after a second '=' is dropped. */
  function PairValue(pair: string): Option<string> {
    var parts := Split(pair, '=');
    if |parts| >= 2 then Some(parts[1]) else None
  }

  /** `acc[key]` on the accumulator's own keys: undefined for a key not yet
      seen. Keys naming members of `Object.prototype` are outside this
      model. */
  function Lookup(acc: map<string, Val>, key: string): Val {
    if key in acc then acc[key] else Undef
  }

  /** The value stored for a key when `decoded` is added to the existing one:
      a falsy existing value (absent or "") is replaced, a truthy string is
      wrapped in a list, and a list grows. */
  function AddValue(existing: Val, decoded: string): (r: Val)
    ensures Truthy(existing) && existing.Arr? ==> r == Arr(existing.items + [Str(decoded)])
  {
    if Truthy(existing) then
      (if existing.Arr? then Arr(existing.items + [Str(decoded)]) else Arr([existing, Str(decoded)]))
    else Str(decoded)
  }

  /** One step of the `reduce`; None is the URIError thrown by
      `decodeURIComponent`. */
  function AddPair(acc: map<string, Val>, pair: string): Option<map<string, Val>> {
    var key := PairKey(pair);
    match Decode(PairValue(pair).GetOr(""))
    case None => None
    case Some(d) => Some(acc[key := AddValue(Lookup(acc, key), d)])
  }

  /** The `reduce` over the pairs, left to right, stopping at the first error. */
  function ParsePairs(pairs: seq<string>): Option<map<string, Val>>
    decreases |pairs|
  {
    if pairs == [] then Some(map[])
    else match ParsePairs(pairs[..|pairs| - 1])
      case None => None
      case Some(acc) => AddPair(acc, pairs[|pairs| - 1])
  }

  /** `convertQueryStringToObject(queryString)` */
  function ParseQuery(queryString: string): Option<map<string, Val>> {
    ParsePairs(Split(queryString, '&'))
  }

  /** `convertQueryStringToObject`, filling the accumulator pair by pair. */
  method ConvertQueryStringToObject(queryString: string) returns (r: Option<map<string, Val>>)
    ensures r == ParseQuery(queryString)
  {
    var pairs := Split(queryString, '&');
    var acc: map<string, Val> := map[];
    var i := 0;
    while i < |pairs|
      invariant 0 <= i <= |pairs|
      invariant ParsePairs(pairs[..i]) == Some(acc)
    {
      assert pairs[..i + 1][..i] == pairs[..i];
      var pair := pairs[i];
      var key := PairKey(pair);
      var decoded := Decode(PairValue(pair).GetOr(""));
      if decoded.None? {
        assert ParsePairs(pairs[..i + 1]) == None;
        ParsePairsPrefixNone(pairs, i + 1);
        assert pairs[..|pairs|] == pairs;
        return None;
      }
      ghost var before := acc;
      acc := StoreDecoded(acc, key, decoded.value);
      assert AddPair(before, pair) == Some(acc);
      i := i + 1;
    }
    assert pairs[..i] == pairs;
    r := Some(acc);
  }

  /** The body of the `reduce` callback once the value has decoded:
      `acc[key]` becomes a string, is wrapped in a list, or grows. */
  method StoreDecoded(acc: map<string, Val>, key: string, decoded: string) returns (r: map<string, Val>)
    ensures r == acc[key := AddValue(Lookup(acc, key), decoded)]
  {
    var existing := Lookup(acc, key);
    r := acc;
    if Truthy(existing) {
      if !existing.Arr? {
        r := r[key := Arr([existing])];
      }
      r := r[key := Arr(r[key].items + [Str(decoded)])];
      assert !existing.Arr? ==> [existing] + [Str(decoded)] == [existing, Str(decoded)];
    } else {
      r := r[key := Str(decoded)];
    }
  }

  /** Once a prefix fails to decode, the whole query fails. */
  lemma {:induction false} ParsePairsPrefixNone(pairs: seq<string>, n: nat)
    requires n <= |pairs|
    requires ParsePairs(pairs[..n]) == None
    ensures ParsePairs(pairs) == None
    decreases |pairs| - n
  {
    if n < |pairs| {
      assert pairs[..n + 1][..n] == pairs[..n];
      ParsePairsPrefixNone(pairs, n + 1);
    } else {
      assert pairs[..n] == pairs;
    }
  }

  /** `getBaseUrl(url)`: the text before the first '?'. */
  function BaseUrl(url: string): (r: string)
    ensures '?' !in r
    ensures r == url || StartsWith(url, r + "?")
  {
    var parts := Split(url, '?');
    BaseUrlPrefix(url);
    parts[0]
  }

  lemma {:induction false} BaseUrlPrefix(url: string)
    ensures var b := Split(url, '?')[0]; b == url || StartsWith(url, b + "?")
    decreases |url|
  {
    if url != [] && url[0] != '?' {
      BaseUrlPrefix(url[1..]);
      assert url == [url[0]] + url[1..];
    }
  }

  /** `convertUrlToObject(url)`: only the text between the first and the
      second '?' is read. */
  function UrlToObject(url: string): Option<map<string, Val>> {
    var parts := Split(url, '?');
    if |parts| == 1 then Some(map[]) else ParseQuery(parts[1])
  }

  // ---------------------------------------------------------------------
  // What the decoder computes, key by key

  /** The decoded `(key, value)` pairs of a query, or None if a value does
      not decode. */
  function DecodedPairs(pairs: seq<string>): Option<seq<(string, string)>>
    decreases |pairs|
  {
    if pairs == [] then Some([])
    else match DecodedPairs(pairs[..|pairs| - 1])
      case None => None
      case Some(kvs) =>
        var last := pairs[|pairs| - 1];
        match Decode(PairValue(last).GetOr(""))
        case None => None
        case Some(d) => Some(kvs + [(PairKey(last), d)])
  }

  /** The values given for one key, in the order they appear. */
  function ValuesFor(kvs: seq<(string, string)>, key: string): (vs: seq<string>)
    ensures |vs| <= |kvs|
    decreases |kvs|
  {
    if kvs == [] then []
    else ValuesFor(kvs[..|kvs| - 1], key)
         + (if kvs[|kvs| - 1].0 == key then [kvs[|kvs| - 1].1] else [])
  }

  function FirstNonEmpty(vs: seq<string>): (r: Option<nat>)
    ensures r.Some? ==> (r.value < |vs| && vs[r.value] != ""
                         && forall i :: 0 <= i < r.value ==> vs[i] == "")
    ensures r.None? ==> forall i :: 0 <= i < |vs| ==> vs[i] == ""
    decreases |vs|
  {
    if vs == [] then None
    else if vs[0] != "" then Some(0)
    else match FirstNonEmpty(vs[1..])
      case None => None
      case Some(j) => Some(j + 1)
  }

  /** The value a key ends up with, given all the values it was given:
      empty values before the first non-empty one are forgotten; from the
      first non-empty value on, every value is kept, in a list as soon as
      there are two of them. */
  function Collected(vs: seq<string>): (r: Val)
    requires vs != []
  {
    match FirstNonEmpty(vs)
    case None => Str(vs[|vs| - 1])
    case Some(j) =>
      if j == |vs| - 1 then Str(vs[j])
      else Arr(seq(|vs| - j, i requires 0 <= i < |vs| - j => Str(vs[j + i])))
  }

  /** The decoder's step, repeated, yields Collected. */
  lemma {:induction false} AddValueCollects(vs: seq<string>, v: string)
    requires vs != []
    ensures AddValue(Collected(vs), v) == Collected(vs + [v])
  {
    var ws := vs + [v];
    assert ws[..|vs|] == vs;
    FirstNonEmptyAppend(vs, v);
    match FirstNonEmpty(vs)
    case None =>
    case Some(j) =>
      if j < |vs| - 1 {
        assert Collected(vs).items + [Str(v)] == Collected(ws).items;
      } else {
        assert Collected(ws) == Arr([Str(vs[j]), Str(v)]);
      }
  }

  lemma {:induction false} FirstNonEmptyAppend(vs: seq<string>, v: string)
    ensures FirstNonEmpty(vs).Some? ==> FirstNonEmpty(vs + [v]) == FirstNonEmpty(vs)
    ensures FirstNonEmpty(vs).None? && v != "" ==> FirstNonEmpty(vs + [v]) == Some(|vs|)
    ensures FirstNonEmpty(vs).None? && v == "" ==> FirstNonEmpty(vs + [v]) == None
    decreases |vs|
  {
    if vs != [] {
      assert (vs + [v])[1..] == vs[1..] + [v];
      FirstNonEmptyAppend(vs[1..], v);
    }
  }

  lemma ValuesForAppend(kvs: seq<(string, string)>, key: string, d: string, k: string)
    ensures ValuesFor(kvs + [(key, d)], k) == ValuesFor(kvs, k) + (if k == key then [d] else [])
  {
    assert (kvs + [(key, d)])[..|kvs|] == kvs;
  }

  /** The decoder fails exactly when some value fails to decode. */
  lemma {:induction false} ParsePairsFails(pairs: seq<string>)
    ensures ParsePairs(pairs).Some? <==> DecodedPairs(pairs).Some?
    ensures DecodedPairs(pairs).Some? ==> |DecodedPairs(pairs).value| == |pairs|
    decreases |pairs|
  {
    if pairs != [] {
      ParsePairsFails(pairs[..|pairs| - 1]);
    }
  }

  /** m holds, for every key the pairs name, Collected of that key's values. */
  ghost predicate Agrees(m: map<string, Val>, kvs: seq<(string, string)>) {
    (forall k :: ValuesFor(kvs, k) != [] ==> k in m)
    && (forall k :: k in m ==> ValuesFor(kvs, k) != [] && m[k] == Collected(ValuesFor(kvs, k)))
  }

  lemma CollectedSingle(d: string)
    ensures Collected([d]) == Str(d)
  {
    assert [d][1..] == [];
  }

  lemma AddPairAgrees(acc: map<string, Val>, kvs: seq<(string, string)>, key: string, d: string)
    requires Agrees(acc, kvs)
    ensures Agrees(acc[key := AddValue(Lookup(acc, key), d)], kvs + [(key, d)])
  {
    var m := acc[key := AddValue(Lookup(acc, key), d)];
    var kvs' := kvs + [(key, d)];
    forall k | ValuesFor(kvs', k) != [] ensures k in m {
      ValuesForAppend(kvs, key, d, k);
    }
    forall k | k in m
      ensures ValuesFor(kvs', k) != [] && m[k] == Collected(ValuesFor(kvs', k))
    {
      ValuesForAppend(kvs, key, d, k);
      if k == key {
        if key in acc {
          AddValueCollects(ValuesFor(kvs, key), d);
        } else {
          assert ValuesFor(kvs, key) == [];
          assert ValuesFor(kvs', key) == [d];
          CollectedSingle(d);
        }
      } else {
        assert ValuesFor(kvs', k) == ValuesFor(kvs, k);
      }
    }
  }

  /** Every value of a decoded query, key by key: a key is present exactly
      when some pair names it, and its value is Collected of the values the
      pairs gave it, in order. */
  lemma {:induction false} ParsePairsByKey(pairs: seq<string>)
    requires ParsePairs(pairs).Some?
    ensures DecodedPairs(pairs).Some?
    ensures Agrees(ParsePairs(pairs).value, DecodedPairs(pairs).value)
    decreases |pairs|
  {
    ParsePairsFails(pairs);
    if pairs != [] {
      var init := pairs[..|pairs| - 1];
      var last := pairs[|pairs| - 1];
      ParsePairsFails(init);
      ParsePairsByKey(init);
      var acc, kvs0 := ParsePairs(init).value, DecodedPairs(init).value;
      var d := Decode(PairValue(last).GetOr("")).value;
      AddPairAgrees(acc, kvs0, PairKey(last), d);
    }
  }

  /** The decoded pairs keep the pairs' keys. */
  lemma {:induction false} DecodedPairsKeys(pairs: seq<string>)
    requires DecodedPairs(pairs).Some?
    ensures var kvs := DecodedPairs(pairs).value;
      |kvs| == |pairs| && forall i :: 0 <= i < |pairs| ==> kvs[i].0 == PairKey(pairs[i])
    decreases |pairs|
  {
    if pairs != [] {
      var init := pairs[..|pairs| - 1];
      DecodedPairsKeys(init);
      ParsePairsFails(init);
    }
  }

  /** A key given several non-empty values collects all of them, in order. */
  lemma CollectedNonEmpty(vs: seq<string>)
    requires 2 <= |vs|
    requires forall i :: 0 <= i < |vs| ==> vs[i] != ""
    ensures Collected(vs) == Arr(seq(|vs|, i requires 0 <= i < |vs| => Str(vs[i])))
  {
    assert FirstNonEmpty(vs) == Some(0);
  }

  /** An empty first value is replaced, not collected: `a=&a=x` gives `a: "x"`. */
  lemma CollectedAfterEmpty()
    ensures Collected(["", "x"]) == Str("x")
  {
    assert FirstNonEmpty(["", "x"]) == Some(1) by {
      assert ["", "x"][1..] == ["x"];
    }
  }

  // ---------------------------------------------------------------------
  // Round trip with percent-encoding

  /** `k=enc(v)` for each entry. */
  function QueryPairs(kvs: seq<(string, string)>): (ps: seq<string>)
    ensures |ps| == |kvs|
  {
    seq(|kvs|, i requires 0 <= i < |kvs| => kvs[i].0 + "=" + Escape(kvs[i].1))
  }

  predicate DistinctKeys(kvs: seq<(string, string)>) {
    forall i, j :: 0 <= i < j < |kvs| ==> kvs[i].0 != kvs[j].0
  }

  /** Keys that can stand in a query unescaped. */
  predicate PlainKeys(kvs: seq<(string, string)>) {
    forall i :: 0 <= i < |kvs| ==> '&' !in kvs[i].0 && '=' !in kvs[i].0
  }

  function MapOf(kvs: seq<(string, string)>): map<string, Val>
    decreases |kvs|
  {
    if kvs == [] then map[] else MapOf(kvs[..|kvs| - 1])[kvs[|kvs| - 1].0 := Str(kvs[|kvs| - 1].1)]
  }

  lemma PairSplits(k: string, v: string)
    requires '=' !in k
    ensures PairKey(k + "=" + Escape(v)) == k
    ensures PairValue(k + "=" + Escape(v)) == Some(Escape(v))
  {
    EscapedHasNo(v, '=');
    SplitAfterFirst(k, '=', Escape(v));
    SplitNoSeparator(Escape(v), '=');
  }

  lemma MapOfKeys(kvs: seq<(string, string)>)
    ensures forall k :: k in MapOf(kvs) <==> exists i :: 0 <= i < |kvs| && kvs[i].0 == k
  {
    if kvs != [] {
      var init := kvs[..|kvs| - 1];
      MapOfKeys(init);
      forall k | k in MapOf(kvs) ensures exists i :: 0 <= i < |kvs| && kvs[i].0 == k {
        if k != kvs[|kvs| - 1].0 {
          assert k in MapOf(init);
          var i :| 0 <= i < |init| && init[i].0 == k;
          assert kvs[i].0 == k;
        }
      }
    }
  }

  lemma {:induction false} ParseQueryPairs(kvs: seq<(string, string)>)
    requires DistinctKeys(kvs) && PlainKeys(kvs)
    ensures ParsePairs(QueryPairs(kvs)) == Some(MapOf(kvs))
    decreases |kvs|
  {
    if kvs != [] {
      var n := |kvs| - 1;
      var init := kvs[..n];
      assert QueryPairs(kvs)[..n] == QueryPairs(init);
      ParseQueryPairs(init);
      PairSplits(kvs[n].0, kvs[n].1);
      DecodeOfEscape(kvs[n].1);
      MapOfKeys(init);
      assert kvs[n].0 !in MapOf(init);
    }
  }

  /** A query written as `k1=enc(v1)&k2=enc(v2)...` with distinct plain keys
      decodes to exactly `{k1: v1, k2: v2, ...}`. */
  lemma ParseQueryRoundTrip(kvs: seq<(string, string)>)
    requires 1 <= |kvs|
    requires DistinctKeys(kvs) && PlainKeys(kvs)
    ensures ParseQuery(Join(QueryPairs(kvs), "&")) == Some(MapOf(kvs))
  {
    var ps := QueryPairs(kvs);
    forall i | 0 <= i < |ps| ensures '&' !in ps[i] {
      PairHasNoAmpersand(kvs[i].0, kvs[i].1);
    }
    assert "&" == ['&'];
    SplitJoin(ps, '&');
    assert Split(Join(ps, "&"), '&') == ps;
    ParseQueryPairs(kvs);
  }

  /** A written pair `k=enc(v)` with a plain key holds no `&`. */
  lemma PairHasNoAmpersand(k: string, v: string)
    requires '&' !in k
    ensures '&' !in k + "=" + Escape(v)
  {
    EscapedHasNo(v, '&');
  }

  /** A URL `base?query` with no further '?' splits into its base and the
      decoded query. */
  lemma UrlSplits(base: string, query: string)
    requires '?' !in base && '?' !in query
    ensures BaseUrl(base + "?" + query) == base
    ensures UrlToObject(base + "?" + query) == ParseQuery(query)
  {
    SplitAfterFirst(base, '?', query);
    SplitNoSeparator(query, '?');
  }

  /** A URL without '?' has no query parameters and is its own base. */
  lemma UrlWithoutQuery(url: string)
    requires '?' !in url
    ensures BaseUrl(url) == url
    ensures UrlToObject(url) == Some(map[])
  {
    SplitNoSeparator(url, '?');
  }
}
