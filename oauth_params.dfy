/** The request-parameter side of the OAuth 1.0 signing library: encoding
    parameters, sorting them, writing the parameter string and the signature
    base string of section 3.4.1 of RFC 5849, and the nonce. */
module OauthParams {
  import opened JsValues
  import opened StringOrder
  import opened PercentCodec
  import opened QueryString
  import opened ArraySort

  // ---------------------------------------------------------------------
  // percentEncode and percentEncodeData

  /** `String(v)`, where an absent argument falls back to the default `''`. */
  function ArgString(v: Val): string {
    if v.Undef? then "" else ToJsString(v)
  }

  /** `percentEncode(v)`: the RFC 5849 escape of the value's string form. */
  function PercentEncodeValue(v: Val): (r: string)
    ensures r == Escape(ArgString(v))
    ensures v.Undef? ==> r == ""
  {
    PercentEncodeIsEscape(ArgString(v));
    PercentEncode(ArgString(v))
  }

  /** An encoded value never holds "&", so it can separate encoded values. */
  lemma EncodedHasNoAmpersand(v: Val)
    ensures '&' !in PercentEncodeValue(v)
  {
    EscapedHasNo(ArgString(v), '&');
  }

  lemma EscapeInjective(a: string, b: string)
    requires Escape(a) == Escape(b)
    ensures a == b
  {
    DecodeOfEscape(a);
    DecodeOfEscape(b);
  }

  /** The encoded strings of a list's elements. */
  function EncodedItems(items: seq<Val>): (r: seq<string>)
    ensures |r| == |items|
    ensures forall i :: 0 <= i < |items| ==> r[i] == Escape(ArgString(items[i]))
  {
    seq(|items|, i requires 0 <= i < |items| => PercentEncodeValue(items[i]))
  }

  /** The value `percentEncodeData` stores for one entry: a list's elements
      are encoded one by one, joined with "," and the result encoded again. */
  function EncodeEntryValue(v: Val): (r: string)
    ensures !v.Arr? ==> r == Escape(ArgString(v))
    ensures v.Arr? ==> r == Escape(Join(EncodedItems(v.items), ","))
  {
    if v.Arr? then
      var encoded := EncodedItems(v.items);
      var strs := seq(|encoded|, i requires 0 <= i < |encoded| => Str(encoded[i]));
      assert ToJsString(Arr(strs)) == Join(encoded, ",") by {
        assert seq(|strs|, i requires 0 <= i < |strs| =>
          if Nullish(strs[i]) then "" else ToJsString(strs[i])) == encoded;
      }
      PercentEncodeValue(Arr(strs))
    else PercentEncodeValue(v)
  }

  lemma EscapeDistinct(a: string, b: string)
    requires a != b
    ensures Escape(a) != Escape(b)
  {
    if Escape(a) == Escape(b) { EscapeInjective(a, b); }
  }

  ghost predicate InjectiveOn<K>(keys: set<K>, f: K -> string) {
    forall a, b :: a in keys && b in keys && f(a) == f(b) ==> a == b
  }

  /** k' is f of one of data's keys. */
  ghost predicate KeyImage<K, V>(data: map<K, V>, f: K -> string, k': string) {
    exists k :: k in data && k' == f(k)
  }

  /** The entries of data with each key k renamed to f(k) and each value
      v replaced by g(v); f must not make two keys collide. */
  function Rekey<K, V, W>(data: map<K, V>, f: K -> string, g: V -> W): (r: map<string, W>)
    requires InjectiveOn(data.Keys, f)
    ensures forall k {:trigger data[k]} :: k in data ==> f(k) in r && r[f(k)] == g(data[k])
    ensures forall k' :: k' in r ==> KeyImage(data, f, k')
  {
    map k | k in data :: f(k) := g(data[k])
  }

  /** Adding one entry to data adds exactly its renamed key and new value. */
  lemma RekeyAdd<K, V, W>(data: map<K, V>, k: K, v: V, f: K -> string, g: V -> W)
    requires k !in data && InjectiveOn(data[k := v].Keys, f)
    ensures InjectiveOn(data.Keys, f)
    ensures Rekey(data[k := v], f, g) == Rekey(data, f, g)[f(k) := g(v)]
  {
    var lhs, rhs := Rekey(data[k := v], f, g), Rekey(data, f, g)[f(k) := g(v)];
    forall k' | k' in lhs ensures k' in rhs && lhs[k'] == rhs[k'] {
      assert KeyImage(data[k := v], f, k');
      var j :| j in data[k := v] && k' == f(j);
      if j != k {
        assert data[k := v][j] == data[j];
      }
    }
    forall k' | k' in rhs ensures k' in lhs {
      if k' != f(k) {
        assert KeyImage(data, f, k');
        var j :| j in data && k' == f(j);
        assert data[k := v][j] == data[j];
      }
    }
    assert lhs.Keys == rhs.Keys;
  }

  lemma EscapeInjectiveOn<V>(data: map<string, V>)
    ensures InjectiveOn(data.Keys, Escape)
  {
    forall a, b | a in data && b in data && Escape(a) == Escape(b) ensures a == b {
      EscapeInjective(a, b);
    }
  }

  /** The value `percentEncodeData` stores for one entry, as a string value. */
  function EncodedValue(v: Val): Val {
    Str(EncodeEntryValue(v))
  }

  /** `percentEncodeData(data)`: every key and every value encoded. */
  function EncodeData(data: map<string, Val>): (r: map<string, Val>)
    ensures forall k {:trigger data[k]} :: k in data ==> Escape(k) in r && r[Escape(k)] == Str(EncodeEntryValue(data[k]))
    ensures forall k' :: k' in r ==> KeyImage(data, Escape, k') && r[k'].Str?
  {
    EscapeInjectiveOn(data);
    var r := Rekey(data, Escape, EncodedValue);
    forall k' | k' in r ensures r[k'].Str? {
      assert KeyImage(data, Escape, k');
    }
    r
  }

  /** Encoding one more entry adds exactly its encoded key and value. */
  lemma EncodeDataAdd(m: map<string, Val>, k: string, v: Val)
    requires k !in m
    ensures EncodeData(m[k := v]) == EncodeData(m)[Escape(k) := Str(EncodeEntryValue(v))]
  {
    EscapeInjectiveOn(m[k := v]);
    RekeyAdd(m, k, v, Escape, EncodedValue);
  }

  lemma TakeOneMore<K, V>(data: map<K, V>, todo: set<K>, key: K)
    requires key in todo && todo <= data.Keys
    ensures key !in data - todo
    ensures (data - todo)[key := data[key]] == data - (todo - {key})
  {
  }

  /** One step of `percentEncodeData`: moving key from the keys still to do
      to the keys done adds its encoded entry. */
  lemma EncodeDataStep(data: map<string, Val>, todo: set<string>, key: string)
    requires key in todo && todo <= data.Keys
    ensures EncodeData(data - (todo - {key}))
      == EncodeData(data - todo)[PercentEncode(key) := Str(EncodeEntryValue(data[key]))]
  {
    TakeOneMore(data, todo, key);
    EncodeDataAdd(data - todo, key, data[key]);
    PercentEncodeIsEscape(key);
  }

  /** `percentEncodeData`, assigning one encoded entry at a time. */
  method PercentEncodeData(data: map<string, Val>) returns (acc: map<string, Val>)
    ensures acc == EncodeData(data)
  {
    acc := map[];
    var todo := data.Keys;
    assert data - todo == map[];
    while todo != {}
      invariant todo <= data.Keys
      invariant acc == EncodeData(data - todo)
      decreases todo
    {
      var key :| key in todo;
      EncodeDataStep(data, todo, key);
      acc := acc[PercentEncode(key) := Str(EncodeEntryValue(data[key]))];
      todo := todo - {key};
    }
    assert data - todo == data;
  }

  // ---------------------------------------------------------------------
  // sortObjectProperties and mergeObjects

  /** `{ key, value }` */
  datatype Entry = Entry(key: string, value: Val)

  /** The keys of a list of entries, in order. */
  function EntryKeys(entries: seq<Entry>): (r: seq<string>)
    ensures |r| == |entries|
    ensures forall i :: 0 <= i < |entries| ==> r[i] == entries[i].key
  {
    seq(|entries|, i requires 0 <= i < |entries| => entries[i].key)
  }

  predicate KeysAscending(entries: seq<Entry>) {
    StrictlyAscending(EntryKeys(entries))
  }

  /** `sortObjectProperties(data)`: one entry per key, in sort order. */
  function SortedEntries(data: map<string, Val>): (r: seq<Entry>)
    ensures EntryKeys(r) == SortedKeys(data.Keys)
    ensures |r| == |data|
    ensures forall i :: 0 <= i < |r| ==> r[i].key in data && r[i].value == data[r[i].key]
    ensures forall k :: k in data ==> k in EntryKeys(r)
    ensures KeysAscending(r)
  {
    var keys := SortedKeys(data.Keys);
    var r := seq(|keys|, i requires 0 <= i < |keys| => Entry(keys[i], data[keys[i]]));
    assert EntryKeys(r) == keys;
    r
  }

  /** The i-th sorted entry holds the i-th sorted key and its value. */
  lemma EntryAt(data: map<string, Val>, i: nat)
    requires i < |data|
    ensures var keys := SortedKeys(data.Keys);
      keys[i] in data && SortedEntries(data)[i] == Entry(keys[i], data[keys[i]])
  {
    var keys := SortedKeys(data.Keys);
    assert keys[i] in keys;
    assert EntryKeys(SortedEntries(data))[i] == keys[i];
  }

  /** The entries of a map with three keys, in their sort order. */
  lemma SortedEntriesThree(data: map<string, Val>, k0: string, k1: string, k2: string)
    requires SortedKeys(data.Keys) == [k0, k1, k2]
    ensures k0 in data && k1 in data && k2 in data
    ensures SortedEntries(data) == [Entry(k0, data[k0]), Entry(k1, data[k1]), Entry(k2, data[k2])]
  {
    var entries := SortedEntries(data);
    assert |entries| == |SortedKeys(data.Keys)| == 3;
    EntryAt(data, 0);
    EntryAt(data, 1);
    EntryAt(data, 2);
    assert entries == [entries[0], entries[1], entries[2]];
  }

  /** Two key-ascending entry lists with the same keys, which agree on the
      value of every key, are the same list. */
  lemma EntriesDetermined(a: seq<Entry>, b: seq<Entry>)
    requires KeysAscending(a) && KeysAscending(b)
    requires forall k :: k in EntryKeys(a) <==> k in EntryKeys(b)
    requires forall i, j :: 0 <= i < |a| && 0 <= j < |b| && a[i].key == b[j].key ==> a[i].value == b[j].value
    ensures a == b
  {
    AscendingUnique(EntryKeys(a), EntryKeys(b));
    forall i | 0 <= i < |a| ensures a[i] == b[i] {
      assert EntryKeys(a)[i] == EntryKeys(b)[i];
    }
  }

  /** `.filter(item => item.key.startsWith('oauth_'))` */
  function OauthEntries(entries: seq<Entry>): (r: seq<Entry>)
    ensures forall i :: 0 <= i < |r| ==> r[i] in entries && StartsWith(r[i].key, "oauth_")
    ensures forall e :: e in entries && StartsWith(e.key, "oauth_") ==> e in r
    decreases |entries|
  {
    if entries == [] then []
    else (if StartsWith(entries[0].key, "oauth_") then [entries[0]] else []) + OauthEntries(entries[1..])
  }

  lemma HeadBelowRest(entries: seq<Entry>)
    requires entries != [] && KeysAscending(entries)
    ensures KeysAscending(entries[1..])
    ensures forall e :: e in entries[1..] ==> Below(entries[0].key, e.key)
  {
    assert EntryKeys(entries[1..]) == EntryKeys(entries)[1..];
    forall e | e in entries[1..] ensures Below(entries[0].key, e.key) {
      var j :| 0 <= j < |entries| - 1 && entries[1..][j] == e;
      assert EntryKeys(entries)[j + 1] == e.key;
    }
  }

  /** Filtering keeps the entries in ascending key order. */
  lemma {:induction false} OauthEntriesAscending(entries: seq<Entry>)
    requires KeysAscending(entries)
    ensures KeysAscending(OauthEntries(entries))
    decreases |entries|
  {
    if entries != [] {
      HeadBelowRest(entries);
      OauthEntriesAscending(entries[1..]);
      var rest := OauthEntries(entries[1..]);
      if StartsWith(entries[0].key, "oauth_") {
        assert OauthEntries(entries) == [entries[0]] + rest;
        forall e | e in rest ensures Below(entries[0].key, e.key) {
          var i :| 0 <= i < |rest| && rest[i] == e;
          assert e in entries[1..];
        }
        ConsAscending(entries[0], rest);
      } else {
        assert OauthEntries(entries) == rest;
      }
    }
  }

  /** An entry below every entry of an ascending list can go in front. */
  lemma ConsAscending(e: Entry, rest: seq<Entry>)
    requires KeysAscending(rest)
    requires forall x :: x in rest ==> Below(e.key, x.key)
    ensures KeysAscending([e] + rest)
  {
    var r := [e] + rest;
    forall i, j | 0 <= i < j < |r| ensures Below(EntryKeys(r)[i], EntryKeys(r)[j]) {
      assert r[j] == rest[j - 1] && rest[j - 1] in rest;
      if i > 0 {
        assert EntryKeys(rest)[i - 1] == r[i].key && EntryKeys(rest)[j - 1] == r[j].key;
      }
    }
  }

  /** `sortObjectProperties`, pushing one entry per sorted key. */
  method SortObjectProperties(data: map<string, Val>) returns (acc: seq<Entry>)
    ensures acc == SortedEntries(data)
  {
    var keys := SortedKeys(data.Keys);
    acc := [];
    var i := 0;
    while i < |keys|
      invariant 0 <= i <= |keys|
      invariant |acc| == i
      invariant forall j :: 0 <= j < i ==> acc[j] == Entry(keys[j], data[keys[j]])
    {
      acc := acc + [Entry(keys[i], data[keys[i]])];
      i := i + 1;
    }
  }

  /** `mergeObjects(one, two)`: `{...one, ...two}`, so fields of `two` win. */
  function MergeObjects(one: Val, two: Val): (r: map<string, Val>)
    ensures forall k :: k in r <==> k in Spread(one) || k in Spread(two)
    ensures forall k {:trigger r[k]} :: k in Spread(two) ==> r[k] == Spread(two)[k]
    ensures forall k {:trigger r[k]} :: k in Spread(one) && k !in Spread(two) ==> r[k] == Spread(one)[k]
  {
    Spread(one) + Spread(two)
  }

  // ---------------------------------------------------------------------
  // getDataAsParameterString

  /** `${key}=${value}` */
  function PairString(key: string, v: Val): string {
    key + "=" + ToJsString(v)
  }

  /** One `key=item` per list element, joined with "&" and with no trailing "&". */
  function ArrayPairs(key: string, items: seq<Val>): string {
    Join(seq(|items|, i requires 0 <= i < |items| => PairString(key, items[i])), "&")
  }

  /** What one entry appends to the accumulator. A list value is sorted first
      and, unlike a single value, is not followed by "&". */
  function EntryPiece(e: Entry): string {
    if e.value.Arr? then ArrayPairs(e.key, JsSort(e.value.items))
    else PairString(e.key, e.value) + "&"
  }

  /** The `reduce` over the entries, left to right. */
  function Accumulated(data: seq<Entry>): string
    decreases |data|
  {
    if data == [] then "" else Accumulated(data[..|data| - 1]) + EntryPiece(data[|data| - 1])
  }

  /** `getDataAsParameterString(data)`: the accumulated string with its last
      character removed. */
  function ParameterString(data: seq<Entry>): string {
    var s := Accumulated(data);
    SliceTo(s, |s| - 1)
  }

  /** The entries as the caller sees them afterwards: `value.sort()` sorts
      each list value in place. */
  function SortedInPlace(data: seq<Entry>): (r: seq<Entry>)
    ensures |r| == |data|
    ensures forall i :: 0 <= i < |data| ==> r[i].key == data[i].key
    ensures forall i :: 0 <= i < |data| && !data[i].value.Arr? ==> r[i] == data[i]
    ensures forall i :: 0 <= i < |data| && data[i].value.Arr? ==>
      r[i].value.Arr? && multiset(r[i].value.items) == multiset(data[i].value.items)
  {
    seq(|data|, i requires 0 <= i < |data| =>
      if data[i].value.Arr? then Entry(data[i].key, Arr(JsSort(data[i].value.items))) else data[i])
  }

  /** `getDataAsParameterString`: appends each entry's piece, sorting list
      values in place, then drops the last character. Returns the string and
      the entries as they are after the call. */
  method GetDataAsParameterString(data: seq<Entry>) returns (s: string, after: seq<Entry>)
    ensures s == ParameterString(data)
    ensures after == SortedInPlace(data)
  {
    var acc := "";
    after := [];
    var i := 0;
    while i < |data|
      invariant 0 <= i <= |data|
      invariant acc == Accumulated(data[..i])
      invariant after == SortedInPlace(data)[..i]
    {
      AccumulatedStep(data, i);
      PrefixStep(SortedInPlace(data), i);
      var e := data[i];
      if e.value.Arr? {
        var sorted := JsSort(e.value.items);
        var valString := ArrayPairs(e.key, sorted);
        acc := acc + valString;
        after := after + [Entry(e.key, Arr(sorted))];
      } else {
        acc := acc + (e.key + "=" + ToJsString(e.value) + "&");
        after := after + [e];
      }
      i := i + 1;
    }
    assert data[..i] == data;
    s := SliceTo(acc, |acc| - 1);
  }

  lemma AccumulatedStep(data: seq<Entry>, i: nat)
    requires i < |data|
    ensures Accumulated(data[..i + 1]) == Accumulated(data[..i]) + EntryPiece(data[i])
  {
    assert data[..i + 1][..i] == data[..i];
  }

  lemma PrefixStep<T>(s: seq<T>, i: nat)
    requires i < |s|
    ensures s[..i + 1] == s[..i] + [s[i]]
  {
  }

  /** The `key=value` strings of scalar entries. */
  function Pairs(data: seq<Entry>): (r: seq<string>)
    ensures |r| == |data|
  {
    seq(|data|, i requires 0 <= i < |data| => PairString(data[i].key, data[i].value))
  }

  predicate NoListValues(data: seq<Entry>) {
    forall i :: 0 <= i < |data| ==> !data[i].value.Arr?
  }

  lemma {:induction false} AccumulatedScalars(data: seq<Entry>)
    requires data != [] && NoListValues(data)
    ensures Accumulated(data) == Join(Pairs(data), "&") + "&"
    decreases |data|
  {
    var n := |data| - 1;
    var last := PairString(data[n].key, data[n].value);
    assert Accumulated(data) == Accumulated(data[..n]) + last + "&";
    if n == 0 {
      assert Pairs(data) == [last];
    } else {
      var init := data[..n];
      assert NoListValues(init) by {
        forall i | 0 <= i < n ensures !init[i].value.Arr? {
          assert init[i] == data[i];
        }
      }
      AccumulatedScalars(init);
      PairsLast(data);
      JoinAppend(Pairs(init), last, "&");
    }
  }

  lemma PairsLast(data: seq<Entry>)
    requires data != []
    ensures var n := |data| - 1;
      Pairs(data) == Pairs(data[..n]) + [PairString(data[n].key, data[n].value)]
  {
    var n := |data| - 1;
    var a, b := Pairs(data), Pairs(data[..n]) + [PairString(data[n].key, data[n].value)];
    forall i | 0 <= i < |a| ensures a[i] == b[i] {
      if i < n {
        assert data[..n][i] == data[i];
      }
    }
  }

  /** Without list values, the parameter string is the `key=value` pairs
      joined with "&", and "" when there are none. */
  lemma ParameterStringScalars(data: seq<Entry>)
    requires NoListValues(data)
    ensures ParameterString(data) == Join(Pairs(data), "&")
  {
    if data != [] {
      AccumulatedScalars(data);
      var j := Join(Pairs(data), "&");
      assert (j + "&")[..|j + "&"| - 1] == j;
    }
  }

  /** A list value that comes last loses its final character to the slice. */
  lemma TrailingListLosesLastChar(init: seq<Entry>, key: string, items: seq<Val>)
    ensures var s := Accumulated(init) + ArrayPairs(key, JsSort(items));
      ParameterString(init + [Entry(key, Arr(items))]) == SliceTo(s, |s| - 1)
  {
    var e := Entry(key, Arr(items));
    var d := init + [e];
    assert d[..|d| - 1] == init && d[|d| - 1] == e;
    assert Accumulated(d) == Accumulated(init) + EntryPiece(e);
  }

  /** A list value is glued to the entry after it, with no "&" between. */
  lemma ListGluedToNext(init: seq<Entry>, key: string, items: seq<Val>, next: Entry)
    requires !next.value.Arr?
    ensures Accumulated(init + [Entry(key, Arr(items)), next])
      == Accumulated(init) + ArrayPairs(key, JsSort(items)) + PairString(next.key, next.value) + "&"
  {
    var d := init + [Entry(key, Arr(items)), next];
    assert d[..|d| - 1] == init + [Entry(key, Arr(items))];
    assert d[..|d| - 1][..|init|] == init;
  }

  // ---------------------------------------------------------------------
  // getRequestParameterString and getBaseString

  /** A request as the signing functions read it: `method` (here `verb`), `url`, `data`
      and `includeBodyHash`. An absent url is "". */
  datatype Request = Request(verb: Option<string>, url: string, data: Val, includeBodyHash: bool)

  /** The merged, not yet encoded parameters: oauth fields, overridden by the
      body data (left out when `oauth_body_hash` is set), overridden by the
      URL query. None is a URIError from the query. */
  function RequestParams(url: string, data: Val, oauthData: Val): Option<map<string, Val>> {
    match UrlToObject(url)
    case None => None
    case Some(query) =>
      var requestObject :=
        if Truthy(OptProp(oauthData, "oauth_body_hash")) then query
        else MergeObjects(data, Obj(query));
      Some(MergeObjects(oauthData, Obj(requestObject)))
  }

  /** The encoded, sorted entries the parameter string is written from. */
  function EncodedEntries(params: map<string, Val>): (r: seq<Entry>)
    ensures NoListValues(r)
  {
    SortedEntries(EncodeData(params))
  }

  /** `getRequestParameterString(request, oauthData)`: the encoded
      parameters, sorted by encoded name, written as `name=value` joined
      with "&" (section 3.4.1.3.2 of RFC 5849, except for list values). */
  function RequestParameterString(url: string, data: Val, oauthData: Val): (r: Option<string>)
    ensures r.Some? <==> RequestParams(url, data, oauthData).Some?
    ensures r.Some? ==> r.value == Join(Pairs(EncodedEntries(RequestParams(url, data, oauthData).value)), "&")
  {
    match RequestParams(url, data, oauthData)
    case None => None
    case Some(params) =>
      var entries := EncodedEntries(params);
      ParameterStringScalars(entries);
      Some(ParameterString(entries))
  }

  /** `request.verb?.toUpperCase()` inside a template literal. */
  function MethodString(verb: Option<string>): string {
    match verb
    case None => "undefined"
    case Some(m) => ToUpperAscii(m)
  }

  /** `getBaseString(request, oauthData)`: method, base URL and parameter
      string, the last two encoded, joined with "&". */
  function BaseString(request: Request, oauthData: Val): Option<string> {
    match RequestParameterString(request.url, request.data, oauthData)
    case None => None
    case Some(params) =>
      Some(MethodString(request.verb) + "&" + PercentEncode(BaseUrl(request.url)) + "&" + PercentEncode(params))
  }

  lemma MethodStringHasNo(verb: Option<string>, c: char)
    requires c != 'u' && c != 'n' && c != 'd' && c != 'f' && c != 'i' && c != 'e' && !('A' <= c <= 'Z')
    requires verb.Some? ==> c !in verb.value
    ensures c !in MethodString(verb)
  {
    if verb.Some? {
      var s, m := verb.value, MethodString(verb);
      forall i | 0 <= i < |m| ensures m[i] != c {
        assert s[i] != c;
      }
    }
  }

  /** `${m}&${percentEncode(u)}&${percentEncode(p)}` splits back into m and
      two pieces that decode to u and p. */
  lemma EncodedTripleParts(m: string, u: string, p: string)
    requires '&' !in m
    ensures var parts := Split(m + "&" + PercentEncode(u) + "&" + PercentEncode(p), '&');
      |parts| == 3 && parts[0] == m && Decode(parts[1]) == Some(u) && Decode(parts[2]) == Some(p)
  {
    PercentEncodeIsEscape(u);
    PercentEncodeIsEscape(p);
    EscapedHasNo(u, '&');
    EscapedHasNo(p, '&');
    SplitThree(m, Escape(u), Escape(p), '&');
    DecodeOfEscape(u);
    DecodeOfEscape(p);
  }

  /** The base string splits back into its three parts, and the encoded
      parts decode to the base URL and the parameter string. */
  lemma BaseStringParts(request: Request, oauthData: Val)
    requires BaseString(request, oauthData).Some?
    requires request.verb.Some? ==> '&' !in request.verb.value
    ensures var params := RequestParameterString(request.url, request.data, oauthData).value;
      var parts := Split(BaseString(request, oauthData).value, '&');
      |parts| == 3
      && parts[0] == MethodString(request.verb)
      && Decode(parts[1]) == Some(BaseUrl(request.url))
      && Decode(parts[2]) == Some(params)
  {
    MethodStringHasNo(request.verb, '&');
    EncodedTripleParts(MethodString(request.verb), BaseUrl(request.url),
      RequestParameterString(request.url, request.data, oauthData).value);
  }

  /** With `oauth_body_hash` set, the body data takes no part in the
      parameter string. */
  lemma BodyHashExcludesData(url: string, data1: Val, data2: Val, oauthData: Val)
    requires Truthy(OptProp(oauthData, "oauth_body_hash"))
    ensures RequestParameterString(url, data1, oauthData) == RequestParameterString(url, data2, oauthData)
  {
  }

  /** Colliding keys: the URL query overrides the body data, which overrides
      the oauth fields. */
  lemma ParamsPrecedence(url: string, data: Val, oauthData: Val, k: string)
    requires RequestParams(url, data, oauthData).Some?
    requires !Truthy(OptProp(oauthData, "oauth_body_hash"))
    ensures var params, query := RequestParams(url, data, oauthData).value, UrlToObject(url).value;
      (k in params <==> (k in Spread(oauthData) || k in Spread(data) || k in query))
      && (k in query ==> params[k] == query[k])
      && (k !in query && k in Spread(data) ==> params[k] == Spread(data)[k])
      && (k !in query && k !in Spread(data) && k in Spread(oauthData) ==> params[k] == Spread(oauthData)[k])
  {
    var query := UrlToObject(url).value;
    var requestObject := MergeObjects(data, Obj(query));
    assert RequestParams(url, data, oauthData).value == MergeObjects(oauthData, Obj(requestObject));
    assert Spread(Obj(query)) == query && Spread(Obj(requestObject)) == requestObject;
  }

  // ---------------------------------------------------------------------
  // getNonce

  /** `'abcdefghijklmnopqrstuvwxyzABCDEFGHIJKLMNOPQRSTUVWXYZ0123456789'` */
  const NonceCharacters: string :=
    seq(26, i requires 0 <= i < 26 => ('a' as int + i) as char)
    + seq(26, i requires 0 <= i < 26 => ('A' as int + i) as char)
    + seq(10, i requires 0 <= i < 10 => ('0' as int + i) as char)

  predicate Alphanumeric(c: char) {
    ('a' <= c <= 'z') || ('A' <= c <= 'Z') || ('0' <= c <= '9')
  }

  lemma NonceCharactersAlphanumeric()
    ensures |NonceCharacters| == 62
    ensures forall i :: 0 <= i < 62 ==> Alphanumeric(NonceCharacters[i])
  {
    forall i | 0 <= i < 62 ensures Alphanumeric(NonceCharacters[i]) {
      if i < 26 {
        assert NonceCharacters[i] == ('a' as int + i) as char;
      } else if i < 52 {
        assert NonceCharacters[i] == ('A' as int + i - 26) as char;
      } else {
        assert NonceCharacters[i] == ('0' as int + i - 52) as char;
      }
    }
  }

  /** The random picks `Math.floor(Math.random() * 62)`, one per character. */
  predicate ValidPicks(picks: seq<nat>) {
    forall i :: 0 <= i < |picks| ==> picks[i] < 62
  }

  /** The nonce `getNonce(nonceLength)` builds from the given picks. */
  function Nonce(nonceLength: int, picks: seq<nat>): (r: string)
    requires nonceLength <= |picks| && ValidPicks(picks)
    ensures |r| == (if nonceLength > 0 then nonceLength else 0)
    ensures forall i :: 0 <= i < |r| ==> Alphanumeric(r[i])
  {
    NonceCharactersAlphanumeric();
    var n := if nonceLength > 0 then nonceLength else 0;
    seq(n, i requires 0 <= i < n => NonceCharacters[picks[i]])
  }

  /** `getNonce(nonceLength)`, appending one picked character per step. */
  method GetNonce(nonceLength: int, picks: seq<nat>) returns (result: string)
    requires nonceLength <= |picks| && ValidPicks(picks)
    ensures result == Nonce(nonceLength, picks)
  {
    NonceCharactersAlphanumeric();
    result := "";
    var i := 0;
    while i < nonceLength
      invariant 0 <= i <= (if nonceLength > 0 then nonceLength else 0)
      invariant |result| == i
      invariant forall j :: 0 <= j < i ==> result[j] == NonceCharacters[picks[j]]
    {
      result := result + [NonceCharacters[picks[i]]];
      i := i + 1;
    }
  }
}
