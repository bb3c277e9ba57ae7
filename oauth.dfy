/** The `Oauth` class of the signing library: its configuration and
    defaults, the signing key, the body hash, the signature, `authorize` and
    the Authorization header (sections 3.1, 3.4.4 and 3.5.1 of RFC 5849). */
module OauthSigner {
  import opened JsValues
  import opened StringOrder
  import opened PercentCodec
  import opened QueryString
  import opened OauthParams

  const DefaultSignatureMethod: string := "PLAINTEXT"
  const DefaultOauthVersion: string := "1.0"
  const DefaultNonceLength: int := 32
  const DefaultParameterSeparator: string := ", "

  /** `hashFunction(baseString, key)`. HMAC-SHA1 (`fastCryptoHash`) is one
      such function; which one is used is a parameter of the model. */
  type HashFunction = (string, string) -> string

  /** The PLAINTEXT method: the signature is the signing key itself. */
  const PlaintextHash: HashFunction := (_: string, key: string) => key

  datatype Result<T, E> = Ok(value: T) | Err(error: E)

  /** The constructor's `config`. An absent (null or undefined) entry is
      None or a nullish Val; `hashFunction` is None when it is falsy. */
  datatype Config = Config(
    consumer: Val,
    nonceLength: Option<int>,
    version: Val,
    parameterSeparator: Option<string>,
    realm: Val,
    lastAmpersand: Val,
    signatureMethod: Val,
    hashFunction: Option<HashFunction>,
    bodyHashFunction: Option<HashFunction>)

  /** `config.signatureMethod ?? DEFAULT_SIGNATURE_METHOD` */
  function SignatureMethodOf(config: Config): Val {
    Coalesce(config.signatureMethod, Str(DefaultSignatureMethod))
  }

  /** `new Oauth(config)`: the error message is the one thrown. */
  function NewOauth(config: Config): (r: Result<Oauth, string>)
    ensures r.Ok? <==> (Truthy(config.consumer)
      && (config.hashFunction.Some? || SignatureMethodOf(config) == Str(DefaultSignatureMethod)))
    ensures !Truthy(config.consumer) ==> r.Err? && r.error == "consumer must be defined"
    ensures Truthy(config.consumer) && r.Err? ==> r.error == "hashFunction must be defined"
  {
    if !Truthy(config.consumer) then Err("consumer must be defined")
    else
      var signatureMethod := SignatureMethodOf(config);
      if signatureMethod != Str(DefaultSignatureMethod) && config.hashFunction.None? then
        Err("hashFunction must be defined")
      else
        var hash := if config.hashFunction.None? then PlaintextHash else config.hashFunction.value;
        Ok(Oauth(
          config.consumer,
          config.nonceLength.GetOr(DefaultNonceLength),
          Coalesce(config.version, Str(DefaultOauthVersion)),
          config.parameterSeparator.GetOr(DefaultParameterSeparator),
          config.realm,
          Coalesce(config.lastAmpersand, Bool(true)),
          signatureMethod,
          hash,
          config.bodyHashFunction.GetOr(hash)))
  }

  /** The defaults the constructor fills in for absent configuration. */
  lemma NewOauthDefaults(config: Config)
    requires NewOauth(config).Ok?
    ensures var o := NewOauth(config).value;
      o.consumer == config.consumer
      && (config.nonceLength.None? ==> o.nonceLength == 32)
      && (Nullish(config.version) ==> o.version == Str("1.0"))
      && (config.parameterSeparator.None? ==> o.parameterSeparator == ", ")
      && (Nullish(config.lastAmpersand) ==> o.lastAmpersand == Bool(true))
      && (Nullish(config.signatureMethod) ==> o.signatureMethod == Str("PLAINTEXT"))
      && (config.hashFunction.None? ==> forall b, k :: o.hashFunction(b, k) == k)
      && (config.bodyHashFunction.None? ==> forall b, k :: o.bodyHashFunction(b, k) == o.hashFunction(b, k))
  {
  }

  /** Why `authorize` throws: the credentials argument is null (destructuring
      fails), or the URL query is malformed (`decodeURIComponent`). */
  datatype Failure = NullCredentials | MalformedQuery

  /** The request object `authorize` reads and updates in place. */
  class HttpRequest {
    var verb: Option<string>
    var url: string
    var data: Val
    var includeBodyHash: bool

    constructor(verb: Option<string>, url: string, data: Val, includeBodyHash: bool)
      ensures this.verb == verb && this.url == url && this.data == data
      ensures this.includeBodyHash == includeBodyHash
    {
      this.verb := verb;
      this.url := url;
      this.data := data;
      this.includeBodyHash := includeBodyHash;
    }

    function Value(): Request
      reads this
    {
      Request(verb, url, data, includeBodyHash)
    }

    /** `if (!request.data) request.data = {}` */
    method DefaultData()
      modifies this
      ensures Value() == WithDefaultData(old(Value()))
    {
      if !Truthy(data) {
        data := EmptyObject;
      }
    }
  }

  /** The request after `if (!request.data) request.data = {}`. */
  function WithDefaultData(request: Request): (r: Request)
    ensures Truthy(r.data)
    ensures r.verb == request.verb && r.url == request.url && r.includeBodyHash == request.includeBodyHash
    ensures Truthy(request.data) ==> r == request
  {
    if Truthy(request.data) then request else request.(data := EmptyObject)
  }

  /** `typeof data === 'string' ? data : JSON.stringify(data)`, with
      `JSON.stringify` as the parameter json. */
  function Body(data: Val, json: Val -> string): string {
    if data.Str? then data.s else json(data)
  }

  const OauthKeys: set<string> :=
    {"oauth_consumer_key", "oauth_nonce", "oauth_signature_method", "oauth_timestamp", "oauth_version"}

  /** The field names are pairwise different (several have equal lengths). */
  lemma FieldNamesDistinct()
    ensures "oauth_nonce" != "oauth_token"
    ensures "oauth_timestamp" != "oauth_body_hash" && "oauth_timestamp" != "oauth_signature"
    ensures "oauth_body_hash" != "oauth_signature"
  {
    assert "oauth_nonce"[6] != "oauth_token"[6];
    assert "oauth_timestamp"[6] != "oauth_body_hash"[6];
    assert "oauth_timestamp"[6] != "oauth_signature"[6];
    assert "oauth_body_hash"[6] != "oauth_signature"[6];
  }

  /** A configured `Oauth` instance; its fields are fixed once constructed. */
  datatype Oauth = Oauth(
    consumer: Val,
    nonceLength: int,
    version: Val,
    parameterSeparator: string,
    realm: Val,
    lastAmpersand: Val,
    signatureMethod: Val,
    hashFunction: HashFunction,
    bodyHashFunction: HashFunction)
  {
    /** `percentEncode(this.consumer.secret)` */
    function EncodedConsumerSecret(): string {
      PercentEncodeValue(OptProp(consumer, "secret"))
    }

    /** `getSigningKey(secret)`: the encoded consumer secret, then "&" and
        the encoded token secret, except that with no token secret and
        `lastAmpersand` off the "&" is left out. */
    function SigningKey(secret: Val): string {
      var encodedConsumerSecret := EncodedConsumerSecret();
      if !Truthy(secret) && !Truthy(lastAmpersand) then encodedConsumerSecret
      else encodedConsumerSecret + "&" + PercentEncodeValue(secret)
    }

    /** The signing key as the escaped consumer secret, then "&" and the
        escaped token secret unless both are left out. */
    lemma SigningKeySplit(secret: Val)
      ensures var c, t := PercentEncodeValue(OptProp(consumer, "secret")), PercentEncodeValue(secret);
        Split(SigningKey(secret), '&') == if !Truthy(secret) && !Truthy(lastAmpersand) then [c] else [c, t]
    {
      var c, t := PercentEncodeValue(OptProp(consumer, "secret")), PercentEncodeValue(secret);
      EncodedHasNoAmpersand(OptProp(consumer, "secret"));
      EncodedHasNoAmpersand(secret);
      if Truthy(secret) || Truthy(lastAmpersand) {
        SplitPair(c, '&', t);
      } else {
        SplitNoSeparator(c, '&');
      }
    }

    /** The signing key splits at "&" back into the two secrets; the second
        part is there exactly when there is a token secret or `lastAmpersand`
        is on (section 3.4.4 of RFC 5849 always keeps the "&"). */
    lemma SigningKeyParts(secret: Val)
      ensures var parts := Split(SigningKey(secret), '&');
        Decode(parts[0]) == Some(ArgString(OptProp(consumer, "secret")))
        && (|parts| == 2 <==> Truthy(secret) || Truthy(lastAmpersand))
        && (|parts| == 1 <==> !Truthy(secret) && !Truthy(lastAmpersand))
        && (|parts| == 2 ==> Decode(parts[1]) == Some(ArgString(secret)))
    {
      SigningKeySplit(secret);
      DecodeOfEscape(ArgString(OptProp(consumer, "secret")));
      DecodeOfEscape(ArgString(secret));
    }

    /** `getBodyHash({ data }, secret)` */
    function BodyHash(data: Val, secret: Val, json: Val -> string): string {
      bodyHashFunction(Body(data, json), SigningKey(secret))
    }

    /** `getSignature(request, secret, oauthData)`; None is a URIError. */
    function Signature(request: Request, secret: Val, oauthData: Val): (r: Option<string>)
      ensures r.Some? <==> UrlToObject(request.url).Some?
    {
      match BaseString(request, oauthData)
      case None => None
      case Some(base) => Some(hashFunction(base, SigningKey(secret)))
    }

    /** The five fields every `authorize` call sets, plus `oauth_token`
        when the token key is truthy. */
    function BaseFields(key: Val, nonce: string, timestamp: int): map<string, Val>
    {
      var fields := map[
        "oauth_consumer_key" := OptProp(consumer, "key"),
        "oauth_nonce" := Str(nonce),
        "oauth_signature_method" := signatureMethod,
        "oauth_timestamp" := Num(timestamp),
        "oauth_version" := version];
      if Truthy(key) then fields["oauth_token" := key] else fields
    }

    /** The fields `authorize` has gathered when it signs: the base fields
        and, when the request asks for it, `oauth_body_hash`. The request is
        the one whose data has been defaulted. */
    function UnsignedFields(request: Request, token: Val, picks: seq<nat>, timestamp: int, json: Val -> string)
      : map<string, Val>
      requires nonceLength <= |picks| && ValidPicks(picks)
    {
      var secret := OptProp(token, "secret");
      var fields := BaseFields(OptProp(token, "key"), Nonce(nonceLength, picks), timestamp);
      if request.includeBodyHash then fields["oauth_body_hash" := Str(BodyHash(request.data, secret, json))]
      else fields
    }

    /** `authorize(request, token)` as a value: the unsigned fields plus
        `oauth_signature`, the hash of their base string. The nonce's random
        picks and the clock reading are parameters. */
    function Authorized(request: Request, token: Val, picks: seq<nat>, timestamp: int, json: Val -> string)
      : (r: Result<map<string, Val>, Failure>)
      requires nonceLength <= |picks| && ValidPicks(picks)
      ensures r.Err? <==> token.Null? || UrlToObject(request.url).None?
      ensures r.Err? && token.Null? ==> r.error == NullCredentials
    {
      if token.Null? then Err(NullCredentials)
      else
        var req := WithDefaultData(request);
        var fields := UnsignedFields(req, token, picks, timestamp, json);
        match Signature(req, OptProp(token, "secret"), Obj(fields))
        case None => Err(MalformedQuery)
        case Some(signature) => Ok(fields["oauth_signature" := Str(signature)])
    }

    /** The first part of `authorize(request, token)` for a token that is
        not null: builds the OAuth fields, defaults `request.data` to `{}` in
        place and adds the body hash when asked. */
    method GatherFields(request: HttpRequest, token: Val, picks: seq<nat>, timestamp: int, json: Val -> string)
      returns (oauthData: map<string, Val>)
      requires nonceLength <= |picks| && ValidPicks(picks)
      modifies request
      ensures request.Value() == WithDefaultData(old(request.Value()))
      ensures oauthData == UnsignedFields(request.Value(), token, picks, timestamp, json)
    {
      var key, secret := OptProp(token, "key"), OptProp(token, "secret");
      var nonce := GetNonce(nonceLength, picks);
      oauthData := BaseFields(key, nonce, timestamp);
      request.DefaultData();
      if request.includeBodyHash {
        var bodyHash := BodyHash(request.data, secret, json);
        oauthData := oauthData["oauth_body_hash" := Str(bodyHash)];
      }
    }

    /** `authorize(request, token)`: gathers the fields, then signs the base
        string of everything so far and adds the signature. */
    method Authorize(request: HttpRequest, token: Val, picks: seq<nat>, timestamp: int, json: Val -> string)
      returns (result: Result<map<string, Val>, Failure>)
      requires nonceLength <= |picks| && ValidPicks(picks)
      modifies request
      ensures result == Authorized(old(request.Value()), token, picks, timestamp, json)
      ensures token.Null? ==> request.Value() == old(request.Value())
      ensures !token.Null? ==> request.Value() == WithDefaultData(old(request.Value()))
    {
      if token.Null? {
        return Err(NullCredentials);
      }
      var oauthData := GatherFields(request, token, picks, timestamp, json);
      var signature := Signature(request.Value(), OptProp(token, "secret"), Obj(oauthData));
      match signature {
        case None =>
          result := Err(MalformedQuery);
        case Some(s) =>
          oauthData := oauthData["oauth_signature" := Str(s)];
          result := Ok(oauthData);
      }
    }

    /** The signature is the hash of the base string of all the other
        returned fields, keyed with the signing key (section 3.4 of RFC 5849:
        `oauth_signature` itself is not signed); nothing else is added. */
    lemma AuthorizedSigned(request: Request, token: Val, picks: seq<nat>, timestamp: int, json: Val -> string)
      requires nonceLength <= |picks| && ValidPicks(picks)
      requires Authorized(request, token, picks, timestamp, json).Ok?
      ensures var req := WithDefaultData(request);
        var fields := UnsignedFields(req, token, picks, timestamp, json);
        BaseString(req, Obj(fields)).Some?
        && Authorized(request, token, picks, timestamp, json).value
          == fields["oauth_signature" := Str(hashFunction(BaseString(req, Obj(fields)).value, SigningKey(OptProp(token, "secret"))))]
    {
      var req := WithDefaultData(request);
      var fields := UnsignedFields(req, token, picks, timestamp, json);
      var signature := Signature(req, OptProp(token, "secret"), Obj(fields));
      assert signature.Some?;
      assert Authorized(request, token, picks, timestamp, json) == Ok(fields["oauth_signature" := Str(signature.value)]);
    }

    /** The signed fields: the five standard ones, `oauth_token` exactly
        when the token key is truthy, `oauth_body_hash` exactly when the
        request asks for it; `oauth_signature` is not among them. */
    lemma UnsignedFieldsKeys(request: Request, token: Val, picks: seq<nat>, timestamp: int, json: Val -> string)
      requires nonceLength <= |picks| && ValidPicks(picks)
      ensures UnsignedFields(request, token, picks, timestamp, json).Keys == OauthKeys
        + (if Truthy(OptProp(token, "key")) then {"oauth_token"} else {})
        + (if request.includeBodyHash then {"oauth_body_hash"} else {})
      ensures "oauth_signature" !in UnsignedFields(request, token, picks, timestamp, json)
    {
      FieldNamesDistinct();
    }

    /** The nonce is `nonceLength` alphanumeric characters, none when the
        length is not positive. */
    lemma UnsignedFieldsNonce(request: Request, token: Val, picks: seq<nat>, timestamp: int, json: Val -> string)
      requires nonceLength <= |picks| && ValidPicks(picks)
      ensures var nonce := UnsignedFields(request, token, picks, timestamp, json)["oauth_nonce"];
        nonce.Str?
        && |nonce.s| == (if nonceLength > 0 then nonceLength else 0)
        && (forall i :: 0 <= i < |nonce.s| ==> Alphanumeric(nonce.s[i]))
    {
      FieldNamesDistinct();
      var fields := BaseFields(OptProp(token, "key"), Nonce(nonceLength, picks), timestamp);
      assert fields["oauth_nonce"] == Str(Nonce(nonceLength, picks));
    }

    /** The timestamp is the clock reading; the consumer key, signature
        method and version are the configured ones; the token is the token
        key when that is truthy. */
    lemma UnsignedFieldsValues(request: Request, token: Val, picks: seq<nat>, timestamp: int, json: Val -> string)
      requires nonceLength <= |picks| && ValidPicks(picks)
      ensures var fields := UnsignedFields(request, token, picks, timestamp, json);
        fields["oauth_timestamp"] == Num(timestamp)
        && fields["oauth_consumer_key"] == OptProp(consumer, "key")
        && fields["oauth_signature_method"] == signatureMethod
        && fields["oauth_version"] == version
        && (Truthy(OptProp(token, "key")) ==> fields["oauth_token"] == OptProp(token, "key"))
    {
      FieldNamesDistinct();
    }

    /** The body hash is the body hash function of the request body (a
        string body as is, anything else serialized), keyed like the
        signature. */
    lemma UnsignedFieldsBodyHash(request: Request, token: Val, picks: seq<nat>, timestamp: int, json: Val -> string)
      requires nonceLength <= |picks| && ValidPicks(picks)
      requires request.includeBodyHash
      ensures UnsignedFields(request, token, picks, timestamp, json)["oauth_body_hash"]
        == Str(bodyHashFunction(Body(request.data, json), SigningKey(OptProp(token, "secret"))))
    {
    }

    // -------------------------------------------------------------------
    // toHeader

    /** `percentEncode(key)="percentEncode(value)"` */
    function HeaderPair(e: Entry): string {
      PercentEncode(e.key) + "=\"" + PercentEncodeValue(e.value) + "\""
    }

    function HeaderPairs(items: seq<Entry>): (r: seq<string>)
      ensures |r| == |items|
      ensures forall i :: 0 <= i < |items| ==> r[i] == HeaderPair(items[i])
    {
      seq(|items|, i requires 0 <= i < |items| => HeaderPair(items[i]))
    }

    /** The header text before the parameters: `OAuth `, followed by the
        realm and the separator when the realm is truthy. */
    function HeaderLead(): string {
      if Truthy(realm) then "OAuth realm=\"" + ToJsString(realm) + "\"" + parameterSeparator
      else "OAuth "
    }

    /** The `oauth_` fields of `{ ...oauthData, ...extra }`, sorted. */
    function HeaderItems(oauthData: Val, extra: Val): seq<Entry> {
      OauthFields(MergeObjects(oauthData, extra))
    }

    /** The header written from the given fields: the lead, then each
        `name="value"` pair followed by the separator, with the last
        separator cut off. */
    function HeaderText(items: seq<Entry>): string {
      var s := HeaderLead() + Terminated(HeaderPairs(items), parameterSeparator);
      SliceTo(s, |s| - |parameterSeparator|)
    }

    /** `toHeader(oauthData, extra).Authorization` */
    function HeaderValue(oauthData: Val, extra: Val): string {
      HeaderText(HeaderItems(oauthData, extra))
    }

    /** The loop of `toHeader`: appends each field's pair and the separator. */
    method AppendPairs(lead: string, items: seq<Entry>) returns (headerValue: string)
      ensures headerValue == lead + Terminated(HeaderPairs(items), parameterSeparator)
    {
      headerValue := lead;
      ghost var pairs := HeaderPairs(items);
      var i := 0;
      while i < |items|
        invariant 0 <= i <= |items|
        invariant headerValue == lead + Terminated(pairs[..i], parameterSeparator)
      {
        TerminatedStep(lead, pairs, i, parameterSeparator);
        var pair := HeaderPair(items[i]);
        assert pair == pairs[i];
        headerValue := headerValue + pair + parameterSeparator;
        i := i + 1;
      }
      assert pairs[..i] == pairs;
    }

    /** The start of `toHeader`: `OAuth `, then the realm when truthy. */
    method WriteLead() returns (headerValue: string)
      ensures headerValue == HeaderLead()
    {
      headerValue := "OAuth ";
      if Truthy(realm) {
        headerValue := headerValue + "realm=\"" + ToJsString(realm) + "\"" + parameterSeparator;
      }
    }

    /** `toHeader(oauthData, extra)`: appends each `oauth_` field, sorted by
        name, followed by the separator, then cuts the last separator off. */
    method ToHeader(oauthData: Val, extra: Val) returns (authorization: string)
      ensures authorization == HeaderValue(oauthData, extra)
    {
      var headerValue := WriteLead();
      var sorted := SortObjectProperties(MergeObjects(oauthData, extra));
      var items := OauthEntries(sorted);
      assert items == HeaderItems(oauthData, extra);
      headerValue := AppendPairs(headerValue, items);
      authorization := SliceTo(headerValue, |headerValue| - |parameterSeparator|);
    }

    /** With at least one `oauth_` field, the header is the lead followed by
        the `name="value"` pairs joined with the separator (section 3.5.1 of
        RFC 5849 with the default ", "). */
    lemma HeaderJoined(items: seq<Entry>)
      requires items != []
      ensures HeaderText(items) == HeaderLead() + Join(HeaderPairs(items), parameterSeparator)
    {
      var pairs := HeaderPairs(items);
      TerminatedJoin(pairs, parameterSeparator);
      SliceOffSuffix(HeaderLead(), Join(pairs, parameterSeparator), parameterSeparator);
    }

    /** With no `oauth_` field, the cut eats into the lead: without a realm
        and with the default separator the header is "OAut". */
    lemma HeaderWithoutFields()
      ensures var lead := HeaderLead();
        HeaderText([]) == SliceTo(lead, |lead| - |parameterSeparator|)
      ensures !Truthy(realm) && parameterSeparator == ", " ==> HeaderText([]) == "OAut"
    {
      assert HeaderPairs([]) == [];
    }

    /** The header lists exactly the `oauth_` fields of the merged object,
        `extra` overriding `oauthData`, in ascending name order. */
    lemma HeaderItemsAre(oauthData: Val, extra: Val)
      ensures var items, merged := HeaderItems(oauthData, extra), MergeObjects(oauthData, extra);
        (forall k :: k in EntryKeys(items) <==> k in merged && StartsWith(k, "oauth_"))
        && (forall i :: 0 <= i < |items| ==> items[i].value == merged[items[i].key])
        && KeysAscending(items)
    {
      OauthFieldsAre(MergeObjects(oauthData, extra));
    }

    /** Fields whose names do not start with `oauth_` take no part in the
        header. */
    lemma HeaderIgnoresOtherFields(oauthData: Val, extra: Val, k: string, v: Val)
      requires extra.Obj? && !StartsWith(k, "oauth_")
      ensures HeaderValue(oauthData, Obj(extra.props[k := v])) == HeaderValue(oauthData, extra)
    {
      MergeObjectsOverride(oauthData, extra.props, k, v);
      OauthFieldsIgnore(MergeObjects(oauthData, extra), k, v);
    }
  }

  /** The `oauth_` fields of an object, sorted by name. */
  function OauthFields(data: map<string, Val>): seq<Entry> {
    OauthEntries(SortedEntries(data))
  }

  /** Every listed field is an `oauth_` field of the data, with its value. */
  lemma OauthFieldsFromData(data: map<string, Val>)
    ensures var items := OauthFields(data);
      forall i :: 0 <= i < |items| ==>
        items[i].key in data && StartsWith(items[i].key, "oauth_") && items[i].value == data[items[i].key]
  {
    var sorted := SortedEntries(data);
    var items := OauthEntries(sorted);
    forall i | 0 <= i < |items|
      ensures items[i].key in data && StartsWith(items[i].key, "oauth_") && items[i].value == data[items[i].key]
    {
      assert items[i] in sorted;
    }
  }

  /** Every `oauth_` field of the data is listed. */
  lemma OauthFieldsComplete(data: map<string, Val>, k: string)
    requires k in data && StartsWith(k, "oauth_")
    ensures k in EntryKeys(OauthFields(data))
  {
    var sorted := SortedEntries(data);
    var items := OauthEntries(sorted);
    var j :| 0 <= j < |sorted| && EntryKeys(sorted)[j] == k;
    assert sorted[j] in sorted;
    var i :| 0 <= i < |items| && items[i] == sorted[j];
    assert EntryKeys(items)[i] == k;
  }

  /** Exactly the `oauth_` fields, with their values, in ascending order. */
  lemma OauthFieldsAre(data: map<string, Val>)
    ensures var items := OauthFields(data);
      (forall k :: k in EntryKeys(items) <==> k in data && StartsWith(k, "oauth_"))
      && (forall i :: 0 <= i < |items| ==> items[i].value == data[items[i].key])
      && KeysAscending(items)
  {
    var items := OauthFields(data);
    OauthEntriesAscending(SortedEntries(data));
    OauthFieldsFromData(data);
    forall k ensures k in EntryKeys(items) <==> k in data && StartsWith(k, "oauth_") {
      if k in data && StartsWith(k, "oauth_") {
        OauthFieldsComplete(data, k);
      }
    }
  }

  /** Setting a field whose name does not start with `oauth_` leaves the
      `oauth_` fields as they were. */
  lemma OauthFieldsIgnore(data: map<string, Val>, k: string, v: Val)
    requires !StartsWith(k, "oauth_")
    ensures OauthFields(data[k := v]) == OauthFields(data)
  {
    var a, b := OauthFields(data[k := v]), OauthFields(data);
    OauthFieldsAre(data[k := v]);
    OauthFieldsAre(data);
    forall j ensures j in EntryKeys(a) <==> j in EntryKeys(b) {
      if StartsWith(j, "oauth_") { assert j != k; }
    }
    forall i, j | 0 <= i < |a| && 0 <= j < |b| && a[i].key == b[j].key ensures a[i].value == b[j].value {
      assert EntryKeys(a)[i] == a[i].key;
      assert a[i].key != k;
    }
    EntriesDetermined(a, b);
  }

  /** A field set on the second object is set on the merge. */
  lemma MergeObjectsOverride(one: Val, two: map<string, Val>, k: string, v: Val)
    ensures MergeObjects(one, Obj(two[k := v])) == MergeObjects(one, Obj(two))[k := v]
  {
  }
}
