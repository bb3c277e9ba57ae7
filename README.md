# FeaturesManager: OAuth signing, API sagas and state reducers in Dafny

FeaturesManager is a React Native app that signs in to SmugMug with OAuth 1.0a.
It shows the signed-in user's summary, the albums of a folder named Features,
and the answers to free-form explorer queries. This project models the app's
non-visual core in Dafny and proves properties of that model.

- **The OAuth 1.0a signer** (`src/shared/oauth/index.js`). It covers:
  - percent-encoding as section 3.6 of RFC 5849 defines it, and its inverse `decodeURIComponent`;
  - query-string parsing, nonces, and sorting of object properties;
  - the parameter string and the signature base string of section 3.4;
  - the signing key;
  - `authorize`, which builds the `oauth_*` fields and signs them, and `toHeader`, which writes the `Authorization` header.
- **The action helpers of the state layer** (`src/state/utilities.js`):
  - the tables fed to `createActions`;
  - the data-request and data-response tags carried in an action's `meta`;
  - the predicates that read those tags.
- **The reducers of the api, summary, explore, homeFeatures, ui and user slices.** Each is a `handleActions` table combined with `combineReducers`.
- **The sagas** (`src/sagas/apiUtils.js`, `smugmugAuthSagas.js`, `apiSagas.js`, `smugmugDataSagas.js`):
  - the request wrappers and `callApi`;
  - `prepareAuthRequest`;
  - the two steps of the OAuth handshake and the load from local storage;
  - the older variants of all of these in `apiSagas.js`;
  - the summary, explorer and home-features data sagas.

**How the model is built:**
- **JavaScript values** are a datatype (`JsValues.Val`). A property read on null or undefined becomes `None`, which stands for the `TypeError` it throws.
- **Sagas** are methods on a `SagaRuntime.Runtime` object:
  - the runtime keeps the log of effects (requests sent, actions dispatched, snackbars opened, storage calls) and the contents of local storage;
  - each saga method is proved to produce exactly the run that a specification function computes from its inputs (`…Run`, `…Trace`);
  - the lemmas state what those runs do.
- **Code that loops or mutates in place** is modelled as methods with loops proved against functions. This covers `percentEncodeData`, `sortObjectProperties`, `getDataAsParameterString`, `getNonce`, `convertQueryStringToObject`, the header loop of `toHeader`, and the sorting and matching loops of the features saga.
- **The network, the clock, `Math.random`, the hash functions, `JSON.stringify` and the selectors** are inputs. Only the selectors' values in the wired program are pinned down (the fourth item below).

Four places where the code behaves differently from what a reader might expect are modelled as written:
- `getDataAsParameterString` writes no `&` after a list value. The list is glued to the next entry, and a list that comes last loses its last character to the final slice (`OauthParams.ListGluedToNext`, `OauthParams.TrailingListLosesLastChar`).
- The sagas pass `signature_method` and `hash_function` to `new Oauth`. The constructor reads `signatureMethod` and `hashFunction`, so every saga signs with PLAINTEXT: the signature is the signing key itself (`ApiUtils.SagaOauth`, `AuthSagas.PlaintextSignature`).
- `prepareAuthRequest` imports `API_V2` from `shared/oauth`, which does not export it. The binding is undefined, so `url.indexOf(API_V2)` looks for the text "undefined" (`ApiUtils.ImportedApiV2`). A path without that text always goes under the versioned base URL. An API path that already starts with `/api/v2`, such as the user's root node URI the features saga requests, gets the version segment twice: `https://api.smugmug.com/api/v2/api/v2/node/…` (`ApiUtils.ResolveUrlAsImported`). `!authuser` resolves as intended.
- The selectors `smugmugConsumerCredentialsSelector` and `smugmugAccessTokenSelector` read `state.api.smugmugConsumerCredentials` and `state.api.smugmugAccessToken`. The api reducer builds only `smugmugAuthorizationUrl`, `smugmugCredentials` and `smugmugRequestToken`, so in the wired program both selectors answer undefined. Destructuring them throws a TypeError in `prepareAuthRequest` and in the verify step of both saga layers, before anything is sent (`LegacySagas.WiredSelectionsThrow`). So the summary, explore and features sagas never send a signed request, and the verify step never saves a token. The sagas take the selected values as inputs, so lemmas such as `DataSagas.SummaryStoresUser`, `DataSagas.ExploreSucceeds`, `FeaturesSaga.ReportOutcome` and `AuthSagas.AccessTokenSucceeds` describe what the sagas do with well-formed selections. The wired program never reaches those states. The request-token saga and the test request take their credentials from the action's payload and are not affected.

## Model

| member | source | states |
|---|---|---|
| ActionMeta.ApplyPayload | src/state/utilities.js:1-2 | `identity` gives the payload back; `noPayload` gives undefined |
| ActionMeta.ApplyMeta | src/state/utilities.js:3 | `pickMeta` answers the meta and ignores the payload |
| ActionMeta.ActionTypeInjective | src/state/utilities.js:7 | two type names with the same `${type}_ACTION` key are the same name |
| ActionMeta.ActionMapFor | src/state/utilities.js:5-24 | the table's keys are exactly the `${type}_ACTION` of the given types, each holding the given entry |
| ActionMeta.CreateActionMapForData | src/state/utilities.js:5-10 | every listed type maps to `[identity, pickMeta]`, and there are no other keys |
| ActionMeta.CreateActionMapForMetaNoPayload | src/state/utilities.js:12-17 | every listed type maps to `[noPayload, pickMeta]`, and there are no other keys |
| ActionMeta.CreateActionMapForPayloadWithMeta | src/state/utilities.js:19-24 | every listed type maps to `[identity, pickMeta]`, and there are no other keys |
| ActionMeta.MakeAction | src/state/utilities.js:1-3 | the action a table creator builds has the type, the meta, and the payload exactly when the payload creator's result is not undefined; nothing else |
| ActionMeta.IdentityAction | src/state/utilities.js:1 | a plain identity action has its type, no meta, and a payload exactly when the payload is not undefined |
| ActionMeta.HasTag | src/state/utilities.js:29-41 | throws exactly when a filter is given and the action is nullish; true exactly when the filter (if any) matches the type and the meta's type is the tag |
| ActionMeta.IsDataRequestAction | src/state/utilities.js:29-34 | true exactly when the filter matches (or is absent) and `meta.type` is `data_request`; throws only for a filter with a nullish action |
| ActionMeta.IsDataResponseAction | src/state/utilities.js:36-41 | true exactly when the filter matches (or is absent) and `meta.type` is `data_response`; throws only for a filter with a nullish action |
| ActionMeta.RequestResponseExclusive | src/state/utilities.js:29-41 | no action is both a data request and a data response, whatever the filters |
| ActionMeta.ForceType | src/state/utilities.js:43-52 | the result is an object whose `type` is the tag, which keeps every other field of a truthy meta and has no other field; it is the bare constant for a falsy meta |
| ActionMeta.MakeDataRequestMeta | src/state/utilities.js:46-48 | `type` is `data_request`; the caller's other fields are kept and nothing is added; the shared constant without a meta |
| ActionMeta.MakeDataResponseMeta | src/state/utilities.js:50-52 | `type` is `data_response`; the caller's other fields are kept and nothing is added; the shared constant without a meta |
| ActionMeta.MakeErrorDataResponseMeta | src/state/utilities.js:54-63 | `type` is `data_response` and `error` is true, overriding the caller's; the caller's other fields are kept |
| ActionMeta.MakeBackgroundDataRequestMeta | src/state/utilities.js:66-70 | with a meta: its fields, request type and `background: true`; without one: the plain request constant |
| ActionMeta.IsBackgroundDataRequest | src/state/utilities.js:72-74 | throws exactly on a null action; otherwise true exactly when `meta.background` is truthy |
| ActionMeta.RequestMetaTags | src/state/utilities.js:29-48 | an action carrying `makeDataRequestMeta` is a data request and not a data response |
| ActionMeta.ResponseMetaTags | src/state/utilities.js:36-63 | an action carrying response meta or error response meta is a data response and not a data request |
| ActionMeta.BackgroundOnlyWithMeta | src/state/utilities.js:66-74 | background meta built without a meta is not a background request, built from one it is; either way a data request |
| Redux.RunHandlers | src/state/api/reducers.js:13-18 | `handleActions`: every handler first turns an undefined state into the default (`state = defaultState` of `handleAction`); when no handler is keyed by the action's type, the result is the state, or the default when it is undefined |
| Redux.RunHandlersOne | src/state/api/reducers.js:13-18 | when exactly one handler matches, the result is that handler applied to the prior state (the default when undefined), and an undefined result becomes the default again when a later handler follows |
| Redux.Combine | src/state/api/reducers.js:44-48 | `combineReducers` fails exactly when some slice is undefined; otherwise it maps every name to its slice |
| Redux.Combine1 | src/state/user/reducers.js:17 | one slice: the state maps its name to the slice, or fails when the slice is undefined |
| Redux.Combine2 | src/state/ui/reducers.js:24 | two slices under distinct names: the two-key map, or a failure when either is undefined |
| Redux.Combine3 | src/state/api/reducers.js:44-48 | three slices under distinct names: the three-key map, or a failure when one is undefined |
| Redux.Combine4 | src/state/homeFeatures/reducers.js:70-75 | four slices under distinct names: the four-key map, or a failure when one is undefined |
| DataReducers.DataSliceStep | src/state/summary/reducers.js:14-24 | a data slice takes the payload exactly on a data response of its own type, and otherwise keeps its state (the initial one for undefined) |
| DataReducers.LoadingSliceStep | src/state/summary/reducers.js:26-39 | a loading flag is true after a foreground request of its type and false after a response; otherwise it is unchanged; a background request leaves it alone |
| DataReducers.DataSliceIdempotent | src/state/summary/reducers.js:14-24 | applying the same action twice to a data slice equals applying it once |
| DataReducers.LoadingSliceIdempotent | src/state/summary/reducers.js:26-39 | applying the same action twice to a loading flag equals applying it once |
| ApiReducers.SliceSteps | src/state/api/reducers.js:11-42 | credentials take any payload of their type whatever the meta; the request token and the URL take only a data response's payload; otherwise each slice keeps its state |
| ApiReducers.SliceUndefined | src/state/api/reducers.js:13-42 | a slice becomes undefined exactly when it takes the payload of an action that has none |
| ApiReducers.RootFails | src/state/api/reducers.js:44-48 | the combined reducer fails exactly on a null prior state or when a targeted slice's payload is undefined |
| ApiReducers.RootShape | src/state/api/reducers.js:44-48 | a combined state that succeeds has exactly the three slices, each its reducer's result on its prior value |
| ApiReducers.RootKeys | src/state/api/reducers.js:44-48 | the api state has exactly the three slice names, so `smugmugConsumerCredentials` and `smugmugAccessToken` read from it are undefined |
| ApiReducers.InitialState | src/state/api/reducers.js:11-48 | from undefined, an unrelated action gives `{key:'',secret:''}`, the empty request token and `''` |
| ApiReducers.OnlyTargetChanges | src/state/api/reducers.js:13-42 | with distinct action keys an action changes at most the slice it targets; the others keep their values |
| SummaryReducers.InitialState | src/state/summary/reducers.js:12-39 | before any summary action the data is `{}` and the flag false |
| SummaryReducers.SummaryStep | src/state/summary/reducers.js:14-24 | the data takes a summary response's payload; a request or any other action leaves it |
| SummaryReducers.SummaryLoadingStep | src/state/summary/reducers.js:26-39 | the flag goes up on a foreground request and down on a response; a background request leaves it |
| SummaryReducers.RootShape | src/state/summary/reducers.js:41-44 | exactly the two slices; fails only on a null prior state or a response without a payload |
| ExploreReducers.InitialState | src/state/explore/reducers.js:12-39 | before any explore action the data is `{}` and the flag false |
| ExploreReducers.ExploreStep | src/state/explore/reducers.js:14-24 | the data takes an explore response's payload; a request or any other action leaves it |
| ExploreReducers.ExploreLoadingStep | src/state/explore/reducers.js:26-39 | the flag goes up on a foreground request and down on a response; a background request leaves it |
| ExploreReducers.RootShape | src/state/explore/reducers.js:41-44 | exactly the two slices; fails only on a null prior state or a response without a payload |
| HomeFeaturesReducers.RootCombined | src/state/homeFeatures/reducers.js:70-75 | the combined state is the four-slice map of the slice reducers, or a failure |
| HomeFeaturesReducers.RootFails | src/state/homeFeatures/reducers.js:70-75 | fails exactly on a null prior state or a response carrying no payload |
| HomeFeaturesReducers.RootSlices | src/state/homeFeatures/reducers.js:70-75 | exactly the four slices, each its own reducer's result on its prior value |
| HomeFeaturesReducers.InitialState | src/state/homeFeatures/reducers.js:12-68 | before any home-features action both data slices are `{}` and both flags false |
| HomeFeaturesReducers.OwnTypeSteps | src/state/homeFeatures/reducers.js:14-68 | each data slice takes only its own type's response payload; each flag rises on its own foreground request and falls on its own response |
| HomeFeaturesReducers.OtherTypesUntouched | src/state/homeFeatures/reducers.js:14-68 | an action of one type leaves the other type's slices as they were; a progress action touches neither |
| UiReducers.Steps | src/state/ui/reducers.js:8-22 | opening sets the flag to true and the content to the payload, or to the initial content when the payload is undefined, whatever the prior state; closing resets the content and clears the flag; other actions change nothing |
| UiReducers.RootDefined | src/state/ui/reducers.js:6-24 | neither ui slice is ever undefined, so the combined ui reducer fails exactly when the prior state is null |
| UiReducers.Idempotent | src/state/ui/reducers.js:8-22 | applying an action twice equals applying it once |
| UiReducers.InitialState | src/state/ui/reducers.js:6-24 | the initial state is closed with `{text:'',error:false}` |
| UserReducers.RootStep | src/state/user/reducers.js:9-17 | the state is `{userData}` with the slice's new value; fails only on a null prior state or a response without a payload |
| UserReducers.InitialState | src/state/user/reducers.js:7-17 | from an empty state an unrelated action leaves `userData` at `{}` |
| UserReducers.ResponseAndRequest | src/state/user/reducers.js:9-15 | a user data response replaces the state with its payload; a request leaves it |
| UserReducers.Idempotent | src/state/user/reducers.js:9-15 | applying an action twice equals applying it once |
| PercentCodec.Utf8 | src/shared/oauth/index.js:43 | the UTF-8 bytes of a scalar value: 1 to 4 bytes, by range |
| PercentCodec.EscapeAppend | src/shared/oauth/index.js:42-49 | the escape of a concatenation is the concatenation of the escapes |
| PercentCodec.EscapeChars | src/shared/oauth/index.js:42-49 | the escape produces only unreserved characters and `%` |
| PercentCodec.PercentEncodeIsEscape | src/shared/oauth/index.js:42-49 | `encodeURIComponent` followed by the five replaces equals the RFC 5849 escape |
| PercentCodec.ReplaceMarksEscaped | src/shared/oauth/index.js:44-48 | escaped text holds none of `!*'()`, so the replace chain leaves it alone |
| PercentCodec.EscapedHasNo | src/shared/oauth/index.js:42-49 | a character the escape never produces (such as `&`, `=` or `,`) never appears in escaped text |
| PercentCodec.DecodeEscape | src/shared/oauth/index.js:70 | a decoded escape takes at least the three characters of `%XX` and no more than the text holds; None is the URIError |
| PercentCodec.DecodeOfEscape | src/shared/oauth/index.js:42-49 | `decodeURIComponent` of an escaped string gives the string back |
| OauthParams.PercentEncodeValue | src/shared/oauth/index.js:42-49 | `percentEncode(v)` is the escape of the value's string form, with `''` for undefined |
| OauthParams.EncodedHasNoAmpersand | src/shared/oauth/index.js:42-49 | an encoded value never holds `&` |
| OauthParams.EncodeEntryValue | src/shared/oauth/index.js:53-58 | a list's elements are encoded one by one, joined with `,` and encoded again; any other value is encoded once |
| OauthParams.EncodeData | src/shared/oauth/index.js:51-61 | the keys are exactly the encoded keys, each holding its entry's encoded value |
| OauthParams.EncodeDataAdd | src/shared/oauth/index.js:51-61 | one more entry adds exactly its encoded key and value |
| OauthParams.EncodeDataStep | src/shared/oauth/index.js:51-61 | one step of the `reduce` adds the encoding of the key it moves |
| OauthParams.PercentEncodeData | src/shared/oauth/index.js:51-61 | the loop over the keys returns `EncodeData(data)` |
| OauthParams.SortedEntries | src/shared/oauth/index.js:111-121 | one entry per key, with its value, keys strictly ascending |
| OauthParams.SortObjectProperties | src/shared/oauth/index.js:111-121 | the loop pushing one entry per sorted key returns `SortedEntries(data)` |
| OauthParams.EntriesDetermined | src/shared/oauth/index.js:111-121 | two ascending entry lists with the same keys and values are the same list |
| OauthParams.OauthEntries | src/shared/oauth/index.js:266 | keeps exactly the entries whose key starts with `oauth_`, in order |
| OauthParams.OauthEntriesAscending | src/shared/oauth/index.js:265-266 | filtering keeps the entries ascending by key |
| OauthParams.MergeObjects | src/shared/oauth/index.js:123-128 | every field of either object, the second's value winning; nothing else |
| OauthParams.SortedInPlace | src/shared/oauth/index.js:134-136 | after the call every list value of the entries is sorted (JS `sort`), everything else as it was |
| OauthParams.GetDataAsParameterString | src/shared/oauth/index.js:130-148 | the loop returns the accumulated pieces minus their last character, and the entries as `sort()` left them |
| OauthParams.ParameterStringScalars | src/shared/oauth/index.js:130-148 | without list values the result is the `key=value` pairs joined with `&`, and `''` for none |
| OauthParams.TrailingListLosesLastChar | src/shared/oauth/index.js:134-147 | a list value that comes last loses its final character |
| OauthParams.ListGluedToNext | src/shared/oauth/index.js:134-141 | a list value is glued to the next entry's pair with no `&` between |
| OauthParams.EncodedEntries | src/shared/oauth/index.js:151-157 | the entries the parameter string is written from hold no list values: each list was encoded into one string |
| OauthParams.RequestParameterString | src/shared/oauth/index.js:150-160 | fails exactly when the merged parameters fail (a malformed URL query); otherwise the `name=value` pairs of the encoded, sorted entries joined with `&` |
| OauthParams.BodyHashExcludesData | src/shared/oauth/index.js:151-153 | with `oauth_body_hash` set, the body data takes no part |
| OauthParams.ParamsPrecedence | src/shared/oauth/index.js:151-156 | on colliding keys the URL query wins over the body data, which wins over the oauth fields |
| OauthParams.EncodedTripleParts | src/shared/oauth/index.js:162-166 | `m&enc(u)&enc(p)` splits back into `m` and two pieces that decode to `u` and `p` |
| OauthParams.BaseStringParts | src/shared/oauth/index.js:162-166 | the base string splits into the upper-cased method, the encoded base URL and the encoded parameter string, which decode back |
| OauthParams.NonceCharactersAlphanumeric | src/shared/oauth/index.js:93-94 | the 62 nonce characters are exactly the ASCII letters and digits |
| OauthParams.Nonce | src/shared/oauth/index.js:93-105 | `max(0, nonceLength)` characters, each the picked alphanumeric |
| OauthParams.GetNonce | src/shared/oauth/index.js:96-105 | the loop appending one picked character per step returns `Nonce` |
| QueryString.BaseUrl | src/shared/oauth/index.js:63-65 | the result holds no `?` and is the whole URL or the part before its first `?` |
| QueryString.AddValue | src/shared/oauth/index.js:72-81 | adding to a truthy list appends the decoded string (the other cases are stated, repeated over all values, by `AddValueCollects`) |
| QueryString.ConvertQueryStringToObject | src/shared/oauth/index.js:67-85 | the `reduce` loop returns the pure decoder's result, failing exactly when it does |
| QueryString.StoreDecoded | src/shared/oauth/index.js:72-81 | stores `AddValue` of the existing value and the decoded one, touching no other key |
| QueryString.ParsePairsPrefixNone | src/shared/oauth/index.js:68-70 | once a prefix fails to decode, the whole query fails |
| QueryString.AddValueCollects | src/shared/oauth/index.js:68-84 | repeating the step over a key's values gives `Collected` of them |
| QueryString.ParsePairsFails | src/shared/oauth/index.js:67-85 | the decoder fails exactly when some value fails to decode |
| QueryString.ParsePairsByKey | src/shared/oauth/index.js:67-85 | a key is present exactly when some pair names it, and its value is `Collected` of that key's values |
| QueryString.DecodedPairsKeys | src/shared/oauth/index.js:67-85 | the decoded object has exactly the pairs' keys |
| QueryString.CollectedNonEmpty | src/shared/oauth/index.js:73-78 | several non-empty values for one key are collected, in order |
| QueryString.CollectedAfterEmpty | src/shared/oauth/index.js:72-80 | an empty first value is replaced, not collected (`a=&a=x` gives `a: 'x'`) |
| QueryString.ParseQueryRoundTrip | src/shared/oauth/index.js:67-85 | `k1=enc(v1)&k2=enc(v2)…` with distinct plain keys decodes to exactly `{k1:v1,…}` |
| QueryString.UrlSplits | src/shared/oauth/index.js:87-91 | `base?query` with no second `?` gives the decoded query, and its base URL is `base` |
| QueryString.UrlWithoutQuery | src/shared/oauth/index.js:87-91 | a URL without `?` has no parameters and is its own base |
| ArraySort.Insert | src/shared/oauth/index.js:136 | inserting adds exactly the element (as a multiset) |
| ArraySort.InsertOrdered | src/shared/oauth/index.js:136 | inserting into an ordered list keeps it ordered by string form |
| ArraySort.SortDefined | src/shared/oauth/index.js:136 | a permutation of its input, ordered by string form |
| ArraySort.JsSort | src/shared/oauth/index.js:136 | `sort()` gives a permutation: the defined values ordered by string form, then the undefined ones |
| StringOrder.SortedKeys | src/shared/oauth/index.js:112-113 | `Object.keys(…).sort()` lists each key once, strictly ascending |
| StringOrder.SortedKeysIs | src/shared/oauth/index.js:112-113 | any strictly ascending listing of the keys is the sorted one |
| StringOrder.AscendingUnique | src/shared/oauth/index.js:112-113 | a strictly ascending list is determined by its elements |
| OauthSigner.NewOauth | src/shared/oauth/index.js:179-207 | throws `consumer must be defined` without a consumer and `hashFunction must be defined` for another method without a hash function; otherwise applies the defaults and chooses the hash function |
| OauthSigner.NewOauthDefaults | src/shared/oauth/index.js:184-191 | nonce length 32, version `1.0`, separator `, `, `lastAmpersand` true, method PLAINTEXT when absent |
| OauthSigner.HttpRequest.constructor | src/shared/oauth/index.js:209 | a request object holds the fields it is given |
| OauthSigner.HttpRequest.DefaultData | src/shared/oauth/index.js:222-224 | a falsy `data` becomes `{}` in place; a truthy one is kept |
| OauthSigner.WithDefaultData | src/shared/oauth/index.js:222-224 | only `data` changes, and only when it was falsy |
| OauthSigner.Oauth.SigningKeySplit | src/shared/oauth/index.js:248-256 | the key is the encoded consumer secret, then `&` and the encoded token secret unless the secret is falsy and `lastAmpersand` is off |
| OauthSigner.Oauth.SigningKeyParts | src/shared/oauth/index.js:248-256 | the key splits at `&` and decodes back to the two secrets; the second part is there exactly when the token secret or `lastAmpersand` is truthy |
| OauthSigner.Oauth.Signature | src/shared/oauth/index.js:241-246 | exists exactly when the URL's query decodes; otherwise `getBaseString` throws the URIError |
| OauthSigner.Oauth.Authorized | src/shared/oauth/index.js:209-233 | fails exactly on a null token (destructuring throws) or a malformed URL query |
| OauthSigner.Oauth.GatherFields | src/shared/oauth/index.js:210-228 | builds the unsigned fields and sets `request.data` to `{}` in place when it was falsy |
| OauthSigner.Oauth.Authorize | src/shared/oauth/index.js:209-233 | answers `Authorized` of the request as it was; unless the token is null, `request.data` has been defaulted to `{}` in place |
| OauthSigner.Oauth.AuthorizedSigned | src/shared/oauth/index.js:230 | the signature is the hash of the base string of all the other returned fields, keyed with the signing key |
| OauthSigner.Oauth.UnsignedFieldsKeys | src/shared/oauth/index.js:210-228 | the five standard fields, `oauth_token` exactly when the key is truthy, and `oauth_body_hash` exactly when asked for; nothing else |
| OauthSigner.Oauth.UnsignedFieldsNonce | src/shared/oauth/index.js:212 | the nonce has `nonceLength` alphanumeric characters, none for a length that is not positive |
| OauthSigner.Oauth.UnsignedFieldsValues | src/shared/oauth/index.js:210-220 | timestamp, consumer key, method, version and token take the configured and given values |
| OauthSigner.Oauth.UnsignedFieldsBodyHash | src/shared/oauth/index.js:226-239 | the body hash is the body hash function of the string body (or the serialised one), keyed like the signature |
| OauthSigner.Oauth.HeaderPairs | src/shared/oauth/index.js:268-270 | one `name="value"` pair per item, both encoded |
| OauthSigner.Oauth.AppendPairs | src/shared/oauth/index.js:267-271 | the loop appends each pair followed by the separator |
| OauthSigner.Oauth.WriteLead | src/shared/oauth/index.js:259-263 | `OAuth `, then `realm="…"` and the separator when the realm is truthy |
| OauthSigner.Oauth.ToHeader | src/shared/oauth/index.js:258-279 | the header text equals `HeaderValue` of the merged fields (its shape is stated by HeaderItemsAre, HeaderJoined and HeaderWithoutFields) |
| OauthSigner.Oauth.HeaderJoined | src/shared/oauth/index.js:258-279 | with some `oauth_` field, the header is the lead followed by the pairs joined with the separator |
| OauthSigner.Oauth.HeaderWithoutFields | src/shared/oauth/index.js:273-277 | with no `oauth_` field the cut eats into the lead: `OAut` with no realm and the default separator |
| OauthSigner.Oauth.HeaderItemsAre | src/shared/oauth/index.js:265-266 | the header lists exactly the `oauth_` fields of `{...oauthData, ...extra}`, `extra` winning, ascending |
| OauthSigner.Oauth.HeaderIgnoresOtherFields | src/shared/oauth/index.js:265-266 | fields not starting with `oauth_` take no part in the header |
| OauthSigner.OauthFieldsFromData | src/shared/oauth/index.js:265-266 | every listed item is an `oauth_` field of the data, with its value |
| OauthSigner.OauthFieldsComplete | src/shared/oauth/index.js:265-266 | every `oauth_` field of the data is listed |
| OauthSigner.OauthFieldsAre | src/shared/oauth/index.js:265-266 | exactly the `oauth_` fields, with their values, ascending |
| OauthSigner.OauthFieldsIgnore | src/shared/oauth/index.js:265-266 | setting a field outside `oauth_` leaves the list unchanged |
| OauthSigner.MergeObjectsOverride | src/shared/oauth/index.js:123-128 | a field set on the second object is set on the merge |
| SagaRuntime.Runtime.constructor | src/shared/utilities/storage.js:1-28 | an empty effect log, the given storage and the given failing keys |
| SagaRuntime.Runtime.SendRequest | src/sagas/apiUtils.js:81 | logs one send and leaves storage alone |
| SagaRuntime.Runtime.Put | src/sagas/apiUtils.js:85 | logs one dispatch and leaves storage alone |
| SagaRuntime.Runtime.OpenSnackbar | src/sagas/apiUtils.js:87 | logs one snackbar and leaves storage alone |
| SagaRuntime.Runtime.Write | src/shared/utilities/storage.js:21-28 | logs the write; it succeeds exactly for a key that does not fail, and then only that key changes |
| SagaRuntime.Runtime.Read | src/shared/utilities/storage.js:3-10 | logs the read and answers `StoredValue` |
| SagaRuntime.StoredValue | src/shared/utilities/storage.js:3-10 | throws exactly for a failing key; otherwise the stored value, or null for a missing key |
| ApiUtils.RequestOptions | src/sagas/apiUtils.js:22-30 | the headers gain `Accept: application/json`, the URL is set, and the options override both |
| ApiUtils.SendOptions | src/sagas/apiUtils.js:49-60 | each wrapper sends its method, with the body data for POST, PUT and DELETE |
| ApiUtils.Settle | src/sagas/apiUtils.js:31-46 | a response settles to its data; a failure with response data to `{isError:true, ...data}`; any other failure rethrows (a nullish error is a TypeError) |
| ApiUtils.SettleErrorData | src/sagas/apiUtils.js:38-43 | the settled error object holds every field of the data, flagged `isError` unless the data sets the flag |
| ApiUtils.Creator.Create | src/sagas/apiUtils.js:85 | a creator's action has its type and the given payload |
| ApiUtils.CallOptions.ControlledErrorMessage | src/sagas/apiUtils.js:94-103 | the transform's result when it is truthy, else `An error occurred calling the API.` |
| ApiUtils.ErrorMessage | src/sagas/apiUtils.js:84 | `err?.body?.message ?? err?.message ?? err`, case by case |
| ApiUtils.HandleSettled | src/sagas/apiUtils.js:92-125 | after the request the method's effects and result are those of `CallApiTrace` |
| ApiUtils.CallApi | src/sagas/apiUtils.js:64-126 | the effects, storage and result are those of `CallApiTrace` |
| ApiUtils.CallApiSendsOnce | src/sagas/apiUtils.js:64-126 | exactly one request, first; no storage; at most an action and a snackbar after |
| ApiUtils.CallApiWritesNothing | src/sagas/apiUtils.js:64-126 | `callApi` never touches local storage |
| ApiUtils.CallApiOutcome | src/sagas/apiUtils.js:80-125 | true exactly on a settled non-nullish answer without `isError`; crashes exactly on a nullish answer, or on `isError` with no error action |
| ApiUtils.ErrorReportedBy | src/sagas/apiUtils.js:85 | the error action carries the message and error response meta |
| ApiUtils.CallApiThrown | src/sagas/apiUtils.js:80-90 | on a thrown error: false; nothing without an error creator; otherwise the error action and a snackbar with `errorMessage \|\| message \|\| 'Oops'` |
| ApiUtils.CallApiControlledError | src/sagas/apiUtils.js:93-109 | on an `isError` answer: false, the error action with the controlled message, then an error snackbar with that message |
| ApiUtils.SuccessReportedBy | src/sagas/apiUtils.js:116 | an action made with response meta reports a success |
| ApiUtils.AfterSuccessReports | src/sagas/apiUtils.js:111-125 | one success action with the transformed payload and response meta, then a snackbar only with a success message; nothing when the transform throws |
| ApiUtils.CallApiSuccess | src/sagas/apiUtils.js:111-125 | on a good answer: true, with the success action (of `successAction`, else `responseAction`) after the request |
| ApiUtils.SagaOauth | src/sagas/apiUtils.js:134-138 | the saga's signer always constructs and signs with PLAINTEXT, whatever the saga asked for |
| ApiUtils.AccessTokenPair | src/sagas/apiUtils.js:140 | `{key, secret}` taken from `access_token` and `access_token_secret` |
| ApiUtils.PrepareAuthRequestFails | src/sagas/apiUtils.js:128-156 | fails exactly when a selected value is nullish or the full URL's query is malformed |
| ApiUtils.PrepareAuthRequestResult | src/sagas/apiUtils.js:128-156 | the URL gets the API origin when it holds `API_V2` and the base URL otherwise; the headers are `{Authorization}` for the signed fields |
| ApiUtils.AcceptIgnored | src/sagas/apiUtils.js:151-153 | the `Accept` extra is not an `oauth_` field, so the header leaves it out |
| ApiUtils.ResolveUrlVersioned | src/sagas/apiUtils.js:142-144 | the evidently intended resolution, were `API_V2` the segment `/api/v2`: a path starting with it gets only the origin in front, and `!authuser` goes under the versioned base URL |
| ApiUtils.ResolveUrlAsImported | src/sagas/apiUtils.js:142-144 | the resolution with the program's undefined `API_V2`: a path `/api/v2…` without the text "undefined" becomes `https://api.smugmug.com/api/v2/api/v2…`, and `!authuser` still goes under the versioned base URL |
| AuthSagas.HandshakeUrlsPlain | src/sagas/smugmugAuthSagas.js:44-50 | the request-token and access-token URLs carry no query: they parse to no parameters, so signing them cannot throw |
| AuthSagas.TokenResponse | src/sagas/smugmugAuthSagas.js:68 | an answer that parses is an object; a string body is parsed as a query, undefined as `''`, and anything else throws |
| AuthSagas.TokenResponseParses | src/sagas/smugmugAuthSagas.js:68 | an encoded `k=v&…` body with distinct keys parses to exactly those fields |
| AuthSagas.AuthorizationEntries | src/sagas/smugmugAuthSagas.js:85-91 | the three properties sort as `access`, `oauth_token`, `permissions` |
| AuthSagas.AuthorizationQuery | src/sagas/smugmugAuthSagas.js:85-92 | the sorted properties print as `access=Full&oauth_token=…&permissions=Modify` |
| AuthSagas.AuthorizationUrlIs | src/sagas/smugmugAuthSagas.js:85-94 | the authorization URL asks for full access with modify permission for the encoded token |
| AuthSagas.ProceedsIffOk | src/sagas/smugmugAuthSagas.js:73 | the step goes on exactly when the call succeeded |
| AuthSagas.WritePair | src/sagas/smugmugAuthSagas.js:75-83 | the second write is skipped when the first throws, and the error is swallowed |
| AuthSagas.WritePairStores | src/sagas/smugmugAuthSagas.js:75-83 | a write that succeeds stores its value; one that throws stores nothing; no other key changes |
| AuthSagas.WriteBoth | src/sagas/smugmugAuthSagas.js:75-83 | the method does what `WritePair` says |
| AuthSagas.AuthorizeRequest | src/sagas/smugmugAuthSagas.js:54 | `authorize` on a fresh request gives `Authorized(…)` |
| AuthSagas.SignHandshake | src/sagas/smugmugAuthSagas.js:52-55 | `{Accept, ...toHeader(authorize(request, token), extra)}` |
| AuthSagas.FinishRequestToken | src/sagas/smugmugAuthSagas.js:73-95 | the method after `callApi` follows `AfterRequestToken` |
| AuthSagas.RequestTokenRequestCall | src/sagas/smugmugAuthSagas.js:38-55 | the first half follows `RequestTokenCall` |
| AuthSagas.ExchangeRequestToken | src/sagas/smugmugAuthSagas.js:57-95 | the call and what follows it are `RequestTokenExchange` |
| AuthSagas.GetRequestToken | src/sagas/smugmugAuthSagas.js:35-96 | the whole saga is `RequestTokenRun` |
| AuthSagas.FinishAccessToken | src/sagas/smugmugAuthSagas.js:143-156 | the method after `callApi` follows `AfterAccessToken` |
| AuthSagas.ExchangeAccessToken | src/sagas/smugmugAuthSagas.js:131-156 | the call and what follows it are `AccessTokenExchange` |
| AuthSagas.AccessTokenRequestCall | src/sagas/smugmugAuthSagas.js:103-129 | the first half follows `AccessTokenCall` |
| AuthSagas.VerifyPin | src/sagas/smugmugAuthSagas.js:102-157 | the whole saga is `VerifyPinRun` |
| AuthSagas.AfterAccessTokenStops | src/sagas/smugmugAuthSagas.js:143 | a verify step whose call did not succeed does nothing more |
| AuthSagas.PlaintextSignature | src/sagas/smugmugAuthSagas.js:38-42 | under the saga's PLAINTEXT signer the signature is the signing key itself |
| AuthSagas.PlaintextSigned | src/sagas/smugmugAuthSagas.js:38-55 | `oauth_token` is signed exactly when the token key is truthy; the consumer key and the method are the signer's; the signature is the signing key |
| AuthSagas.ExtraFieldInHeader | src/sagas/smugmugAuthSagas.js:124-128 | an `oauth_` extra field reaches the header with its value |
| AuthSagas.FieldNotInHeader | src/sagas/smugmugAuthSagas.js:52-55 | a field in neither the signed nor the extra fields is not in the header |
| AuthSagas.SagaConsumerKey | src/sagas/smugmugAuthSagas.js:38-42 | the signer's consumer key is the one it was made with |
| AuthSagas.RequestTokenCallShape | src/sagas/smugmugAuthSagas.js:44-61 | once the payload is destructured the step cannot throw: it posts `{oauth_callback:'oob'}` to the request-token URL with Accept and the header |
| AuthSagas.RequestTokenSigned | src/sagas/smugmugAuthSagas.js:38-54 | no `oauth_token`, the payload's key as consumer key, and as signature the signing key with no token secret |
| AuthSagas.CallbackHeader | src/sagas/smugmugAuthSagas.js:52-55 | the request-token header carries `oauth_callback="oob"` and no token |
| AuthSagas.AccessTokenCallShape | src/sagas/smugmugAuthSagas.js:116-133 | once both selections are destructured the step cannot throw: it GETs the access-token URL with Accept and the header |
| AuthSagas.AccessTokenSigned | src/sagas/smugmugAuthSagas.js:103-126 | `oauth_token` is the request token's, signed exactly when it is truthy; the consumer key is the selected one; the signature is the signing key |
| AuthSagas.TokenPairParts | src/sagas/smugmugAuthSagas.js:108 | the token pair's key and secret are the request token's |
| AuthSagas.VerifierHeader | src/sagas/smugmugAuthSagas.js:124-128 | the pin passed as an extra field reaches the header |
| AuthSagas.TokenCallSucceeds | src/sagas/smugmugAuthSagas.js:59-71 | a body that parses yields the request, then the step's data action with the parsed fields and response meta, which is captured |
| AuthSagas.ResponseMetaProceeds | src/sagas/smugmugAuthSagas.js:73 | the response meta carries no error, so a captured success proceeds |
| AuthSagas.AfterRequestTokenProceeds | src/sagas/smugmugAuthSagas.js:73-95 | after success: the two writes, then the authorization URL for the captured token |
| AuthSagas.RequestTokenSucceeds | src/sagas/smugmugAuthSagas.js:57-95 | on success the step saves the key and then the secret (the second skipped when the first throws), then dispatches the URL |
| AuthSagas.RequestTokenFails | src/sagas/smugmugAuthSagas.js:73 | on failure the step writes nothing and dispatches no URL |
| AuthSagas.AccessTokenSucceeds | src/sagas/smugmugAuthSagas.js:131-156 | on success the step saves `oauth_token` as `authToken`, then `oauth_token_secret` as `authTokenSecret`, and nothing else |
| AuthSagas.AccessTokenFails | src/sagas/smugmugAuthSagas.js:143 | on failure the step writes nothing |
| AuthSagas.Reads | src/sagas/smugmugAuthSagas.js:163-170 | the reads of the keys in order, ending with the first that throws |
| AuthSagas.LoadFromTrace | src/sagas/smugmugAuthSagas.js:162-181 | the reads up to the first that throws, then, if none throws, one dispatch of what was gathered |
| AuthSagas.GatheredHoldsStored | src/sagas/smugmugAuthSagas.js:163-174 | what is gathered holds every key with its stored value, null when none is stored |
| AuthSagas.LoadRunEffects | src/sagas/smugmugAuthSagas.js:162-181 | the run begins with the storage reads and finishes with storage unchanged; when no read throws, exactly one action follows carrying every key with its stored value (null when absent) and response meta; when one throws, nothing follows |
| AuthSagas.LoadFromLocalStorage | src/sagas/smugmugAuthSagas.js:162-181 | the method's effects and storage are `LoadRun` |
| AuthSagas.LoadApiKeys | src/sagas/smugmugAuthSagas.js:166-176 | once the token and secret are read, the rest of the method (the API key and secret reads, then the action) follows `LoadFrom` over the last two keys |
| LegacySagas.LegacySettle | src/sagas/apiSagas.js:39-56 | settles to the response data, or rethrows the transport's error unchanged |
| LegacySagas.SettleAgrees | src/sagas/apiSagas.js:48-55 | the two request layers agree exactly on a response, or on an error carrying no response data |
| LegacySagas.LegacyErrorMeta | src/sagas/apiSagas.js:82 | `makeDataResponseMeta({error:true})` is the same meta as `makeErrorDataResponseMeta()` |
| LegacySagas.LegacyCallApi | src/sagas/apiSagas.js:73-98 | the effects, storage and result are those of `LegacyCallTrace` |
| LegacySagas.LegacyCallShape | src/sagas/apiSagas.js:73-98 | true exactly when the request did not reject; one send, then at most one dispatch; never a snackbar |
| LegacySagas.LegacyCallRejected | src/sagas/apiSagas.js:79-85 | on rejection: the error action with the message and error meta, if there is an error action |
| LegacySagas.LegacyRejectedTrace | src/sagas/apiSagas.js:79-85 | with an error action a rejected call is the request, then that action, and false |
| LegacySagas.LegacyCallNoErrorBranch | src/sagas/apiSagas.js:87-97 | an `isError` answer is reported as a success, and the call answers true |
| LegacySagas.LegacyAfterSuccessReports | src/sagas/apiSagas.js:87-97 | one success action with the transformed data and response meta, captured; nothing when the transform throws |
| LegacySagas.LegacyCallSucceeds | src/sagas/apiSagas.js:87-97 | the success action follows the request and is what is captured; a transform that throws is swallowed |
| LegacySagas.LegacyCallNoStorage | src/sagas/apiSagas.js:73-98 | the older `callApi` never touches storage |
| LegacySagas.NoCreatorsOnlySend | src/sagas/apiSagas.js:73-98 | with no creators the older `callApi` only sends |
| LegacySagas.LegacyFinishRequestToken | src/sagas/apiSagas.js:157-168 | the method after `callApi` follows `LegacyAfterRequestToken` |
| LegacySagas.LegacyGetRequestToken | src/sagas/apiSagas.js:119-169 | the whole saga is `LegacyRequestTokenRun` |
| LegacySagas.LegacyAccessTokenRequestCall | src/sagas/apiSagas.js:176-204 | the first half follows `LegacyAccessTokenCall` |
| LegacySagas.LegacyVerifyPin | src/sagas/apiSagas.js:175-229 | the whole saga is `LegacyVerifyPinRun` |
| LegacySagas.LegacyTokenCallSucceeds | src/sagas/apiSagas.js:143-155 | a body that parses yields the step's action with the parsed fields and response meta, captured |
| LegacySagas.LegacyAfterRequestTokenProceeds | src/sagas/apiSagas.js:157-168 | after success: only the authorization URL for the captured token |
| LegacySagas.LegacyAfterRequestTokenQuiet | src/sagas/apiSagas.js:157-168 | what follows the call never touches storage |
| LegacySagas.LegacyRequestTokenSucceeds | src/sagas/apiSagas.js:143-168 | on success the URL follows the token action directly and nothing is written |
| LegacySagas.LegacyRequestTokenExchangeIs | src/sagas/apiSagas.js:143-168 | the exchange is the call's effects followed by what its result leads to |
| LegacySagas.LegacyRequestTokenNeverWrites | src/sagas/apiSagas.js:119-169 | whatever the answer, the older request-token exchange leaves storage alone |
| LegacySagas.LegacyAccessTokenSucceeds | src/sagas/apiSagas.js:208-228 | on success `authToken` and then `authTokenSecret` are saved |
| LegacySagas.LegacyAccessTokenRejected | src/sagas/apiSagas.js:208-228 | on rejection the error action is the only effect after the request, and nothing is written |
| LegacySagas.TestRequestUrlPlain | src/sagas/apiSagas.js:250-253 | the test URL carries no query, so signing never throws |
| LegacySagas.TestRequestSign | src/sagas/apiSagas.js:242-257 | the signing half follows `TestRequestCall` |
| LegacySagas.TestRequestSend | src/sagas/apiSagas.js:259-262 | the request alone, and no action whatever the answer |
| LegacySagas.TestRequestRunAfter | src/sagas/apiSagas.js:234-264 | the saga is its signing step followed by the request |
| LegacySagas.TestRequest | src/sagas/apiSagas.js:234-264 | the method's effects and storage are `TestRequestRun` |
| LegacySagas.TestRequestOnlySends | src/sagas/apiSagas.js:242-262 | once destructured the request always goes out and is the only effect |
| LegacySagas.TestRequestMatchesPrepared | src/sagas/apiSagas.js:242-257 | the test request is exactly what `prepareAuthRequest('!authuser')` prepares for the same credentials and token, for every `API_V2` not found in `!authuser`, the program's undefined one included |
| LegacySagas.WiredSelectionsThrow | src/state/api/selectors.js:1-7 | every state the combined api reducer produces lacks `smugmugConsumerCredentials` and `smugmugAccessToken`, so both selectors answer undefined; then `prepareAuthRequest` and the verify step of both layers throw a TypeError |
| LegacySagas.TestRequestSigned | src/sagas/apiSagas.js:242-257 | `oauth_token` is the access token, signed exactly when truthy; the consumer key is the payload's; the signature is the signing key |
| LegacySagas.TestApi | src/sagas/apiSagas.js:103-114 | its effects are those of the older `callApi` on an unsigned GET of the test URL; storage unchanged |
| LegacySagas.TestApiReports | src/sagas/apiSagas.js:103-114 | exactly two effects: the request, then one test-data action with the data on success or with the error's message and error meta on failure |
| LegacySagas.LegacyLoadFromLocalStorage | src/sagas/apiSagas.js:269-284 | reads the two keys in order, stops at the first that throws, and otherwise dispatches both values with response meta |
| DataSagas.CallSigned | src/sagas/smugmugDataSagas.js:21-25 | signs the path, then calls the API with the signed request |
| DataSagas.SignedCallSends | src/sagas/smugmugDataSagas.js:21-25 | signing fails with no request sent; once signed the step is exactly its call |
| DataSagas.SummaryUser | src/sagas/smugmugDataSagas.js:24 | `data.Response.User`, throwing when `Response` is missing |
| DataSagas.SummaryDataSaga | src/sagas/smugmugDataSagas.js:20-26 | the method's effects and storage are `SummaryRun` |
| DataSagas.SummaryStoresUser | src/sagas/smugmugDataSagas.js:20-26 | a good answer stores `Response.User` as summary data; one without `Response` dispatches nothing yet still counts as a success |
| DataSagas.ControlledErrorTransform | src/sagas/smugmugDataSagas.js:237-245 | truthy exactly when `Code` and `Message` are both truthy, and undefined otherwise |
| DataSagas.ControlledErrorText | src/sagas/smugmugDataSagas.js:237-245 | with a description the text begins `Query for ` and ends ` (code)`; without one it is `Error: message code` |
| DataSagas.ExploreDataSaga | src/sagas/smugmugDataSagas.js:247-254 | the method's effects and storage are `ExploreRun` |
| DataSagas.ExploreErrorMessage | src/sagas/smugmugDataSagas.js:247-254 | a SmugMug error answer is reported by the explore action and a snackbar with SmugMug's message and code, or the default |
| DataSagas.ExploreSucceeds | src/sagas/smugmugDataSagas.js:247-254 | a good answer becomes the explore data as it is, followed by the success snackbar |
| FeaturesSaga.ReportFailure | src/sagas/smugmugDataSagas.js:57-61 | the features action with the message and error meta, then a snackbar with it |
| FeaturesSaga.FindFeaturesFirst | src/sagas/smugmugDataSagas.js:100 | `find` gives the first node named Features, nothing exactly when every node is an object with another name, and throws on a nullish node first |
| FeaturesSaga.FeaturesNodeLookup | src/sagas/smugmugDataSagas.js:89-100 | the folder is the first node named Features among the children listed under `${Uri}!children?count=25` |
| FeaturesSaga.SortExpansions | src/sagas/smugmugDataSagas.js:148-180 | the sorting loop gives `SortKeys`: its sources, destination and images, or the throw |
| FeaturesSaga.SortStaysFailed | src/sagas/smugmugDataSagas.js:151-180 | once the sort has thrown, the rest of the keys do not matter |
| FeaturesSaga.SortFails | src/sagas/smugmugDataSagas.js:151-180 | the sort throws exactly when some child cannot be read |
| FeaturesSaga.SortChildStep | src/sagas/smugmugDataSagas.js:152-179 | one turn of the sort, stated through predicates on the child |
| FeaturesSaga.SortLists | src/sagas/smugmugDataSagas.js:148-180 | every album but the Home ones is a source and every album image a highlight image, in key order |
| FeaturesSaga.SortDestination | src/sagas/smugmugDataSagas.js:165-166 | the destination is the data of the last album named Home, none without one |
| FeaturesSaga.FindSource | src/sagas/smugmugDataSagas.js:193 | the index of the first source with the album key, none when no source has it |
| FeaturesSaga.TargetOf | src/sagas/smugmugDataSagas.js:189-199 | a source target lies within the sources |
| FeaturesSaga.MatchHighlights | src/sagas/smugmugDataSagas.js:188-200 | the attaching loop gives `AttachAll`, with the in-place updates as sequence updates |
| FeaturesSaga.AttachKeepsAlbums | src/sagas/smugmugDataSagas.js:188-200 | attaching changes no album's other fields; the loop throws exactly with images and no destination |
| FeaturesSaga.AttachFlagsError | src/sagas/smugmugDataSagas.js:188-200 | `hasImageError` is set exactly when some image goes nowhere |
| FeaturesSaga.AttachToSources | src/sagas/smugmugDataSagas.js:193-195 | each source ends with the last image directed to it, or as it was |
| FeaturesSaga.AttachToDestination | src/sagas/smugmugDataSagas.js:190-191 | the destination ends with the last image directed to it, or as it was |
| FeaturesSaga.AttachMatches | src/sagas/smugmugDataSagas.js:188-200 | the loop ends as the image-by-image account says, and throws exactly with images and no destination |
| FeaturesSaga.ReportCrashes | src/sagas/smugmugDataSagas.js:148-213 | the report throws exactly when `Expansions` is nullish, a child cannot be read, or there are images and no destination |
| FeaturesSaga.ReportOutcome | src/sagas/smugmugDataSagas.js:202-213 | a report sends one features action: the failure for an unconnected image, else the sources and destination with response meta |
| FeaturesSaga.ReportFeatures | src/sagas/smugmugDataSagas.js:148-213 | the method's effects are `Report` |
| FeaturesSaga.NoSummaryFails | src/sagas/smugmugDataSagas.js:67-70 | without a root node URI the saga reports `Summary data not loaded.` and sends nothing |
| FeaturesSaga.FindFolder | src/sagas/smugmugDataSagas.js:89-105 | the method after the root call follows `AfterRootCall` |
| FeaturesSaga.FetchFolder | src/sagas/smugmugDataSagas.js:107-119 | the method for the folder request follows `FolderStep` |
| FeaturesSaga.FolderStepSigned | src/sagas/smugmugDataSagas.js:107-119 | the folder step is the signing failure, or the folder call's effects followed by what its ending leads to |
| FeaturesSaga.CallAndReport | src/sagas/smugmugDataSagas.js:113-213 | the method for the signed folder call follows the call's trace and then `AfterFolderCall` |
| FeaturesSaga.ReportFolder | src/sagas/smugmugDataSagas.js:117-213 | the method after the folder call follows `AfterFolderCall` |
| FeaturesSaga.HomePageFeaturesDataSaga | src/sagas/smugmugDataSagas.js:63-233 | the method's effects and storage are `FeaturesRun` |

## Left out

- The root sagas (`rootSaga` in each saga file, the `takeEvery` registrations, `src/sagas/index.js`) and the store setup: saga scheduling and concurrency are not modelled. Each saga is one method run to its end.
- Selectors (`src/state/*/selectors.js`) become parameters of the sagas: the values `select` answers. The sagas' lemmas therefore also cover selections the wired program cannot produce. With the api reducer as written, the consumer credentials and the access token are always undefined, and every signed request throws before it is sent. `LegacySagas.WiredSelectionsThrow` states this, and the success lemmas of the summary, explore, features and verify sagas describe states the wired program does not reach.
- The network is a `Transport` input: the answer or the error of the request. The clock (`getTimeStamp`) is an integer input. `Math.random` is a list of picks, each an index into the nonce alphabet.
- `fastCryptoHash` (HMAC-SHA1 via `crypto`), the configured hash and body-hash functions, and `JSON.stringify` are function parameters, not computed.
- `API_V2` is a parameter of the signing sagas, so their lemmas hold for any value. The program's value is the text "undefined" (`ApiUtils.ImportedApiV2`), because `shared/oauth` does not export the name. The environment constants (`SMUGMUG_NICKNAME`, `SMUGMUG_API_KEY`) are parameters.
- ApiUtils.ResolveUrlVersioned: states the resolution for an `API_V2` of `/api/v2`, a value the program never has. What the program does with its undefined `API_V2`, doubling the version segment of a `/api/v2…` path, is stated by `ApiUtils.ResolveUrlAsImported`.
- ApiReducers.SliceSteps: `smugmugCredentialsAction` is not exported by the api actions table, so the credentials handler's key is a parameter (`credentialsKey`).
- The `openSnackbar`/`closeSnackbar` creators and their types come from `src/state/ui/actions.js`, which is not part of this model. The ui reducers take the two types as parameters and the sagas record a snackbar as its own effect.
- `smugmugTestRequestAction` is not exported by the api actions table, so the test request saga passes undefined creators to `callApi` (`NoCreators`).
- The mock `src/sagas/userSagas.js` is not part of this model.
- Console output (`console.error`, `console.log`, `log.debug`) is not modelled.
- Dispatch (`put`) is assumed not to throw; an error thrown by a reducer during dispatch is not modelled.
- Local storage holds values of any kind; the string conversion `AsyncStorage` applies is not modelled.
- `Object.keys` order: objects are maps, so key order is lost. The features saga, the only place where order matters, takes the enumeration order as a parameter.
- Object identity: `===` (FeaturesSaga.StrictEquals) compares primitives by value and never holds between two objects or two arrays, since the values it compares are read from different places of one parsed answer; identity is not modelled otherwise. The in-place updates of found albums in the features saga are updates by index of a local sequence. The aliasing between `featureDestination` and an entry of `featureSources` is not modelled, and the saga never creates it.
- `sort()` compares strings by code point; JavaScript compares UTF-16 code units. They differ only between astral characters and U+E000 to U+FFFF.
- Numbers are integers. `String(n)` is modelled for integers only; fractions, NaN and infinities are not modelled.
- `percentEncode` works on Unicode scalar values, so the lone-surrogate URIError of `encodeURIComponent` cannot arise.
- The string form of objects (`[object Object]`) and of lists joined with `,` is modelled where the code relies on it. Other built-in conversions are not.
- `convertQueryStringToObject` on a value that is a list or another non-string throws a TypeError in the model, as `split` does not exist on it.
- QueryString.Lookup: reads only the accumulator's own keys. A query key naming an `Object.prototype` member is not modelled: `constructor=x` finds the inherited function and yields a list, `__proto__=x` replaces the prototype and adds no key, and `toString=x` and the like yield a list too.
- JsValues.ToUpperAscii: upper-cases ASCII letters only. `toUpperCase` on the request method also maps non-ASCII letters (`ß` to `SS`, for example); the methods the core signs are ASCII.
- DataSagas.ExploreDataSaga: a query that is not a string is a TypeError. In the source an array query has `indexOf` and is signed with its elements joined by commas; that path is not modelled.
- DataSagas.ControlledErrorTransform: takes a non-nullish answer, because `callApi` reaches the transform only after reading `isError` from the answer.
- `fastCryptoHash`'s default encoding parameter and `removeFromLocalStorage` are not used by the core and are not modelled.
