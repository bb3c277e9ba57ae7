/** `homePageFeaturesDataSaga`: from the user's root node it finds the
    folder named Features, fetches that folder's albums with their
    highlight images, sorts the albums into the home album (the
    destination) and the others (the sources), attaches each highlight
    image to its album and dispatches the result once. Every failure is
    reported once, by the features action with error meta and a snackbar.

    The key order of `Object.keys` is the host's: the saga takes it as a
    parameter, a function from an object's entries to the keys in the order
    they are enumerated. The host lists each key exactly once; the contracts
    below hold for any such function, and so for that one in particular. */
module FeaturesSaga {
  import opened JsValues
  import opened ActionMeta
  import opened SagaRuntime
  import opened ApiUtils
  import opened DataSagas
  import HomeFeaturesReducers

  const FeaturesType: string := HomeFeaturesReducers.HomePageFeaturesDataType
  const ProgressType: string := HomeFeaturesReducers.HomePageFeaturesDataProgressType

  const SummaryNotLoaded: string := "Summary data not loaded."
  const FeaturesNotFound: string := "Failed to find Features node."
  const UnconnectedImage: string := "Could not connect highlight image with an album."

  /** `JSON.stringify` of the root-node expansion: its child nodes, 25 at most. */
  const RootNodeQueryExpansion: string := "{\"expand\":{\"ChildNodes\":{\"args\":{\"count\":25}}}}"

  /** `JSON.stringify` of the features-folder expansion: its child nodes, 20
      at most, each with its album and the album's highlight image. */
  const FeaturesNodeQueryExpansion: string :=
    "{\"expand\":{\"ChildNodes\":{\"expand\":{\"Album\":{\"expand\":{\"AlbumHighlightImage\":{}}}},\"args\":{\"count\":20}}}}"

  // ---------------------------------------------------------------------
  // Reporting

  /** `homePageFeaturesDataErrorSaga(message)`: the features action carrying
      the message with error response meta, then a snackbar showing it. */
  function FailWith(message: string): seq<Effect> {
    [Dispatch(DataAction(FeaturesType, Str(message), MakeErrorDataResponseMeta(Undef))), Snackbar(InfoSnackbar(Str(message)))]
  }

  method ReportFailure(rt: Runtime, message: string) returns (ending: Ending<()>)
    modifies rt
    ensures rt.effects == old(rt.effects) + FailWith(message) && rt.storage == old(rt.storage)
    ensures ending == Finished(())
  {
    rt.Put(DataAction(FeaturesType, Str(message), MakeErrorDataResponseMeta(Undef)));
    rt.OpenSnackbar(InfoSnackbar(Str(message)));
    ending := Finished(());
  }

  /** The options of both calls: the progress action, which captures the
      payload, on success; the features action on error. */
  function FeaturesOptions(): CallOptions {
    CallOptions(None, Some(IdentityCreator(ProgressType)), None, Some(DataCreator(FeaturesType)), Undef, Undef, None)
  }

  /** `capturedData` after a call: the payload the interceptor received, or
      what it held before when it was not called. */
  function Recaptured(res: CallResult, previous: Val): Val {
    if res.captured.Some? then res.captured.value.0 else previous
  }

  // ---------------------------------------------------------------------
  // Finding the Features folder

  /** `summaryData?.Uris?.Node?.Uri` */
  function RootNodeUri(summaryData: Val): Val {
    OptProp(OptProp(OptProp(summaryData, "Uris"), "Node"), "Uri")
  }

  function RootNodeUrl(rootNodeUri: Val): string {
    ToJsString(rootNodeUri) + "?_config=" + RootNodeQueryExpansion
  }

  /** Where the root's expansion lists its children. */
  function ExpansionKey(baseUri: Val): string {
    ToJsString(baseUri) + "!children?count=25"
  }

  function FolderUrl(node: Val): string {
    "/node/" + ToJsString(OptProp(node, "NodeID")) + "?_config=" + FeaturesNodeQueryExpansion
  }

  predicate NamedFeatures(node: Val) {
    OptProp(node, "Name") == Str("Features")
  }

  /** The nodes before i are all objects not named Features. */
  predicate PassedOver(nodes: seq<Val>, i: int)
    requires 0 <= i <= |nodes|
  {
    forall j :: 0 <= j < i ==> !Nullish(nodes[j]) && !NamedFeatures(nodes[j])
  }

  /** `nodes.find(n => n.Name === 'Features')`: the first node named
      Features, or None; reading `Name` of a null or undefined node met
      first throws. */
  function FindFeatures(nodes: seq<Val>): Ending<Option<Val>>
    decreases |nodes|
  {
    if nodes == [] then Finished(None)
    else
      match Prop(nodes[0], "Name")
      case None => Crashed(TypeError)
      case Some(name) => if name == Str("Features") then Finished(Some(nodes[0])) else FindFeatures(nodes[1..])
  }

  /** The search finds nothing exactly when every node is an object not
      named Features; what it finds is the first node named Features; it
      throws exactly when a null or undefined node comes first. */
  lemma {:induction false} FindFeaturesFirst(nodes: seq<Val>)
    ensures FindFeatures(nodes) == Finished(None) <==> PassedOver(nodes, |nodes|)
    ensures FindFeatures(nodes).Finished? && FindFeatures(nodes).value.Some? ==>
      exists i :: 0 <= i < |nodes| && PassedOver(nodes, i) && NamedFeatures(nodes[i]) && FindFeatures(nodes).value.value == nodes[i]
    ensures FindFeatures(nodes).Crashed? <==> exists i :: 0 <= i < |nodes| && PassedOver(nodes, i) && Nullish(nodes[i])
    ensures FindFeatures(nodes).Crashed? ==> FindFeatures(nodes).error == TypeError
    decreases |nodes|
  {
    if nodes != [] {
      var rest := nodes[1..];
      FindFeaturesFirst(rest);
      forall i | 1 <= i <= |nodes| ensures PassedOver(nodes, i) <==> PassedOver(nodes, 1) && PassedOver(rest, i - 1) {
        if PassedOver(nodes, 1) && PassedOver(rest, i - 1) {
          forall j | 0 <= j < i ensures !Nullish(nodes[j]) && !NamedFeatures(nodes[j]) {
            if j > 0 { assert nodes[j] == rest[j - 1]; }
          }
        }
        if PassedOver(nodes, i) {
          forall j | 0 <= j < i - 1 ensures !Nullish(rest[j]) && !NamedFeatures(rest[j]) {
            assert rest[j] == nodes[j + 1];
          }
        }
      }
      if Nullish(nodes[0]) {
        assert PassedOver(nodes, 0);
      } else if NamedFeatures(nodes[0]) {
        assert PassedOver(nodes, 0);
        assert !PassedOver(nodes, |nodes|);
        forall i | 0 < i <= |nodes| ensures !PassedOver(nodes, i) {
          assert NamedFeatures(nodes[0]);
        }
      } else {
        assert PassedOver(nodes, 1);
        if FindFeatures(rest).Finished? && FindFeatures(rest).value.Some? {
          var i :| 0 <= i < |rest| && PassedOver(rest, i) && NamedFeatures(rest[i]) && FindFeatures(rest).value.value == rest[i];
          assert PassedOver(nodes, i + 1) && nodes[i + 1] == rest[i];
        }
        if FindFeatures(rest).Crashed? {
          var i :| 0 <= i < |rest| && PassedOver(rest, i) && Nullish(rest[i]);
          assert PassedOver(nodes, i + 1) && nodes[i + 1] == rest[i];
        }
        if exists i :: 0 <= i < |nodes| && PassedOver(nodes, i) && Nullish(nodes[i]) {
          var i :| 0 <= i < |nodes| && PassedOver(nodes, i) && Nullish(nodes[i]);
          assert i > 0;
          assert PassedOver(rest, i - 1) && Nullish(rest[i - 1]);
        }
      }
    }
  }

  /** `capturedData.Expansions[expansionKey].Node.find(…)`, where the key is
      the root's `Response.Uri` followed by `!children?count=25`; reading
      through a missing step throws, and so does calling `find` on what is
      not an array. */
  function FeaturesNode(captured: Val): Ending<Option<Val>> {
    match Prop(captured, "Response")
    case None => Crashed(TypeError)
    case Some(response) =>
      match Prop(response, "Uri")
      case None => Crashed(TypeError)
      case Some(baseUri) =>
        var expansions := OptProp(captured, "Expansions");
        match Prop(expansions, ExpansionKey(baseUri))
        case None => Crashed(TypeError)
        case Some(expansionData) =>
          match Prop(expansionData, "Node")
          case None => Crashed(TypeError)
          case Some(nodes) => if nodes.Arr? then FindFeatures(nodes.items) else Crashed(TypeError)
  }

  /** In a well-formed root answer the Features folder is the first node
      named Features among the children listed under the root's own URI
      followed by `!children?count=25`. */
  lemma FeaturesNodeLookup(uri: Val, children: seq<Val>, response: map<string, Val>, expansions: map<string, Val>,
                           captured: map<string, Val>)
    requires "Uri" in response && response["Uri"] == uri
    requires ExpansionKey(uri) in expansions && expansions[ExpansionKey(uri)] == Obj(map["Node" := Arr(children)])
    requires "Response" in captured && captured["Response"] == Obj(response)
    requires "Expansions" in captured && captured["Expansions"] == Obj(expansions)
    ensures FeaturesNode(Obj(captured)) == FindFeatures(children)
    ensures PassedOver(children, |children|) ==> FeaturesNode(Obj(captured)) == Finished(None)
  {
    assert Prop(Obj(captured), "Response") == Some(Obj(response));
    assert Prop(Obj(response), "Uri") == Some(uri);
    assert OptProp(Obj(captured), "Expansions") == Obj(expansions);
    assert Prop(Obj(expansions), ExpansionKey(uri)) == Some(Obj(map["Node" := Arr(children)]));
    assert Prop(Obj(map["Node" := Arr(children)]), "Node") == Some(Arr(children));
    FindFeaturesFirst(children);
  }

  // ---------------------------------------------------------------------
  // Sorting the expansions

  /** An album's entry in the payload. Reading through a null or undefined
      album, `Uris` or `AlbumImages` throws (None). */
  function AlbumData(album: Val): Option<map<string, Val>> {
    var uris := OptProp(album, "Uris");
    if Nullish(album) || Nullish(uris) || Nullish(OptProp(uris, "AlbumImages")) then None
    else
      Some(map["name" := OptProp(album, "Name"), "key" := OptProp(album, "AlbumKey"),
               "nodeId" := OptProp(album, "NodeID"), "description" := OptProp(album, "Description"),
               "imageCount" := OptProp(album, "ImageCount"), "imagesLastUpdated" := OptProp(album, "ImagesLastUpdated"),
               "highlightImageUri" := OptProp(album, "HighlightAlbumImageUri"),
               "albumImagesUri" := OptProp(OptProp(uris, "AlbumImages"), "Uri")])
  }

  /** A highlight image's entry. Reading through a null or undefined image
      throws (None). */
  function ImageData(albumImage: Val): Option<map<string, Val>> {
    if Nullish(albumImage) then None
    else
      Some(map["thumbnailUrl" := OptProp(albumImage, "ThumbnailUrl"), "title" := OptProp(albumImage, "Title"),
               "key" := OptProp(albumImage, "ImageKey"), "albumKey" := OptProp(albumImage, "AlbumKey"),
               "collectedFrom" := OptProp(albumImage, "CollectedFrom")])
  }

  /** `capturedData.Expansions[key]`: undefined for a key it does not have. */
  function Child(entries: map<string, Val>, key: string): Val {
    if key in entries then entries[key] else Undef
  }

  /** A field of an entry. */
  function Field(m: map<string, Val>, k: string): Val {
    if k in m then m[k] else Undef
  }

  predicate IsAlbum(child: Val) {
    OptProp(child, "Locator") == Str("Album")
  }

  predicate IsImage(child: Val) {
    OptProp(child, "Locator") == Str("AlbumImage")
  }

  predicate IsHome(child: Val) {
    IsAlbum(child) && OptProp(OptProp(child, "Album"), "Name") == Str("Home")
  }

  /** The sort reads this child without throwing. */
  predicate Readable(child: Val) {
    !Nullish(child)
    && (IsAlbum(child) ==> AlbumData(OptProp(child, "Album")).Some?)
    && (IsImage(child) ==> ImageData(OptProp(child, "AlbumImage")).Some?)
  }

  /** The three lists the sort builds. */
  datatype Sorted = Sorted(sources: seq<map<string, Val>>, destination: Option<map<string, Val>>, images: seq<map<string, Val>>)

  /** One turn of the `forEach`: an album named Home becomes the destination,
      any other album is pushed onto the sources, an album image onto the
      highlight images; any other locator is skipped. */
  function SortChild(s: Sorted, child: Val): Option<Sorted> {
    match Prop(child, "Locator")
    case None => None
    case Some(locator) =>
      if locator == Str("Album") then
        match AlbumData(OptProp(child, "Album"))
        case None => None
        case Some(data) =>
          if data["name"] == Str("Home") then Some(s.(destination := Some(data)))
          else Some(s.(sources := s.sources + [data]))
      else if locator == Str("AlbumImage") then
        match ImageData(OptProp(child, "AlbumImage"))
        case None => None
        case Some(image) => Some(s.(images := s.images + [image]))
      else Some(s)
  }

  /** The sort over the keys in enumeration order. */
  function SortKeys(entries: map<string, Val>, keys: seq<string>): Option<Sorted>
    decreases |keys|
  {
    if keys == [] then Some(Sorted([], None, []))
    else
      match SortKeys(entries, keys[..|keys| - 1])
      case None => None
      case Some(s) => SortChild(s, Child(entries, keys[|keys| - 1]))
  }

  /** Once the sort has thrown, the rest of the keys do not matter. */
  lemma {:induction false} SortStaysFailed(entries: map<string, Val>, keys: seq<string>, i: nat)
    requires i <= |keys| && SortKeys(entries, keys[..i]).None?
    ensures SortKeys(entries, keys).None?
    decreases |keys| - i
  {
    if i < |keys| {
      assert keys[..i + 1][..i] == keys[..i];
      SortStaysFailed(entries, keys, i + 1);
    } else {
      assert keys[..i] == keys;
    }
  }

  /** The sort, with the lists it pushes onto as local sequences. */
  method SortExpansions(entries: map<string, Val>, keys: seq<string>) returns (r: Option<Sorted>)
    ensures r == SortKeys(entries, keys)
  {
    var featureSources: seq<map<string, Val>> := [];
    var featureDestination: Option<map<string, Val>> := None;
    var highlightImages: seq<map<string, Val>> := [];
    var i := 0;
    while i < |keys|
      invariant 0 <= i <= |keys|
      invariant SortKeys(entries, keys[..i]) == Some(Sorted(featureSources, featureDestination, highlightImages))
    {
      assert keys[..i + 1][..i] == keys[..i];
      var child := Child(entries, keys[i]);
      var locator := Prop(child, "Locator");
      if locator.None? {
        SortStaysFailed(entries, keys, i + 1);
        return None;
      }
      if locator.value == Str("Album") {
        var data := AlbumData(OptProp(child, "Album"));
        if data.None? {
          SortStaysFailed(entries, keys, i + 1);
          return None;
        }
        if data.value["name"] == Str("Home") {
          featureDestination := data;
        } else {
          featureSources := featureSources + [data.value];
        }
      } else if locator.value == Str("AlbumImage") {
        var image := ImageData(OptProp(child, "AlbumImage"));
        if image.None? {
          SortStaysFailed(entries, keys, i + 1);
          return None;
        }
        highlightImages := highlightImages + [image.value];
      }
      i := i + 1;
    }
    assert keys[..i] == keys;
    r := Some(Sorted(featureSources, featureDestination, highlightImages));
  }

  /** The sort throws exactly when some child cannot be read. */
  lemma {:induction false} SortFails(entries: map<string, Val>, keys: seq<string>)
    ensures SortKeys(entries, keys).None? <==> exists i :: 0 <= i < |keys| && !Readable(Child(entries, keys[i]))
    decreases |keys|
  {
    if keys != [] {
      var init, last := keys[..|keys| - 1], keys[|keys| - 1];
      SortFails(entries, init);
      if exists i :: 0 <= i < |keys| && !Readable(Child(entries, keys[i])) {
        var i :| 0 <= i < |keys| && !Readable(Child(entries, keys[i]));
        if i < |init| {
          assert init[i] == keys[i];
        }
      }
      if exists i :: 0 <= i < |init| && !Readable(Child(entries, init[i])) {
        var i :| 0 <= i < |init| && !Readable(Child(entries, init[i]));
        assert keys[i] == init[i];
      }
    }
  }

  /** The sources in key order: the data of every album not named Home. */
  function SourcesOf(entries: map<string, Val>, keys: seq<string>): seq<map<string, Val>>
    decreases |keys|
  {
    if keys == [] then []
    else
      var child := Child(entries, keys[0]);
      var here := if IsAlbum(child) && !IsHome(child) && AlbumData(OptProp(child, "Album")).Some?
                  then [AlbumData(OptProp(child, "Album")).value] else [];
      here + SourcesOf(entries, keys[1..])
  }

  /** The highlight images in key order: the data of every album image. */
  function ImagesOf(entries: map<string, Val>, keys: seq<string>): seq<map<string, Val>>
    decreases |keys|
  {
    if keys == [] then []
    else
      var child := Child(entries, keys[0]);
      var here := if IsImage(child) && ImageData(OptProp(child, "AlbumImage")).Some?
                  then [ImageData(OptProp(child, "AlbumImage")).value] else [];
      here + ImagesOf(entries, keys[1..])
  }

  lemma {:induction false} SourcesOfAppend(entries: map<string, Val>, keys: seq<string>, k: string)
    ensures var child := Child(entries, k);
      SourcesOf(entries, keys + [k]) == SourcesOf(entries, keys) +
        (if IsAlbum(child) && !IsHome(child) && AlbumData(OptProp(child, "Album")).Some?
         then [AlbumData(OptProp(child, "Album")).value] else [])
    decreases |keys|
  {
    if keys != [] {
      assert (keys + [k])[1..] == keys[1..] + [k];
      SourcesOfAppend(entries, keys[1..], k);
    }
  }

  lemma {:induction false} ImagesOfAppend(entries: map<string, Val>, keys: seq<string>, k: string)
    ensures var child := Child(entries, k);
      ImagesOf(entries, keys + [k]) == ImagesOf(entries, keys) +
        (if IsImage(child) && ImageData(OptProp(child, "AlbumImage")).Some? then [ImageData(OptProp(child, "AlbumImage")).value] else [])
    decreases |keys|
  {
    if keys != [] {
      assert (keys + [k])[1..] == keys[1..] + [k];
      ImagesOfAppend(entries, keys[1..], k);
    }
  }

  /** One turn of the sort, stated through the predicates on the child. */
  lemma SortChildStep(s: Sorted, child: Val)
    requires SortChild(s, child).Some?
    ensures var t := SortChild(s, child).value;
      t.sources == s.sources + (if IsAlbum(child) && !IsHome(child) && AlbumData(OptProp(child, "Album")).Some?
                                then [AlbumData(OptProp(child, "Album")).value] else [])
      && t.images == s.images + (if IsImage(child) && ImageData(OptProp(child, "AlbumImage")).Some?
                                 then [ImageData(OptProp(child, "AlbumImage")).value] else [])
      && t.destination == (if IsHome(child) then AlbumData(OptProp(child, "Album")) else s.destination)
  {
    assert s.sources + [] == s.sources && s.images + [] == s.images;
  }

  /** The position of the last album named Home among the keys. */
  function LastHome(entries: map<string, Val>, keys: seq<string>): (r: Option<nat>)
    ensures r.Some? ==>
      r.value < |keys| && IsHome(Child(entries, keys[r.value]))
      && forall j :: r.value < j < |keys| ==> !IsHome(Child(entries, keys[j]))
    ensures r.None? ==> forall i :: 0 <= i < |keys| ==> !IsHome(Child(entries, keys[i]))
    decreases |keys|
  {
    if keys == [] then None
    else if IsHome(Child(entries, keys[|keys| - 1])) then Some(|keys| - 1)
    else LastHome(entries, keys[..|keys| - 1])
  }

  /** A sort that does not throw keeps every album but the Home ones as a
      source and every album image as a highlight image, each in key order. */
  lemma {:induction false} SortLists(entries: map<string, Val>, keys: seq<string>)
    requires SortKeys(entries, keys).Some?
    ensures var s := SortKeys(entries, keys).value;
      s.sources == SourcesOf(entries, keys) && s.images == ImagesOf(entries, keys)
    decreases |keys|
  {
    if keys != [] {
      var init, last := keys[..|keys| - 1], keys[|keys| - 1];
      assert init + [last] == keys;
      SortLists(entries, init);
      SourcesOfAppend(entries, init, last);
      ImagesOfAppend(entries, init, last);
      SortChildStep(SortKeys(entries, init).value, Child(entries, last));
    }
  }

  /** The destination is the data of the last album named Home, and none
      when there is no such album. */
  lemma {:induction false} SortDestination(entries: map<string, Val>, keys: seq<string>)
    requires SortKeys(entries, keys).Some?
    ensures var s, h := SortKeys(entries, keys).value, LastHome(entries, keys);
      s.destination == (if h.Some? then AlbumData(OptProp(Child(entries, keys[h.value]), "Album")) else None)
    decreases |keys|
  {
    if keys != [] {
      var init, last := keys[..|keys| - 1], keys[|keys| - 1];
      SortDestination(entries, init);
      SortChildStep(SortKeys(entries, init).value, Child(entries, last));
      var h := LastHome(entries, init);
      if h.Some? {
        assert init[h.value] == keys[h.value];
      }
    }
  }

  // ---------------------------------------------------------------------
  // Attaching the highlight images

  /** `===` between values read from one parsed answer: primitives compare
      by value, and two objects or arrays read from different places are
      never the same object. */
  predicate StrictEquals(a: Val, b: Val) {
    a == b && !a.Obj? && !a.Arr?
  }

  /** `featureSources.find(s => s.key === albumKey)`, as the index of the
      first source with that key. */
  function FindSource(sources: seq<map<string, Val>>, albumKey: Val): (r: Option<nat>)
    ensures r.Some? ==> (r.value < |sources| && StrictEquals(Field(sources[r.value], "key"), albumKey)
                         && forall j :: 0 <= j < r.value ==> !StrictEquals(Field(sources[j], "key"), albumKey))
    ensures r.None? ==> forall j :: 0 <= j < |sources| ==> !StrictEquals(Field(sources[j], "key"), albumKey)
    decreases |sources|
  {
    if sources == [] then None
    else if StrictEquals(Field(sources[0], "key"), albumKey) then Some(0)
    else
      match FindSource(sources[1..], albumKey)
      case None => None
      case Some(j) => Some(j + 1)
  }

  /** Where an image goes: to the destination when its album key is the
      destination's, else to the first source with that key, else nowhere. */
  datatype Target = ToDestination | ToSource(index: nat) | Nowhere

  function TargetOf(destination: map<string, Val>, sources: seq<map<string, Val>>, image: map<string, Val>): (r: Target)
    ensures r.ToSource? ==> r.index < |sources|
  {
    if StrictEquals(Field(image, "albumKey"), Field(destination, "key")) then ToDestination
    else
      match FindSource(sources, Field(image, "albumKey"))
      case None => Nowhere
      case Some(j) => ToSource(j)
  }

  /** `entry.highlightImage = image` */
  function Attach(entry: map<string, Val>, image: map<string, Val>): map<string, Val> {
    entry["highlightImage" := Obj(image)]
  }

  /** The sources, the destination and `hasImageError` as the attaching loop
      leaves them. */
  datatype Attached = Attached(sources: seq<map<string, Val>>, destination: Option<map<string, Val>>, imageError: bool)

  /** One turn of the loop; reading `key` of an undefined destination
      throws (None). */
  function AttachImage(a: Attached, image: map<string, Val>): Option<Attached> {
    if a.destination.None? then None
    else
      match TargetOf(a.destination.value, a.sources, image)
      case ToDestination => Some(a.(destination := Some(Attach(a.destination.value, image))))
      case ToSource(j) => Some(a.(sources := a.sources[j := Attach(a.sources[j], image)]))
      case Nowhere => Some(a.(imageError := true))
  }

  /** The loop over the highlight images in order. */
  function AttachAll(sources: seq<map<string, Val>>, destination: Option<map<string, Val>>, images: seq<map<string, Val>>)
    : Option<Attached>
    decreases |images|
  {
    if images == [] then Some(Attached(sources, destination, false))
    else
      match AttachAll(sources, destination, images[..|images| - 1])
      case None => None
      case Some(a) => AttachImage(a, images[|images| - 1])
  }

  lemma {:induction false} AttachStaysFailed(sources: seq<map<string, Val>>, destination: Option<map<string, Val>>,
                                             images: seq<map<string, Val>>, i: nat)
    requires i <= |images| && AttachAll(sources, destination, images[..i]).None?
    ensures AttachAll(sources, destination, images).None?
    decreases |images| - i
  {
    if i < |images| {
      assert images[..i + 1][..i] == images[..i];
      AttachStaysFailed(sources, destination, images, i + 1);
    } else {
      assert images[..i] == images;
    }
  }

  /** The attaching loop; the in-place updates of the found objects become
      updates of the local sequence and option. */
  method MatchHighlights(sources: seq<map<string, Val>>, destination: Option<map<string, Val>>, images: seq<map<string, Val>>)
    returns (r: Option<Attached>)
    ensures r == AttachAll(sources, destination, images)
  {
    var featureSources := sources;
    var featureDestination := destination;
    var hasImageError := false;
    var i := 0;
    while i < |images|
      invariant 0 <= i <= |images|
      invariant AttachAll(sources, destination, images[..i]) == Some(Attached(featureSources, featureDestination, hasImageError))
    {
      assert images[..i + 1][..i] == images[..i];
      var image := images[i];
      if featureDestination.None? {
        AttachStaysFailed(sources, destination, images, i + 1);
        return None;
      }
      if StrictEquals(Field(image, "albumKey"), Field(featureDestination.value, "key")) {
        featureDestination := Some(Attach(featureDestination.value, image));
      } else {
        var owner := FindSource(featureSources, Field(image, "albumKey"));
        if owner.Some? {
          featureSources := featureSources[owner.value := Attach(featureSources[owner.value], image)];
        } else {
          hasImageError := true;
        }
      }
      i := i + 1;
    }
    assert images[..i] == images;
    r := Some(Attached(featureSources, featureDestination, hasImageError));
  }

  /** Two entries that differ at most in their highlight image. */
  predicate SameAlbum(a: map<string, Val>, b: map<string, Val>) {
    a - {"highlightImage"} == b - {"highlightImage"}
  }

  lemma AttachSameAlbum(a: map<string, Val>, b: map<string, Val>, image: map<string, Val>)
    requires SameAlbum(a, b)
    ensures Attach(a, image) == Attach(b, image) && SameAlbum(Attach(a, image), a)
    ensures Field(a, "key") == Field(b, "key")
  {
    var a', b' := a - {"highlightImage"}, b - {"highlightImage"};
    forall k ensures k in Attach(a, image) <==> k in Attach(b, image) {
      if k != "highlightImage" {
        assert k in a <==> k in a';
        assert k in b <==> k in b';
      }
    }
    forall k | k in Attach(a, image) ensures Attach(a, image)[k] == Attach(b, image)[k] {
      if k != "highlightImage" {
        assert a[k] == a'[k] && b[k] == b'[k];
      }
    }
    assert "key" in a <==> "key" in a';
    assert "key" in b <==> "key" in b';
    if "key" in a {
      assert a["key"] == a'["key"];
      assert b["key"] == b'["key"];
    }
    assert Attach(a, image) - {"highlightImage"} == a';
  }

  lemma {:induction false} FindSourceSameKeys(a: seq<map<string, Val>>, b: seq<map<string, Val>>, albumKey: Val)
    requires |a| == |b| && forall j :: 0 <= j < |a| ==> Field(a[j], "key") == Field(b[j], "key")
    ensures FindSource(a, albumKey) == FindSource(b, albumKey)
    decreases |a|
  {
    if a != [] {
      assert Field(a[0], "key") == Field(b[0], "key");
      forall j | 0 <= j < |a| - 1 ensures Field(a[1..][j], "key") == Field(b[1..][j], "key") {
        assert a[1..][j] == a[j + 1] && b[1..][j] == b[j + 1];
      }
      FindSourceSameKeys(a[1..], b[1..], albumKey);
    }
  }

  /** Attaching never changes an album's other fields; the loop throws
      exactly when there are images and no destination. */
  lemma {:induction false} AttachKeepsAlbums(sources: seq<map<string, Val>>, destination: Option<map<string, Val>>,
                                             images: seq<map<string, Val>>)
    ensures AttachAll(sources, destination, images).None? <==> destination.None? && images != []
    ensures var r := AttachAll(sources, destination, images);
      r.Some? ==>
        |r.value.sources| == |sources| && (forall j :: 0 <= j < |sources| ==> SameAlbum(r.value.sources[j], sources[j]))
        && (r.value.destination.Some? <==> destination.Some?)
        && (destination.Some? ==> SameAlbum(r.value.destination.value, destination.value))
    decreases |images|
  {
    if images != [] {
      var init := images[..|images| - 1];
      AttachKeepsAlbums(sources, destination, init);
      if destination.Some? {
        var a := AttachAll(sources, destination, init).value;
        var image := images[|images| - 1];
        AttachSameAlbum(a.destination.value, destination.value, image);
        forall j | 0 <= j < |a.sources| ensures SameAlbum(Attach(a.sources[j], image), sources[j]) {
          AttachSameAlbum(a.sources[j], sources[j], image);
        }
      }
    }
  }

  lemma TargetOfSameAlbums(destination: map<string, Val>, sources: seq<map<string, Val>>,
                           destination': map<string, Val>, sources': seq<map<string, Val>>, image: map<string, Val>)
    requires SameAlbum(destination', destination)
    requires |sources'| == |sources| && forall j :: 0 <= j < |sources| ==> SameAlbum(sources'[j], sources[j])
    ensures TargetOf(destination', sources', image) == TargetOf(destination, sources, image)
  {
    AttachSameAlbum(destination', destination, image);
    forall j | 0 <= j < |sources| ensures Field(sources'[j], "key") == Field(sources[j], "key") {
      AttachSameAlbum(sources'[j], sources[j], image);
    }
    FindSourceSameKeys(sources', sources, Field(image, "albumKey"));
  }

  /** The last turn of the loop directs its image where the entries as
      sorted direct it. */
  lemma AttachLast(sources: seq<map<string, Val>>, destination: map<string, Val>, images: seq<map<string, Val>>)
    requires images != []
    ensures var init, image := images[..|images| - 1], images[|images| - 1];
      var a := AttachAll(sources, Some(destination), init);
      a.Some? && a.value.destination.Some? && |a.value.sources| == |sources|
      && (forall j :: 0 <= j < |sources| ==> SameAlbum(a.value.sources[j], sources[j]))
      && SameAlbum(a.value.destination.value, destination)
      && AttachAll(sources, Some(destination), images) == AttachImage(a.value, image)
      && TargetOf(a.value.destination.value, a.value.sources, image) == TargetOf(destination, sources, image)
  {
    var init, image := images[..|images| - 1], images[|images| - 1];
    AttachKeepsAlbums(sources, Some(destination), init);
    var a := AttachAll(sources, Some(destination), init).value;
    TargetOfSameAlbums(destination, sources, a.destination.value, a.sources, image);
  }

  /** The index of the last image the entries as sorted direct to `t`. */
  function LastTo(destination: map<string, Val>, sources: seq<map<string, Val>>, images: seq<map<string, Val>>, t: Target)
    : (r: Option<nat>)
    ensures r.Some? ==>
      r.value < |images| && TargetOf(destination, sources, images[r.value]) == t
      && forall k :: r.value < k < |images| ==> TargetOf(destination, sources, images[k]) != t
    ensures r.None? ==> forall i :: 0 <= i < |images| ==> TargetOf(destination, sources, images[i]) != t
    decreases |images|
  {
    if images == [] then None
    else if TargetOf(destination, sources, images[|images| - 1]) == t then Some(|images| - 1)
    else LastTo(destination, sources, images[..|images| - 1], t)
  }

  /** What one entry ends as: the last image directed to it attached, or as
      it was when none is. */
  function Highlighted(entry: map<string, Val>, images: seq<map<string, Val>>, last: Option<nat>): map<string, Val>
    requires last.Some? ==> last.value < |images|
  {
    if last.Some? then Attach(entry, images[last.value]) else entry
  }

  /** `hasImageError` is set exactly when some image is directed nowhere. */
  lemma {:induction false} AttachFlagsError(sources: seq<map<string, Val>>, destination: map<string, Val>,
                                            images: seq<map<string, Val>>)
    ensures var r := AttachAll(sources, Some(destination), images);
      r.Some? && (r.value.imageError <==> LastTo(destination, sources, images, Nowhere).Some?)
    decreases |images|
  {
    if images != [] {
      AttachFlagsError(sources, destination, images[..|images| - 1]);
      AttachLast(sources, destination, images);
    }
  }

  /** Each source ends with the last image directed to it, or as it was when
      none is: a later image overwrites an earlier one. */
  lemma {:induction false} AttachToSources(sources: seq<map<string, Val>>, destination: map<string, Val>,
                                           images: seq<map<string, Val>>, j: nat)
    requires j < |sources|
    ensures var r := AttachAll(sources, Some(destination), images);
      r.Some? && |r.value.sources| == |sources|
      && r.value.sources[j] == Highlighted(sources[j], images, LastTo(destination, sources, images, ToSource(j)))
    decreases |images|
  {
    AttachKeepsAlbums(sources, Some(destination), images);
    if images != [] {
      var init, image := images[..|images| - 1], images[|images| - 1];
      AttachToSources(sources, destination, init, j);
      AttachLast(sources, destination, images);
      var a := AttachAll(sources, Some(destination), init).value;
      if TargetOf(destination, sources, image) == ToSource(j) {
        AttachSameAlbum(a.sources[j], sources[j], image);
      } else {
        var last := LastTo(destination, sources, init, ToSource(j));
        if last.Some? {
          assert init[last.value] == images[last.value];
        }
      }
    }
  }

  /** The destination ends with the last image directed to it, or as it was
      when none is. */
  lemma {:induction false} AttachToDestination(sources: seq<map<string, Val>>, destination: map<string, Val>,
                                               images: seq<map<string, Val>>)
    ensures var r := AttachAll(sources, Some(destination), images);
      r.Some? && r.value.destination == Some(Highlighted(destination, images, LastTo(destination, sources, images, ToDestination)))
    decreases |images|
  {
    AttachKeepsAlbums(sources, Some(destination), images);
    if images != [] {
      var init, image := images[..|images| - 1], images[|images| - 1];
      AttachToDestination(sources, destination, init);
      AttachLast(sources, destination, images);
      var a := AttachAll(sources, Some(destination), init).value;
      if TargetOf(destination, sources, image) == ToDestination {
        AttachSameAlbum(a.destination.value, destination, image);
      } else {
        var last := LastTo(destination, sources, init, ToDestination);
        if last.Some? {
          assert init[last.value] == images[last.value];
        }
      }
    }
  }

  /** The loop's outcome stated image by image: each entry carries the last
      image directed to it, and the error flag says whether any image is
      directed nowhere. Without a destination there is nothing to attach. */
  function Expected(sources: seq<map<string, Val>>, destination: Option<map<string, Val>>, images: seq<map<string, Val>>)
    : Attached
  {
    if destination.None? then Attached(sources, None, false)
    else
      var d := destination.value;
      Attached(seq(|sources|, j requires 0 <= j < |sources| => Highlighted(sources[j], images, LastTo(d, sources, images, ToSource(j)))),
               Some(Highlighted(d, images, LastTo(d, sources, images, ToDestination))),
               LastTo(d, sources, images, Nowhere).Some?)
  }

  /** The loop, when it does not throw, ends as the image-by-image account
      says; it throws exactly when there are images and no destination. */
  lemma AttachMatches(sources: seq<map<string, Val>>, destination: Option<map<string, Val>>, images: seq<map<string, Val>>)
    ensures AttachAll(sources, destination, images).None? <==> destination.None? && images != []
    ensures AttachAll(sources, destination, images).Some? ==>
      AttachAll(sources, destination, images) == Some(Expected(sources, destination, images))
  {
    AttachKeepsAlbums(sources, destination, images);
    if destination.Some? {
      var d := destination.value;
      var r := AttachAll(sources, destination, images).value;
      var x := Expected(sources, destination, images);
      AttachFlagsError(sources, d, images);
      AttachToDestination(sources, d, images);
      forall j | 0 <= j < |sources| ensures r.sources[j] == x.sources[j] {
        AttachToSources(sources, d, images, j);
      }
      assert r.sources == x.sources;
      assert r == x;
    }
  }

  // ---------------------------------------------------------------------
  // The result

  /** `{ featureSources, featureDestination }` */
  function FeaturesPayload(a: Attached): Val {
    Obj(map["featureSources" := Arr(seq(|a.sources|, i requires 0 <= i < |a.sources| => Obj(a.sources[i]))),
            "featureDestination" := if a.destination.Some? then Obj(a.destination.value) else Undef])
  }

  /** The last part of the saga, from the features folder's answer:
      `Object.keys` of a null or undefined `Expansions` throws; the sort and
      the attaching loop may throw; an image directed nowhere is reported as
      a failure, and otherwise the payload is dispatched. */
  function Report(captured: Val, enumerate: map<string, Val> -> seq<string>): Trace<()> {
    match Prop(captured, "Expansions")
    case None => Trace([], Crashed(TypeError))
    case Some(expansions) =>
      if Nullish(expansions) then Trace([], Crashed(TypeError))
      else
        var entries := Spread(expansions);
        match SortKeys(entries, enumerate(entries))
        case None => Trace([], Crashed(TypeError))
        case Some(s) =>
          match AttachAll(s.sources, s.destination, s.images)
          case None => Trace([], Crashed(TypeError))
          case Some(a) =>
            if a.imageError then Trace(FailWith(UnconnectedImage), Finished(()))
            else Trace([Dispatch(DataAction(FeaturesType, FeaturesPayload(a), MakeDataResponseMeta(Undef)))], Finished(()))
  }

  /** The destination the sort settles on: the data of the last album named
      Home. */
  function HomeData(entries: map<string, Val>, keys: seq<string>): Option<map<string, Val>> {
    var h := LastHome(entries, keys);
    if h.Some? then AlbumData(OptProp(Child(entries, keys[h.value]), "Album")) else None
  }

  /** The report throws exactly when `Expansions` is missing, null or
      undefined, when some child cannot be read, or when there are highlight
      images and no album named Home. */
  lemma ReportCrashes(captured: Val, enumerate: map<string, Val> -> seq<string>)
    ensures Report(captured, enumerate).ending.Crashed? <==>
      match Prop(captured, "Expansions")
      case None => true
      case Some(x) =>
        Nullish(x) ||
        var entries := Spread(x);
        var keys := enumerate(entries);
        (exists i :: 0 <= i < |keys| && !Readable(Child(entries, keys[i])))
        || (LastHome(entries, keys).None? && ImagesOf(entries, keys) != [])
  {
    var x := Prop(captured, "Expansions");
    if x.Some? && !Nullish(x.value) {
      var entries := Spread(x.value);
      var keys := enumerate(entries);
      SortFails(entries, keys);
      var sorted := SortKeys(entries, keys);
      if sorted.Some? {
        SortLists(entries, keys);
        SortDestination(entries, keys);
        AttachMatches(sorted.value.sources, sorted.value.destination, sorted.value.images);
        var h := LastHome(entries, keys);
        if h.Some? {
          assert Readable(Child(entries, keys[h.value]));
        }
      }
    }
  }

  /** A report that does not throw sends exactly one features action: the
      failure for an unconnected image, or else the payload built from the
      sorted lists with every image attached where it belongs. */
  lemma ReportOutcome(captured: Val, enumerate: map<string, Val> -> seq<string>)
    requires Report(captured, enumerate).ending.Finished?
    ensures Prop(captured, "Expansions").Some?
    ensures var entries := Spread(Prop(captured, "Expansions").value);
      var keys := enumerate(entries);
      var a := Expected(SourcesOf(entries, keys), HomeData(entries, keys), ImagesOf(entries, keys));
      Report(captured, enumerate).effects ==
        if a.imageError then FailWith(UnconnectedImage)
        else [Dispatch(DataAction(FeaturesType, FeaturesPayload(a), MakeDataResponseMeta(Undef)))]
  {
    var entries := Spread(Prop(captured, "Expansions").value);
    var keys := enumerate(entries);
    var sorted := SortKeys(entries, keys).value;
    SortLists(entries, keys);
    SortDestination(entries, keys);
    AttachMatches(sorted.sources, sorted.destination, sorted.images);
  }

  method ReportFeatures(rt: Runtime, captured: Val, enumerate: map<string, Val> -> seq<string>) returns (ending: Ending<()>)
    modifies rt
    ensures var run := Report(captured, enumerate);
      rt.effects == old(rt.effects) + run.effects && rt.storage == old(rt.storage) && ending == run.ending
  {
    var expansions := Prop(captured, "Expansions");
    if expansions.None? || Nullish(expansions.value) {
      return Crashed(TypeError);
    }
    var entries := Spread(expansions.value);
    var sorted := SortExpansions(entries, enumerate(entries));
    if sorted.None? {
      return Crashed(TypeError);
    }
    var attached := MatchHighlights(sorted.value.sources, sorted.value.destination, sorted.value.images);
    if attached.None? {
      return Crashed(TypeError);
    }
    if attached.value.imageError {
      ending := ReportFailure(rt, UnconnectedImage);
    } else {
      rt.Put(DataAction(FeaturesType, FeaturesPayload(attached.value), MakeDataResponseMeta(Undef)));
      ending := Finished(());
    }
  }

  // ---------------------------------------------------------------------
  // The saga

  /** After the features folder's call: a crash ends the saga, a failed call
      (already reported) ends it quietly, and a good answer is reported. */
  function AfterFolderCall(ending: Ending<CallResult>, captured: Val, enumerate: map<string, Val> -> seq<string>): Trace<()> {
    match ending
    case Crashed(err) => Trace([], Crashed(err))
    case Finished(res) => if !res.ok then Trace([], Finished(())) else Report(Recaptured(res, captured), enumerate)
  }

  /** Some effects followed by a step. */
  function Prefix(effects: seq<Effect>, tr: Trace<()>): Trace<()> {
    Trace(effects + tr.effects, tr.ending)
  }

  /** The features folder's signed call and what follows it. */
  function FolderStep(node: Val, captured: Val, credentials: Val, accessToken: Val, apiV2: string, e: Entropy,
                      json: Val -> string, t: Transport, enumerate: map<string, Val> -> seq<string>): Trace<()>
    requires EnoughPicks(e)
  {
    match PrepareAuthRequest(credentials, accessToken, FolderUrl(node), None, apiV2, e, json)
    case Crashed(err) => Trace([], Crashed(err))
    case Finished(req) =>
      var tr := CallApiTrace(AuthorizedGet(req), t, FeaturesOptions());
      Prefix(tr.effects, AfterFolderCall(tr.ending, captured, enumerate))
  }

  /** After the root node's call: look for the Features folder in the
      captured answer and fetch it, or report that it is missing. */
  function AfterRootCall(ending: Ending<CallResult>, credentials: Val, accessToken: Val, apiV2: string, e: Entropy,
                         json: Val -> string, t: Transport, enumerate: map<string, Val> -> seq<string>): Trace<()>
    requires EnoughPicks(e)
  {
    match ending
    case Crashed(err) => Trace([], Crashed(err))
    case Finished(res) =>
      if !res.ok then Trace([], Finished(()))
      else
        var captured := Recaptured(res, Undef);
        match FeaturesNode(captured)
        case Crashed(err) => Trace([], Crashed(err))
        case Finished(None) => Trace(FailWith(FeaturesNotFound), Finished(()))
        case Finished(Some(node)) => FolderStep(node, captured, credentials, accessToken, apiV2, e, json, t, enumerate)
  }

  /** `homePageFeaturesDataSaga(action)`, given the selected summary data,
      consumer credentials and access token, the entropy of the two signing
      calls, the transport outcomes of the two requests and the host's key
      order. */
  function FeaturesRun(summaryData: Val, credentials: Val, accessToken: Val, apiV2: string, e1: Entropy, e2: Entropy,
                       json: Val -> string, t1: Transport, t2: Transport, enumerate: map<string, Val> -> seq<string>): Trace<()>
    requires EnoughPicks(e1) && EnoughPicks(e2)
  {
    var rootNodeUri := RootNodeUri(summaryData);
    if !Truthy(rootNodeUri) then Trace(FailWith(SummaryNotLoaded), Finished(()))
    else
      match PrepareAuthRequest(credentials, accessToken, RootNodeUrl(rootNodeUri), None, apiV2, e1, json)
      case Crashed(err) => Trace([], Crashed(err))
      case Finished(req) =>
        var tr := CallApiTrace(AuthorizedGet(req), t1, FeaturesOptions());
        Prefix(tr.effects, AfterRootCall(tr.ending, credentials, accessToken, apiV2, e2, json, t2, enumerate))
  }

  /** Without a root node URI the saga reports that the summary is not
      loaded and sends no request. */
  lemma NoSummaryFails(summaryData: Val, credentials: Val, accessToken: Val, apiV2: string, e1: Entropy, e2: Entropy,
                       json: Val -> string, t1: Transport, t2: Transport, enumerate: map<string, Val> -> seq<string>)
    requires EnoughPicks(e1) && EnoughPicks(e2) && !Truthy(RootNodeUri(summaryData))
    ensures var run := FeaturesRun(summaryData, credentials, accessToken, apiV2, e1, e2, json, t1, t2, enumerate);
      run.effects == FailWith(SummaryNotLoaded) && run.ending == Finished(())
      && forall i :: 0 <= i < |run.effects| ==> !run.effects[i].Send?
  {
  }

  method FetchFolder(rt: Runtime, node: Val, captured: Val, credentials: Val, accessToken: Val, apiV2: string, e: Entropy,
                     json: Val -> string, t: Transport, enumerate: map<string, Val> -> seq<string>) returns (ending: Ending<()>)
    requires EnoughPicks(e)
    modifies rt
    ensures var run := FolderStep(node, captured, credentials, accessToken, apiV2, e, json, t, enumerate);
      rt.effects == old(rt.effects) + run.effects && rt.storage == old(rt.storage) && ending == run.ending
  {
    var requestArgs := PrepareAuthRequest(credentials, accessToken, FolderUrl(node), None, apiV2, e, json);
    FolderStepSigned(node, captured, credentials, accessToken, apiV2, e, json, t, enumerate, requestArgs);
    if requestArgs.Crashed? {
      return Crashed(requestArgs.error);
    }
    ending := CallAndReport(rt, AuthorizedGet(requestArgs.value), captured, t, enumerate);
  }

  /** The folder step is its signing followed by the call and what follows it. */
  lemma FolderStepSigned(node: Val, captured: Val, credentials: Val, accessToken: Val, apiV2: string, e: Entropy,
                         json: Val -> string, t: Transport, enumerate: map<string, Val> -> seq<string>,
                         requestArgs: Ending<AuthRequest>)
    requires EnoughPicks(e) && requestArgs == PrepareAuthRequest(credentials, accessToken, FolderUrl(node), None, apiV2, e, json)
    ensures FolderStep(node, captured, credentials, accessToken, apiV2, e, json, t, enumerate) ==
      if requestArgs.Crashed? then Trace([], Crashed(requestArgs.error))
      else Prefix(CallApiTrace(AuthorizedGet(requestArgs.value), t, FeaturesOptions()).effects,
                  AfterFolderCall(CallApiTrace(AuthorizedGet(requestArgs.value), t, FeaturesOptions()).ending, captured, enumerate))
  {
  }

  /** The features folder's call, then the report of its answer. */
  method CallAndReport(rt: Runtime, c: ApiCall, captured: Val, t: Transport, enumerate: map<string, Val> -> seq<string>)
    returns (ending: Ending<()>)
    modifies rt
    ensures var tr := CallApiTrace(c, t, FeaturesOptions());
      var run := Prefix(tr.effects, AfterFolderCall(tr.ending, captured, enumerate));
      rt.effects == old(rt.effects) + run.effects && rt.storage == old(rt.storage) && ending == run.ending
  {
    var result := CallApi(rt, c, t, FeaturesOptions());
    if result.Crashed? {
      ending := Crashed(result.error);
    } else {
      ending := ReportFolder(rt, result.value, captured, enumerate);
    }
    AppendAssociates(old(rt.effects), CallApiTrace(c, t, FeaturesOptions()).effects,
                     AfterFolderCall(result, captured, enumerate).effects);
  }

  method ReportFolder(rt: Runtime, res: CallResult, captured: Val, enumerate: map<string, Val> -> seq<string>)
    returns (ending: Ending<()>)
    modifies rt
    ensures var run := AfterFolderCall(Finished(res), captured, enumerate);
      rt.effects == old(rt.effects) + run.effects && rt.storage == old(rt.storage) && ending == run.ending
  {
    if !res.ok {
      return Finished(());
    }
    ending := ReportFeatures(rt, Recaptured(res, captured), enumerate);
  }

  method FindFolder(rt: Runtime, res: CallResult, credentials: Val, accessToken: Val, apiV2: string, e: Entropy,
                    json: Val -> string, t: Transport, enumerate: map<string, Val> -> seq<string>) returns (ending: Ending<()>)
    requires EnoughPicks(e)
    modifies rt
    ensures var run := AfterRootCall(Finished(res), credentials, accessToken, apiV2, e, json, t, enumerate);
      rt.effects == old(rt.effects) + run.effects && rt.storage == old(rt.storage) && ending == run.ending
  {
    if !res.ok {
      return Finished(());
    }
    var capturedData := Recaptured(res, Undef);
    var featuresNode := FeaturesNode(capturedData);
    if featuresNode.Crashed? {
      return Crashed(featuresNode.error);
    }
    if featuresNode.value.None? {
      ending := ReportFailure(rt, FeaturesNotFound);
      return;
    }
    ending := FetchFolder(rt, featuresNode.value.value, capturedData, credentials, accessToken, apiV2, e, json, t, enumerate);
  }

  /** `homePageFeaturesDataSaga(action)` */
  method HomePageFeaturesDataSaga(rt: Runtime, summaryData: Val, credentials: Val, accessToken: Val, apiV2: string,
                                  e1: Entropy, e2: Entropy, json: Val -> string, t1: Transport, t2: Transport,
                                  enumerate: map<string, Val> -> seq<string>) returns (ending: Ending<()>)
    requires EnoughPicks(e1) && EnoughPicks(e2)
    modifies rt
    ensures var run := FeaturesRun(summaryData, credentials, accessToken, apiV2, e1, e2, json, t1, t2, enumerate);
      rt.effects == old(rt.effects) + run.effects && rt.storage == old(rt.storage) && ending == run.ending
  {
    var rootNodeUri := RootNodeUri(summaryData);
    if !Truthy(rootNodeUri) {
      ending := ReportFailure(rt, SummaryNotLoaded);
      return;
    }
    var requestArgs := PrepareAuthRequest(credentials, accessToken, RootNodeUrl(rootNodeUri), None, apiV2, e1, json);
    if requestArgs.Crashed? {
      return Crashed(requestArgs.error);
    }
    var result := CallApi(rt, AuthorizedGet(requestArgs.value), t1, FeaturesOptions());
    if result.Crashed? {
      ending := Crashed(result.error);
    } else {
      ending := FindFolder(rt, result.value, credentials, accessToken, apiV2, e2, json, t2, enumerate);
    }
    AppendAssociates(old(rt.effects), CallApiTrace(AuthorizedGet(requestArgs.value), t1, FeaturesOptions()).effects,
                     AfterRootCall(result, credentials, accessToken, apiV2, e2, json, t2, enumerate).effects);
  }
}
