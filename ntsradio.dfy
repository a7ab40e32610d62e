/** The NTS Radio episode extractor: it builds the API address of an episode,
    checks the decoded API response, and turns the episode record into the
    result the host framework consumes, either handing the download on to
    another extractor or giving the audio URL directly. */
module NtsRadio {
  import opened Wrappers
  import opened PyJson
  import opened PyStr
  import opened PyRepr
  import opened IsoDate

  // ---------------------------------------------------------------- API URL

  /** The base every API resource path is resolved against. */
  const ApiBase: string := "https://www.nts.live/api/v2/"

  /** A path segment that `urljoin` keeps verbatim when it resolves a
      relative path against `ApiBase`: not empty (empty segments are
      dropped), not a dot segment (those are resolved away), and free of the
      characters that end a path, that start the parameters of its last
      segment (`;`), or that the URL splitter removes. */
  predicate PlainSegment(seg: string) {
    && seg != "" && seg != "." && seg != ".."
    && forall i :: 0 <= i < |seg| ==> seg[i] !in "/?#;\t\n\r"
  }

  /** A relative path that cannot be read as an absolute URL: its first
      segment has no `:` (no scheme) and does not start with a blank or a
      control character (those are stripped). */
  predicate PlainPath(segs: seq<string>) {
    && (forall i :: 0 <= i < |segs| ==> PlainSegment(segs[i]))
    && (segs != [] ==> ':' !in segs[0] && segs[0][0] > ' ')
  }

  /** `urljoin(_API_BASE, '/'.join(path))`: the base followed by the
      `/`-separated segments, from which the segments can be read back. */
  function ApiUrl(segs: seq<string>): (url: string)
    requires PlainPath(segs)
    ensures |url| >= |ApiBase| && url[..|ApiBase|] == ApiBase
    ensures segs == [] ==> url == ApiBase
    ensures segs != [] ==> Split(url[|ApiBase|..], '/') == segs
  {
    var url := ApiBase + Join("/", segs);
    assert url[|ApiBase|..] == Join("/", segs);
    if segs == [] then url
    else
      assert forall i :: 0 <= i < |segs| ==> '/' !in segs[i] by {
        forall i | 0 <= i < |segs| ensures '/' !in segs[i] {
          assert PlainSegment(segs[i]);
        }
      }
      SplitJoin(segs, '/');
      url
  }

  /** The resource fetched for an episode, `shows/<show_id>/episodes/<episode_id>`. */
  function EpisodeUrl(showId: string, episodeId: string): (url: string)
    requires PlainSegment(showId) && PlainSegment(episodeId)
    ensures url == "https://www.nts.live/api/v2/shows/" + showId + "/episodes/" + episodeId
  {
    var segs := ["shows", showId, "episodes", episodeId];
    assert PlainPath(segs) by {
      EpisodeSegments(showId, episodeId);
    }
    assert ApiBase + Join("/", segs) == "https://www.nts.live/api/v2/shows/" + showId + "/episodes/" + episodeId by {
      EpisodePath(showId, episodeId);
    }
    ApiUrl(segs)
  }

  /** The four parts of an episode's path are plain. */
  lemma EpisodeSegments(showId: string, episodeId: string)
    requires PlainSegment(showId) && PlainSegment(episodeId)
    ensures PlainPath(["shows", showId, "episodes", episodeId])
  {
    assert PlainSegment("shows");
    assert PlainSegment("episodes");
  }

  lemma EpisodePath(showId: string, episodeId: string)
    ensures Join("/", ["shows", showId, "episodes", episodeId]) == "shows/" + showId + "/episodes/" + episodeId
  {
    var segs := ["shows", showId, "episodes", episodeId];
    assert segs[1..][1..][1..] == [episodeId];
    assert Join("/", segs[1..][1..]) == "episodes/" + episodeId;
    assert Join("/", segs[1..]) == showId + "/" + ("episodes/" + episodeId);
  }

  // ----------------------------------------------------------------- errors

  /** How an extraction fails. The first three are the extractor's own
      `ExtractorError`s; `Raised` is a built-in exception from reading a
      field that is missing or of the wrong type, which the extractor does
      not catch. */
  datatype Error =
    | NotAnObject(got: Json)
    | ApiError(ieName: string, error: Json)
    | NoAudioSources
    | Raised(exc: PyExc)

  /** Errors raised with `expected=True`: reported to the user as a normal
      outcome, not as a bug. */
  predicate Expected(e: Error) {
    e.ApiError? || e.NoAudioSources?
  }

  /** The message of an `ExtractorError` the extractor raises. A response
      that is not an object is quoted so that a string reads back from the
      message; an API error names the extractor and ends with the error's
      text when it is a string. */
  function Message(e: Error): (m: string)
    requires !e.Raised?
    ensures e.NoAudioSources? ==> m == "no audio sources"
    ensures e.NotAnObject? ==>
      var p := "JSON object expected, got: ";
      |m| > |p| && m[..|p|] == p && (e.got.JString? ==> ParseReprString(m[|p|..]) == Some(e.got.s))
    ensures e.ApiError? ==>
      var p := e.ieName + " returned error: ";
      |m| >= |p| && m[..|p|] == p && (e.error.JString? ==> m[|p|..] == e.error.s)
  {
    match e
    case NotAnObject(got) =>
      var p := "JSON object expected, got: ";
      assert (p + Repr(got))[|p|..] == Repr(got);
      p + Repr(got)
    case ApiError(ieName, error) =>
      var p := ieName + " returned error: ";
      assert (p + Str(error))[|p|..] == Str(error);
      p + Str(error)
    case NoAudioSources => "no audio sources"
  }

  /** A built-in exception, passed on as the extraction's error. */
  function Raise<T>(r: Result<T, PyExc>): (r': Result<T, Error>)
    ensures r.Success? ==> r' == Success(r.value)
    ensures r.Failure? ==> r' == Failure(Raised(r.error))
  {
    match r
    case Success(v) => Success(v)
    case Failure(e) => Failure(Raised(e))
  }

  // ------------------------------------------------------ response checking

  /** The check `_fetch` applies to a decoded API response: it must be a JSON
      object, and one whose `error` member is absent or falsy; such an object
      is returned unchanged. `ieName` is the extractor's `IE_NAME`. */
  function Validate(ieName: string, response: Json): (r: Result<Dict, Error>)
    ensures r.Success? <==> response.JObject? && !Truthy(Get(response.members, "error"))
    ensures r.Success? ==> response == JObject(r.value)
    ensures !response.JObject? ==>
      r == Failure(NotAnObject(response)) && !Expected(r.error)
      && Message(r.error) == "JSON object expected, got: " + Repr(response)
    ensures response.JObject? && Truthy(Get(response.members, "error")) ==>
      var error := Get(response.members, "error");
      r == Failure(ApiError(ieName, error)) && Expected(r.error)
      && Message(r.error) == ieName + " returned error: " + Str(error)
  {
    if !response.JObject? then Failure(NotAnObject(response))
    else
      var error := Get(response.members, "error");
      if Truthy(error) then Failure(ApiError(ieName, error))
      else Success(response.members)
  }

  // --------------------------------------------------------- episode fields

  /** `episode[key]`. */
  function Item(episode: Dict, key: string): (r: Result<Json, Error>)
    ensures r.Success? <==> HasKey(episode, key)
    ensures r.Success? ==> Lookup(episode, key) == Some(r.value)
    ensures r.Failure? ==> r.error == Raised(KeyError)
  {
    Raise(Subscript(JObject(episode), key))
  }

  /** `datetime.fromisoformat(v)`: only a string is accepted. */
  function ParseBroadcast(v: Json): (r: Result<Date, Error>)
    ensures !v.JString? ==> r == Failure(Raised(TypeError))
    ensures v.JString? ==> r == Raise(FromIsoFormat(v.s))
    ensures r.Success? ==> ValidDate(r.value)
  {
    if v.JString? then Raise(FromIsoFormat(v.s)) else Failure(Raised(TypeError))
  }

  /** `v.strip()`: only a string has the method. */
  function StripText(v: Json): (r: Result<string, Error>)
    ensures v.JString? ==> r == Success(Strip(v.s))
    ensures !v.JString? ==> r == Failure(Raised(AttributeError))
  {
    if v.JString? then Success(Strip(v.s)) else Failure(Raised(AttributeError))
  }

  /** The episode title, `'{name}, {location}, {date}'`: the name, a comma
      and a blank, the location, a comma and a blank, and the broadcast's
      day, month and two-digit year as `%d.%m.%y` prints them. */
  function FormatTitle(name: string, location: string, broadcast: Date): (t: string)
    requires ValidDate(broadcast)
    ensures |t| == |name| + |location| + 12
    ensures t[..|name|] == name
    ensures t[|name|..|name| + 2] == ", "
    ensures t[|name| + 2..|t| - 10] == location
    ensures t[|t| - 10..|t| - 8] == ", "
    ensures t[|t| - 8..] == DdMmYy(broadcast)
  {
    var d := DdMmYy(broadcast);
    var p1 := name + ", ";
    var p2 := p1 + location;
    var p3 := p2 + ", ";
    var t := p3 + d;
    assert |d| == 8;
    assert t[|t| - 8..] == d;
    assert t[..|p3|] == p3;
    assert t[|t| - 10..|t| - 8] == p3[|p2|..] == ", ";
    assert t[..|p2|] == p2;
    assert t[|name| + 2..|t| - 10] == p2[|p1|..] == location;
    assert t[..|p1|] == p1;
    assert t[|name|..|name| + 2] == p1[|name|..] == ", ";
    assert t[..|name|] == p1[..|name|] == name;
    t
  }

  /** `[g['value'] for g in gs]`, stopping at the first exception. */
  function ValuesOf(gs: seq<Json>): (r: Result<seq<Json>, PyExc>)
    ensures r.Success? ==> (|r.value| == |gs|
      && forall i :: 0 <= i < |gs| ==> Subscript(gs[i], "value") == Success(r.value[i]))
    ensures r.Failure? ==> exists i :: (0 <= i < |gs| && Subscript(gs[i], "value") == Failure(r.error)
      && forall j :: 0 <= j < i ==> Subscript(gs[j], "value").Success?)
  {
    if gs == [] then Success([])
    else
      match Subscript(gs[0], "value")
      case Failure(e) => Failure(e)
      case Success(v) =>
        match ValuesOf(gs[1..])
        case Failure(e) =>
          ghost var i :| 0 <= i < |gs[1..]| && Subscript(gs[1..][i], "value") == Failure(e)
            && forall j :: 0 <= j < i ==> Subscript(gs[1..][j], "value").Success?;
          assert gs[i + 1] == gs[1..][i];
          assert forall j :: 1 <= j < i + 1 ==> gs[j] == gs[1..][j - 1];
          Failure(e)
        case Success(vs) => Success([v] + vs)
  }

  /** The strings among `vs`, or None if some value is not a string. */
  function Texts(vs: seq<Json>): (r: Option<seq<string>>)
    ensures r.Some? <==> forall i :: 0 <= i < |vs| ==> vs[i].JString?
    ensures r.Some? ==> |r.value| == |vs| && forall i :: 0 <= i < |vs| ==> r.value[i] == vs[i].s
  {
    if vs == [] then Some([])
    else if !vs[0].JString? then None
    else
      match Texts(vs[1..])
      case None => None
      case Some(ts) => Some([vs[0].s] + ts)
  }

  /** `', '.join(g['value'] for g in genres)`: `join` draws every value from
      the generator first and then raises TypeError if one is not a string. */
  function GenreText(genres: Json): (r: Result<string, PyExc>)
    ensures !(genres.JArray? || genres.JObject? || genres.JString?) ==> r == Failure(TypeError)
  {
    var gs :- Iterate(genres);
    var vs :- ValuesOf(gs);
    match Texts(vs)
    case Some(ts) => Success(Join(", ", ts))
    case None => Failure(TypeError)
  }

  /** A genre record `{'value': v, ...}`; it may carry other members. */
  predicate IsGenre(g: Json, value: string) {
    g.JObject? && Lookup(g.members, "value") == Some(JString(value))
  }

  /** The genre of a list of genre records is their values in list order,
      joined by a comma and a blank; no genres give the empty string. */
  lemma GenreOfRecords(gs: seq<Json>, values: seq<string>)
    requires |gs| == |values|
    requires forall i :: 0 <= i < |gs| ==> IsGenre(gs[i], values[i])
    ensures GenreText(JArray(gs)) == Success(Join(", ", values))
  {
    ValuesOfRecords(gs, values);
    var vs := JStrings(values);
    assert Texts(vs).Some?;
    assert Texts(vs).value == values;
  }

  /** The genre is TypeError as soon as one record's value is not a string,
      even when every record has a value. */
  lemma GenreNotText(gs: seq<Json>, i: nat)
    requires i < |gs|
    requires forall j :: 0 <= j < |gs| ==> Subscript(gs[j], "value").Success?
    requires !Subscript(gs[i], "value").value.JString?
    ensures GenreText(JArray(gs)) == Failure(TypeError)
  {
    var vs := ValuesOf(gs);
    assert vs.Success?;
    assert !vs.value[i].JString?;
  }

  /** The JSON strings holding `values`, in order. */
  function JStrings(values: seq<string>): (js: seq<Json>)
    ensures |js| == |values| && forall i :: 0 <= i < |values| ==> js[i] == JString(values[i])
  {
    if values == [] then [] else [JString(values[0])] + JStrings(values[1..])
  }

  /** Records that each hold a string value give those values, in order. */
  lemma {:induction false} ValuesOfRecords(gs: seq<Json>, values: seq<string>)
    requires |gs| == |values|
    requires forall i :: 0 <= i < |gs| ==> IsGenre(gs[i], values[i])
    ensures ValuesOf(gs) == Success(JStrings(values))
  {
    if gs != [] {
      assert IsGenre(gs[0], values[0]);
      assert Subscript(gs[0], "value") == Success(JString(values[0]));
      ValuesOfRecords(gs[1..], values[1..]);
    }
  }

  // ---------------------------------------------------------------- result

  /** What `_real_extract` computes from the episode before it decides where
      the audio comes from. */
  datatype Metadata = Metadata(title: string, description: Json, genre: string)

  /** The reads of the broadcast date, the name, the location, the
      description and the genres, in that order; the first that raises
      decides the error. */
  function ReadMetadata(episode: Dict): (r: Result<Metadata, Error>)
    ensures r.Failure? ==> r.error.Raised?
    ensures !HasKey(episode, "broadcast") ==> r == Failure(Raised(KeyError))
  {
    var broadcastValue :- Item(episode, "broadcast");
    var broadcast :- ParseBroadcast(broadcastValue);
    var nameValue :- Item(episode, "name");
    var name :- StripText(nameValue);
    var location :- Item(episode, "location_long");
    var title := FormatTitle(name, Str(location), broadcast);
    var description :- Item(episode, "description");
    var genres :- Item(episode, "genres");
    var genre :- Raise(GenreText(genres));
    Success(Metadata(title, description, genre))
  }

  /** The metadata reads exactly when `broadcast` is an ISO date string,
      `name` is a string, `location_long` and `description` are present and
      the genres join (a missing `genres` is None, which does not iterate).
      It then holds the title made of the name without surrounding
      whitespace, the location as `str` renders it and the date; the
      description as it is; and the joined genres. */
  lemma ReadMetadataFields(episode: Dict)
    ensures ReadMetadata(episode).Success? <==>
      && Get(episode, "broadcast").JString? && FromIsoFormat(Get(episode, "broadcast").s).Success?
      && Get(episode, "name").JString?
      && HasKey(episode, "location_long") && HasKey(episode, "description")
      && GenreText(Get(episode, "genres")).Success?
    ensures ReadMetadata(episode).Success? ==>
      ReadMetadata(episode).value == Metadata(
        FormatTitle(Strip(Get(episode, "name").s), Str(Get(episode, "location_long")),
                    FromIsoFormat(Get(episode, "broadcast").s).value),
        Get(episode, "description"),
        GenreText(Get(episode, "genres")).value)
  {
    ItemGet(episode, "broadcast");
    ItemGet(episode, "name");
    ItemGet(episode, "location_long");
    ItemGet(episode, "description");
    ItemGet(episode, "genres");
    assert GenreText(JNull).Failure?;
  }

  /** `episode[key]` is `episode.get(key)` when the key is present. */
  lemma ItemGet(episode: Dict, key: string)
    ensures Item(episode, key) == if HasKey(episode, key) then Success(Get(episode, key)) else Failure(Raised(KeyError))
  {
  }

  /** The result dict before the audio keys are set: the four keys in
      literal order, neither of the audio keys among them. */
  function BaseResult(m: Metadata): (d: Dict)
    ensures IsDict(d) && |d| == 4
    ensures d[0].0 == "_type" && d[1].0 == "title" && d[2].0 == "description" && d[3].0 == "genre"
    ensures !HasKey(d, "url") && !HasKey(d, "ie_key")
    ensures Lookup(d, "_type") == Some(JString("url_transparent"))
    ensures Lookup(d, "title") == Some(JString(m.title))
    ensures Lookup(d, "description") == Some(m.description)
    ensures Lookup(d, "genre") == Some(JString(m.genre))
  {
    var d := [("_type", JString("url_transparent")), ("title", JString(m.title)),
              ("description", m.description), ("genre", JString(m.genre))];
    DistinctKeys(d);
    NoKey(d, "url");
    NoKey(d, "ie_key");
    LookupMember(d, 0);
    LookupMember(d, 1);
    LookupMember(d, 2);
    LookupMember(d, 3);
    d
  }

  /** `_AUDIO_SOURCE_IE_KEY_MAP`: the extractor keys of the audio hosts the
      extractor recognises by their `source` tag. */
  const IeKeyMap: Dict := [("mixcloud", JString("Mixcloud")), ("soundcloud", JString("Soundcloud"))]

  /** `_AUDIO_SOURCE_IE_KEY_MAP.get(tag)`: the key for a recognised tag, None
      for any other hashable value; a list or a dict cannot be a key. */
  function IeKeyFor(tag: Json): (r: Result<Json, PyExc>)
    ensures r.Failure? <==> tag.JArray? || tag.JObject?
    ensures r.Failure? ==> r.error == TypeError
    ensures tag == JString("mixcloud") ==> r == Success(JString("Mixcloud"))
    ensures tag == JString("soundcloud") ==> r == Success(JString("Soundcloud"))
    ensures r.Success? && tag != JString("mixcloud") && tag != JString("soundcloud") ==> r.value == JNull
  {
    match tag
    case JArray(_) => Failure(TypeError)
    case JObject(_) => Failure(TypeError)
    case JString(s) =>
      assert s != "mixcloud" && s != "soundcloud" ==> !HasKey(IeKeyMap, s) by {
        if s != "mixcloud" && s != "soundcloud" {
          NoKey(IeKeyMap, s);
        }
      }
      Success(Get(IeKeyMap, s))
    case _ => Success(JNull)
  }

  /** `try_get(episode, lambda e: e['audio_sources'][0])`: the first audio
      source, or None when reaching it raises: when the member is missing,
      or its value has no first item (an empty list or string, a dict
      without the key 0, null, a number or a boolean). A non-empty string
      gives its first character. */
  function FirstAudioSource(episode: Dict): (r: Json)
    ensures !HasKey(episode, "audio_sources") ==> r == JNull
    ensures HasKey(episode, "audio_sources") ==>
      var v := Lookup(episode, "audio_sources").value;
      r == (if First(v).Success? then First(v).value else JNull)
    ensures Lookup(episode, "audio_sources") == Some(JArray([])) ==> r == JNull
    ensures forall s :: Lookup(episode, "audio_sources") == Some(JArray(s)) && s != [] ==> r == s[0]
  {
    match Subscript(JObject(episode), "audio_sources")
    case Failure(_) => JNull
    case Success(sources) =>
      match First(sources)
      case Success(source) => source
      case Failure(_) => JNull
  }

  /** Where the audio comes from: a truthy `mixcloud` member hands the download to the
      Mixcloud extractor; otherwise a truthy first audio source gives the URL
      and, through its tag, the extractor key; otherwise there is no audio. */
  function Delegate(episode: Dict, base: Dict): (r: Result<Dict, Error>)
    ensures r.Failure? ==> r.error == NoAudioSources || r.error.Raised?
  {
    var mixcloud := Get(episode, "mixcloud");
    if Truthy(mixcloud) then
      Success(SetItem(SetItem(base, "url", mixcloud), "ie_key", JString("Mixcloud")))
    else
      var source := FirstAudioSource(episode);
      if Truthy(source) then
        var url :- Raise(Subscript(source, "url"));
        var tag :- Raise(Subscript(source, "source"));
        var ieKey :- Raise(IeKeyFor(tag));
        Success(SetItem(SetItem(base, "url", url), "ie_key", ieKey))
      else Failure(NoAudioSources)
  }

  /** `_real_extract` after the fetch: the result for a validated episode. */
  function Resolve(episode: Dict): (r: Result<Dict, Error>)
    ensures r.Failure? ==> r.error == NoAudioSources || r.error.Raised?
    ensures ReadMetadata(episode).Failure? ==> r == Failure(ReadMetadata(episode).error)
  {
    var m :- ReadMetadata(episode);
    Delegate(episode, BaseResult(m))
  }

  /** The whole extraction of one episode. `download` stands for the host
      framework's `_download_json`: the decoded body served at a URL. The
      episode's resource is fetched; a response that fails the check ends
      the extraction with that check's error, and an accepted one is
      resolved. */
  function Extract(ieName: string, showId: string, episodeId: string, download: string -> Json): (r: Result<Dict, Error>)
    requires PlainSegment(showId) && PlainSegment(episodeId)
    ensures var response := download("https://www.nts.live/api/v2/shows/" + showId + "/episodes/" + episodeId);
      && (Validate(ieName, response).Failure? ==> r == Failure(Validate(ieName, response).error))
      && (Validate(ieName, response).Success? ==> r == Resolve(response.members))
  {
    assert EpisodeUrl(showId, episodeId) == "https://www.nts.live/api/v2/shows/" + showId + "/episodes/" + episodeId;
    var episode :- Validate(ieName, download(EpisodeUrl(showId, episodeId)));
    Resolve(episode)
  }

  // ------------------------------------------------------ result properties

  /** Setting `url` and then `ie_key` on the base result appends the two. */
  lemma SetAudioKeys(m: Metadata, url: Json, ieKey: Json)
    ensures SetItem(SetItem(BaseResult(m), "url", url), "ie_key", ieKey)
      == BaseResult(m) + [("url", url), ("ie_key", ieKey)]
  {
    SetTwoNewItems(BaseResult(m), "url", url, "ie_key", ieKey);
  }

  /** The shape of every result: the keys `_type`, `title`, `description`,
      `genre`, `url` and `ie_key`, in that order and each once; `_type` is
      `url_transparent` and the next three hold the metadata. */
  predicate ResultOf(r: Dict, m: Metadata) {
    && IsDict(r) && |r| == 6
    && r[0].0 == "_type" && r[1].0 == "title" && r[2].0 == "description"
    && r[3].0 == "genre" && r[4].0 == "url" && r[5].0 == "ie_key"
    && Lookup(r, "_type") == Some(JString("url_transparent"))
    && Lookup(r, "title") == Some(JString(m.title))
    && Lookup(r, "description") == Some(m.description)
    && Lookup(r, "genre") == Some(JString(m.genre))
  }

  /** Every successful extraction of a validated episode has the result
      shape, around the metadata read from the episode. */
  lemma ResolveResultShape(episode: Dict)
    requires Resolve(episode).Success?
    ensures ReadMetadata(episode).Success?
    ensures ResultOf(Resolve(episode).value, ReadMetadata(episode).value)
  {
    var m := ReadMetadata(episode).value;
    assert Resolve(episode) == Delegate(episode, BaseResult(m));
    DelegateShape(episode, m);
  }

  /** Whichever branch delegates, the base result gains `url` and then
      `ie_key`. */
  lemma DelegateShape(episode: Dict, m: Metadata)
    requires Delegate(episode, BaseResult(m)).Success?
    ensures ResultOf(Delegate(episode, BaseResult(m)).value, m)
  {
    var base := BaseResult(m);
    var url, ieKey :| Delegate(episode, base).value == SetItem(SetItem(base, "url", url), "ie_key", ieKey) by {
      DelegateSets(episode, base);
    }
    SetAudioKeys(m, url, ieKey);
    BaseShape(m, url, ieKey);
  }

  /** The base result with the two audio keys appended has the result shape. */
  lemma BaseShape(m: Metadata, url: Json, ieKey: Json)
    ensures ResultOf(BaseResult(m) + [("url", url), ("ie_key", ieKey)], m)
  {
    var base := BaseResult(m);
    AppendTwo(base, "url", url, "ie_key", ieKey);
    HasKeyAt(base, 0);
    HasKeyAt(base, 1);
    HasKeyAt(base, 2);
    HasKeyAt(base, 3);
  }

  /** Every successful delegation sets `url` and then `ie_key`. */
  lemma DelegateSets(episode: Dict, base: Dict)
    requires Delegate(episode, base).Success?
    ensures exists url, ieKey :: Delegate(episode, base).value == SetItem(SetItem(base, "url", url), "ie_key", ieKey)
  {
    if Truthy(Get(episode, "mixcloud")) {
      assert Delegate(episode, base).value
        == SetItem(SetItem(base, "url", Get(episode, "mixcloud")), "ie_key", JString("Mixcloud"));
    } else {
      var s := FirstAudioSource(episode);
      var url := Subscript(s, "url").value;
      var ieKey := IeKeyFor(Subscript(s, "source").value).value;
      assert Delegate(episode, base).value == SetItem(SetItem(base, "url", url), "ie_key", ieKey);
    }
  }

  /** A truthy `mixcloud` member wins whatever the audio sources are: the
      result delegates that URL to the Mixcloud extractor. */
  lemma MixcloudFirst(episode: Dict)
    requires ReadMetadata(episode).Success?
    requires Truthy(Get(episode, "mixcloud"))
    ensures Resolve(episode) ==
      Success(BaseResult(ReadMetadata(episode).value)
              + [("url", Get(episode, "mixcloud")), ("ie_key", JString("Mixcloud"))])
  {
    var m := ReadMetadata(episode).value;
    assert Resolve(episode) == Delegate(episode, BaseResult(m));
    SetAudioKeys(m, Get(episode, "mixcloud"), JString("Mixcloud"));
  }

  /** Without a truthy `mixcloud` member, a truthy first audio source gives
      the result its `url` and the extractor key its `source` tag maps to:
      `Mixcloud` or `Soundcloud` for the two recognised tags, None for any
      other hashable tag (another string, a number, a boolean or null). */
  lemma AudioSourceUsed(episode: Dict, url: Json, tag: Json)
    requires ReadMetadata(episode).Success?
    requires !Truthy(Get(episode, "mixcloud"))
    requires !tag.JArray? && !tag.JObject?
    requires var s := FirstAudioSource(episode);
      Truthy(s) && Subscript(s, "url") == Success(url) && Subscript(s, "source") == Success(tag)
    ensures Resolve(episode) ==
      Success(BaseResult(ReadMetadata(episode).value)
              + [("url", url),
                 ("ie_key", if tag == JString("mixcloud") then JString("Mixcloud")
                            else if tag == JString("soundcloud") then JString("Soundcloud")
                            else JNull)])
  {
    var m := ReadMetadata(episode).value;
    var ieKey := IeKeyFor(tag).value;
    assert Resolve(episode) == Delegate(episode, BaseResult(m));
    DelegateAudio(episode, BaseResult(m), url, tag);
    SetAudioKeys(m, url, ieKey);
  }

  /** The audio-source branch sets the source's `url` and then the key its
      tag maps to. */
  lemma DelegateAudio(episode: Dict, base: Dict, url: Json, tag: Json)
    requires !Truthy(Get(episode, "mixcloud"))
    requires !tag.JArray? && !tag.JObject?
    requires var s := FirstAudioSource(episode);
      Truthy(s) && Subscript(s, "url") == Success(url) && Subscript(s, "source") == Success(tag)
    ensures Delegate(episode, base) == Success(SetItem(SetItem(base, "url", url), "ie_key", IeKeyFor(tag).value))
  {
  }

  /** Without a truthy `mixcloud` member, a truthy first audio source that
      lacks `url` or `source`, or is not a dict, or whose tag is a list or a
      dict, ends the extraction with that built-in exception; `url` is read
      first. */
  lemma AudioSourceFaults(episode: Dict)
    requires ReadMetadata(episode).Success?
    requires !Truthy(Get(episode, "mixcloud"))
    requires Truthy(FirstAudioSource(episode))
    ensures var s := FirstAudioSource(episode);
      && (Subscript(s, "url").Failure? ==>
            Resolve(episode) == Failure(Raised(Subscript(s, "url").error)))
      && (Subscript(s, "url").Success? && Subscript(s, "source").Failure? ==>
            Resolve(episode) == Failure(Raised(Subscript(s, "source").error)))
      && (Subscript(s, "url").Success? && Subscript(s, "source").Success?
          && (Subscript(s, "source").value.JArray? || Subscript(s, "source").value.JObject?) ==>
            Resolve(episode) == Failure(Raised(TypeError)))
  {
    var m := ReadMetadata(episode).value;
    assert Resolve(episode) == Delegate(episode, BaseResult(m));
  }

  /** The extraction ends in "no audio sources" exactly when the metadata
      reads, `mixcloud` is absent or falsy and there is no truthy first audio
      source (`audio_sources` is missing, empty, or a value with no first
      item, or its first item is falsy). */
  lemma NoAudioSourcesExactly(episode: Dict)
    ensures Resolve(episode) == Failure(NoAudioSources) <==>
      && ReadMetadata(episode).Success?
      && !Truthy(Get(episode, "mixcloud"))
      && !Truthy(FirstAudioSource(episode))
  {
    var md := ReadMetadata(episode);
    if md.Success? {
      assert Resolve(episode) == Delegate(episode, BaseResult(md.value));
      DelegateNoAudio(episode, BaseResult(md.value));
    }
  }

  /** Delegation finds no audio exactly when there is neither a truthy
      `mixcloud` member nor a truthy first audio source. */
  lemma DelegateNoAudio(episode: Dict, base: Dict)
    ensures Delegate(episode, base) == Failure(NoAudioSources) <==>
      !Truthy(Get(episode, "mixcloud")) && !Truthy(FirstAudioSource(episode))
  {
    if !Truthy(Get(episode, "mixcloud")) && Truthy(FirstAudioSource(episode)) {
      var source := FirstAudioSource(episode);
      assert Delegate(episode, base).Failure? ==> Delegate(episode, base).error.Raised?;
    }
  }

  /** A worked broadcast date: the time and offset after the date are not
      read. */
  lemma BroadcastExample()
    ensures FromIsoFormat("2021-05-01T20:00:00+00:00") == Success(Date(2021, 5, 1))
  {
    assert FormatIso(Date(2021, 5, 1)) == "2021-05-01";
    assert "2021-05-01T20:00:00+00:00" == "2021-05-01" + "T20:00:00+00:00";
    FromIsoFormatRoundTrip(Date(2021, 5, 1), "T20:00:00+00:00");
  }

  /** A worked title: the name loses its surrounding blanks, and the
      two-digit day, month and year follow the name and the location. */
  lemma TitleExample()
    ensures FormatTitle(Strip(" Show Name "), "London", Date(2021, 5, 1)) == "Show Name, London, 01.05.21"
  {
    StripExample();
    assert DdMmYy(Date(2021, 5, 1)) == "01.05.21";
  }

  /** Stripping a name padded with one blank on each side. */
  lemma StripExample()
    ensures Strip(" Show Name ") == "Show Name"
  {
    var s := " Show Name ";
    assert IsSpace(s[0]) && IsSpace(s[10]) && !IsSpace(s[1]) && !IsSpace(s[9]);
    StripExact(s, 1, 10);
    assert s[1..10] == "Show Name";
  }
}
