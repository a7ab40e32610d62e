/** A reference for what the extractor makes of a well-formed episode: the
    episode as typed fields, the JSON object the API serves for it, and the
    outcome stated directly in terms of those fields. */
module Episodes {
  import opened Wrappers
  import opened PyJson
  import opened PyStr
  import opened IsoDate
  import opened NtsRadio

  /** One entry of an episode's `audio_sources`: the host tag and the URL. */
  datatype AudioSource = AudioSource(source: string, url: string)

  /** The fields of an episode the extractor reads. `time` is whatever follows
      the date in `broadcast`; it is not validated, since `FromIsoFormat` reads
      only the date, so a malformed time-of-day (which Python's
      `fromisoformat` rejects) still resolves here. `mixcloud` is None when the
      API gives null. */
  datatype Episode = Episode(
    broadcast: Date,
    time: string,
    name: string,
    location: string,
    description: string,
    genres: seq<string>,
    mixcloud: Option<string>,
    audioSources: seq<AudioSource>)

  function GenreRecords(genres: seq<string>): (gs: seq<Json>)
    ensures |gs| == |genres|
    ensures forall i :: 0 <= i < |genres| ==> gs[i] == JObject([("value", JString(genres[i]))])
  {
    if genres == [] then [] else [JObject([("value", JString(genres[0]))])] + GenreRecords(genres[1..])
  }

  function SourceRecord(a: AudioSource): Json {
    JObject([("source", JString(a.source)), ("url", JString(a.url))])
  }

  function SourceRecords(sources: seq<AudioSource>): (rs: seq<Json>)
    ensures |rs| == |sources|
    ensures forall i :: 0 <= i < |sources| ==> rs[i] == SourceRecord(sources[i])
  {
    if sources == [] then [] else [SourceRecord(sources[0])] + SourceRecords(sources[1..])
  }

  /** The episode object as the API serves it. */
  function Encode(e: Episode): Dict
    requires ValidDate(e.broadcast)
  {
    EpisodeObject(JString(FormatIso(e.broadcast) + e.time), JString(e.name), JString(e.location),
      JString(e.description), JArray(GenreRecords(e.genres)),
      if e.mixcloud.Some? then JString(e.mixcloud.value) else JNull,
      JArray(SourceRecords(e.audioSources)))
  }

  /** The extractor key for an audio host tag. */
  function HostKey(tag: string): Json {
    if tag == "mixcloud" then JString("Mixcloud")
    else if tag == "soundcloud" then JString("Soundcloud")
    else JNull
  }

  /** The title: the name without surrounding whitespace, the location and
      the broadcast date as `dd.mm.yy`. */
  function Title(e: Episode): string
    requires ValidDate(e.broadcast)
  {
    Strip(e.name) + ", " + e.location + ", " + DdMmYy(e.broadcast)
  }

  /** What the extraction of a well-formed episode gives: a non-empty
      Mixcloud URL first, else the first audio source, else the expected
      "no audio sources" error. */
  function Outcome(e: Episode): Result<Dict, Error>
    requires ValidDate(e.broadcast)
  {
    var base := Base(e);
    if e.mixcloud.Some? && e.mixcloud.value != "" then
      Success(base + [("url", JString(e.mixcloud.value)), ("ie_key", JString("Mixcloud"))])
    else if e.audioSources != [] then
      var a := e.audioSources[0];
      Success(base + [("url", JString(a.url)), ("ie_key", HostKey(a.source))])
    else Failure(NoAudioSources)
  }

  /** The result's members other than the audio ones: the result type, the
      title, the description and the joined genres. */
  function Base(e: Episode): Dict
    requires ValidDate(e.broadcast)
  {
    [("_type", JString("url_transparent")), ("title", JString(Title(e))),
     ("description", JString(e.description)), ("genre", JString(Join(", ", e.genres)))]
  }

  /** The episode object with the member values given. */
  function EpisodeObject(b: Json, n: Json, l: Json, de: Json, g: Json, mx: Json, a: Json): Dict {
    [("broadcast", b)] + ([("name", n)] + ([("location_long", l)] + ([("description", de)] +
    ([("genres", g)] + ([("mixcloud", mx)] + [("audio_sources", a)])))))
  }

  /** A list of genre records, one per genre in order, each holding that
      genre as its `value` (among any other members). */
  predicate GenresServe(v: Json, genres: seq<string>) {
    && v.JArray? && |v.items| == |genres|
    && forall i :: 0 <= i < |genres| ==> IsGenre(v.items[i], genres[i])
  }

  /** An audio source record holding the host tag as `source` and the URL as
      `url`, in either order and among any other members. */
  predicate SourceServes(j: Json, a: AudioSource) {
    && j.JObject?
    && Lookup(j.members, "source") == Some(JString(a.source))
    && Lookup(j.members, "url") == Some(JString(a.url))
  }

  /** The `audio_sources` member, if present, as far as the extractor reads
      it: for no sources it is absent, null or an empty list; otherwise a
      list whose first record serves the first source (later records are
      never read). */
  predicate SourcesServe(v: Option<Json>, sources: seq<AudioSource>) {
    if sources == [] then v.None? || v == Some(JNull) || v == Some(JArray([]))
    else v.Some? && v.value.JArray? && v.value.items != [] && SourceServes(v.value.items[0], sources[0])
  }

  /** `d` is an episode object that carries the fields of `e` as the
      extractor reads them: the top-level members in any order and among
      any others, the genre and audio source records with any other members
      and in any member order, and `mixcloud` null or absent when `e` has
      none. */
  predicate Serves(d: Dict, e: Episode)
    requires ValidDate(e.broadcast)
  {
    && Lookup(d, "broadcast") == Some(JString(FormatIso(e.broadcast) + e.time))
    && Lookup(d, "name") == Some(JString(e.name))
    && Lookup(d, "location_long") == Some(JString(e.location))
    && Lookup(d, "description") == Some(JString(e.description))
    && HasKey(d, "genres") && GenresServe(Get(d, "genres"), e.genres)
    && Get(d, "mixcloud") == (if e.mixcloud.Some? then JString(e.mixcloud.value) else JNull)
    && SourcesServe(Lookup(d, "audio_sources"), e.audioSources)
  }

  /** The encoded episode carries the episode's fields and no `error`. */
  lemma EncodeServes(e: Episode)
    requires ValidDate(e.broadcast)
    ensures Serves(Encode(e), e) && !HasKey(Encode(e), "error")
  {
    ObjectMembers(JString(FormatIso(e.broadcast) + e.time), JString(e.name), JString(e.location),
      JString(e.description), JArray(GenreRecords(e.genres)),
      if e.mixcloud.Some? then JString(e.mixcloud.value) else JNull,
      JArray(SourceRecords(e.audioSources)));
    if e.audioSources != [] {
      SourceRecordServes(e.audioSources[0]);
    }
  }

  /** The encoded record of an audio source serves it. */
  lemma SourceRecordServes(a: AudioSource)
    ensures SourceServes(SourceRecord(a), a)
  {
    LookupSkip("source", JString(a.source), [("url", JString(a.url))], "url");
  }

  lemma ObjectMembers(b: Json, n: Json, l: Json, de: Json, g: Json, mx: Json, a: Json)
    ensures var d := EpisodeObject(b, n, l, de, g, mx, a);
      && Lookup(d, "broadcast") == Some(b) && Lookup(d, "name") == Some(n)
      && Lookup(d, "location_long") == Some(l) && Lookup(d, "description") == Some(de)
      && Lookup(d, "genres") == Some(g) && Lookup(d, "mixcloud") == Some(mx)
      && Lookup(d, "audio_sources") == Some(a) && Lookup(d, "error") == None
  {
    LeadingMembers(b, n, l, de, g, mx, a);
    MiddleMembers(b, n, l, de, g, mx, a);
    TrailingMembers(b, n, l, de, g, mx, a);
    MissingError(b, n, l, de, g, mx, a);
  }

  lemma LeadingMembers(b: Json, n: Json, l: Json, de: Json, g: Json, mx: Json, a: Json)
    ensures var d := EpisodeObject(b, n, l, de, g, mx, a);
      Lookup(d, "broadcast") == Some(b) && Lookup(d, "name") == Some(n) && Lookup(d, "location_long") == Some(l)
  {
    var d6 := [("audio_sources", a)];
    var d5 := [("mixcloud", mx)] + d6;
    var d4 := [("genres", g)] + d5;
    var d3 := [("description", de)] + d4;
    var d2 := [("location_long", l)] + d3;
    var d1 := [("name", n)] + d2;
    assert EpisodeObject(b, n, l, de, g, mx, a) == [("broadcast", b)] + d1;
    LookupSkip("broadcast", b, d1, "name");
    LookupSkip("name", n, d2, "location_long");
    LookupSkip("broadcast", b, d1, "location_long");
  }

  lemma MiddleMembers(b: Json, n: Json, l: Json, de: Json, g: Json, mx: Json, a: Json)
    ensures var d := EpisodeObject(b, n, l, de, g, mx, a);
      Lookup(d, "description") == Some(de) && Lookup(d, "genres") == Some(g)
  {
    var d6 := [("audio_sources", a)];
    var d5 := [("mixcloud", mx)] + d6;
    var d4 := [("genres", g)] + d5;
    var d3 := [("description", de)] + d4;
    var d2 := [("location_long", l)] + d3;
    var d1 := [("name", n)] + d2;
    assert EpisodeObject(b, n, l, de, g, mx, a) == [("broadcast", b)] + d1;
    LookupSkip("location_long", l, d3, "description");
    LookupSkip("name", n, d2, "description");
    LookupSkip("broadcast", b, d1, "description");
    LookupSkip("description", de, d4, "genres");
    LookupSkip("location_long", l, d3, "genres");
    LookupSkip("name", n, d2, "genres");
    LookupSkip("broadcast", b, d1, "genres");
  }

  lemma TrailingMembers(b: Json, n: Json, l: Json, de: Json, g: Json, mx: Json, a: Json)
    ensures var d := EpisodeObject(b, n, l, de, g, mx, a);
      Lookup(d, "mixcloud") == Some(mx) && Lookup(d, "audio_sources") == Some(a)
  {
    var d6 := [("audio_sources", a)];
    var d5 := [("mixcloud", mx)] + d6;
    var d4 := [("genres", g)] + d5;
    var d3 := [("description", de)] + d4;
    var d2 := [("location_long", l)] + d3;
    var d1 := [("name", n)] + d2;
    assert EpisodeObject(b, n, l, de, g, mx, a) == [("broadcast", b)] + d1;
    LookupSkip("genres", g, d5, "mixcloud");
    LookupSkip("description", de, d4, "mixcloud");
    LookupSkip("location_long", l, d3, "mixcloud");
    LookupSkip("name", n, d2, "mixcloud");
    LookupSkip("broadcast", b, d1, "mixcloud");
    LookupSkip("mixcloud", mx, d6, "audio_sources");
    LookupSkip("genres", g, d5, "audio_sources");
    LookupSkip("description", de, d4, "audio_sources");
    LookupSkip("location_long", l, d3, "audio_sources");
    LookupSkip("name", n, d2, "audio_sources");
    LookupSkip("broadcast", b, d1, "audio_sources");
  }

  lemma MissingError(b: Json, n: Json, l: Json, de: Json, g: Json, mx: Json, a: Json)
    ensures var d := EpisodeObject(b, n, l, de, g, mx, a);
      Lookup(d, "error") == None
  {
    var d6 := [("audio_sources", a)];
    var d5 := [("mixcloud", mx)] + d6;
    var d4 := [("genres", g)] + d5;
    var d3 := [("description", de)] + d4;
    var d2 := [("location_long", l)] + d3;
    var d1 := [("name", n)] + d2;
    assert d6 == [("audio_sources", a)] + [];
    assert EpisodeObject(b, n, l, de, g, mx, a) == [("broadcast", b)] + d1;
    LookupSkip("audio_sources", a, [], "error");
    LookupSkip("mixcloud", mx, d6, "error");
    LookupSkip("genres", g, d5, "error");
    LookupSkip("description", de, d4, "error");
    LookupSkip("location_long", l, d3, "error");
    LookupSkip("name", n, d2, "error");
    LookupSkip("broadcast", b, d1, "error");
  }

  /** The metadata of an object carrying the episode's fields. */
  lemma ServedMetadata(d: Dict, e: Episode)
    requires ValidDate(e.broadcast) && Serves(d, e)
    ensures ReadMetadata(d) == Success(Metadata(Title(e), JString(e.description), Join(", ", e.genres)))
  {
    FromIsoFormatRoundTrip(e.broadcast, e.time);
    GenreOfRecords(Get(d, "genres").items, e.genres);
    ReadMetadataFields(d);
  }

  /** The base result for such an object, as the reference writes it. */
  lemma ServedBase(d: Dict, e: Episode)
    requires ValidDate(e.broadcast) && Serves(d, e)
    ensures ReadMetadata(d).Success?
    ensures BaseResult(ReadMetadata(d).value) == Base(e)
  {
    ServedMetadata(d, e);
  }

  /** Any episode object carrying the fields of `e` comes out as the
      reference outcome says, whatever other members it has. */
  lemma ResolveServed(d: Dict, e: Episode)
    requires ValidDate(e.broadcast) && Serves(d, e)
    ensures Resolve(d) == Outcome(e)
  {
    if e.mixcloud.Some? && e.mixcloud.value != "" {
      ServedBase(d, e);
      MixcloudFirst(d);
    } else if e.audioSources != [] {
      ServedAudioSource(d, e);
    } else {
      ServedBase(d, e);
      assert !Truthy(FirstAudioSource(d));
      NoAudioSourcesExactly(d);
    }
  }

  lemma ServedAudioSource(d: Dict, e: Episode)
    requires ValidDate(e.broadcast) && Serves(d, e)
    requires !(e.mixcloud.Some? && e.mixcloud.value != "") && e.audioSources != []
    ensures Resolve(d) == Outcome(e)
  {
    var a := e.audioSources[0];
    ServedBase(d, e);
    ServedSource(d, e);
    SourceResolves(d, a);
  }

  /** A first audio source holding `a`'s tag and URL gives the result that
      URL and the key of `a`'s host. */
  lemma SourceResolves(d: Dict, a: AudioSource)
    requires ReadMetadata(d).Success?
    requires !Truthy(Get(d, "mixcloud"))
    requires var s := FirstAudioSource(d);
      && Truthy(s) && Subscript(s, "url") == Success(JString(a.url))
      && Subscript(s, "source") == Success(JString(a.source))
    ensures Resolve(d) == Success(BaseResult(ReadMetadata(d).value)
                                  + [("url", JString(a.url)), ("ie_key", HostKey(a.source))])
  {
    AudioSourceUsed(d, JString(a.url), JString(a.source));
    assert HostKey(a.source) == if JString(a.source) == JString("mixcloud") then JString("Mixcloud")
      else if JString(a.source) == JString("soundcloud") then JString("Soundcloud") else JNull;
  }

  /** The first audio source of such an object is the first of `e`'s, and
      nothing hands the download to Mixcloud before it. */
  lemma ServedSource(d: Dict, e: Episode)
    requires ValidDate(e.broadcast) && Serves(d, e)
    requires !(e.mixcloud.Some? && e.mixcloud.value != "") && e.audioSources != []
    ensures !Truthy(Get(d, "mixcloud"))
    ensures var a, s := e.audioSources[0], FirstAudioSource(d);
      && Truthy(s) && Subscript(s, "url") == Success(JString(a.url))
      && Subscript(s, "source") == Success(JString(a.source))
  {
    var s := Lookup(d, "audio_sources").value.items[0];
    assert FirstAudioSource(d) == s;
  }

  /** In particular the episode as the API encodes it. */
  lemma ResolveEncoded(e: Episode)
    requires ValidDate(e.broadcast)
    ensures Resolve(Encode(e)) == Outcome(e)
  {
    EncodeServes(e);
    ResolveServed(Encode(e), e);
  }

  /** The whole extraction, when the API serves at the episode's address an
      object carrying the fields of `e` and no truthy `error`, ends in the
      reference outcome. */
  lemma ExtractServed(ieName: string, showId: string, episodeId: string, download: string -> Json,
                      d: Dict, e: Episode)
    requires PlainSegment(showId) && PlainSegment(episodeId) && ValidDate(e.broadcast)
    requires download("https://www.nts.live/api/v2/shows/" + showId + "/episodes/" + episodeId) == JObject(d)
    requires Serves(d, e) && !Truthy(Get(d, "error"))
    ensures Extract(ieName, showId, episodeId, download) == Outcome(e)
  {
    assert Validate(ieName, JObject(d)) == Success(d);
    ResolveServed(d, e);
  }

  /** The same for the episode as the API encodes it. */
  lemma ExtractEncoded(ieName: string, showId: string, episodeId: string, download: string -> Json, e: Episode)
    requires PlainSegment(showId) && PlainSegment(episodeId) && ValidDate(e.broadcast)
    requires download("https://www.nts.live/api/v2/shows/" + showId + "/episodes/" + episodeId) == JObject(Encode(e))
    ensures Extract(ieName, showId, episodeId, download) == Outcome(e)
  {
    EncodeServes(e);
    ExtractServed(ieName, showId, episodeId, download, Encode(e), e);
  }
}
