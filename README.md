# NTS Radio episode extractor, modelled in Dafny

This project models the episode extractor of the `dl-plus` NTS Radio plugin
(`src/dl_plus/extractors/un1def/ntsradio.py`). The extractor does four
things:

- it builds the API address of an episode from its show id and episode id;
- it checks the decoded response: it must be a JSON object with no truthy
  `error` member;
- it reads the episode's broadcast date, name, location, description and
  genres into a title, a description and a genre string;
- it hands the download on: to the Mixcloud extractor when the episode has
  a truthy `mixcloud` URL, otherwise to the extractor its first audio
  source's `source` tag names, otherwise it fails with "no audio sources".

All of this is pure computation on values, so the model is made of
datatypes, functions and lemmas. The source's two extractor classes hold
only constants and methods and no state of their own, so they become a
module with constants and functions. The one iteration, the generator over
the genre records, becomes the recursion in `NtsRadio.ValuesOf`. The Python
semantics the extractor relies on are modelled explicitly:

- truthiness and `dict.get`;
- `d[key]` and `v[0]`, with the built-in exception each one raises;
- iteration;
- item assignment on a dict;
- `str()` and `repr()` of JSON values;
- `str.strip()`;
- `', '.join(...)` over a generator;
- `datetime.fromisoformat` and `strftime('%d.%m.%y')`;
- `urljoin` for a base and a relative path of plain segments.

A built-in exception the extractor does not catch is the error
`Raised(exc)`. The extractor's own `ExtractorError`s are `NotAnObject`,
`ApiError` and `NoAudioSources`.

Modules:

- `Wrappers`: Option and Result.
- `PyJson`: decoded JSON values and the dict and subscript semantics used on them.
- `PyStr`: strip, join, split and decimal and hex digits.
- `PyRepr`: `repr`/`str` of JSON values, with a parser back from `repr` of a string.
- `IsoDate`: calendar dates, `fromisoformat` and `%d.%m.%y`.
- `NtsRadio`: the extractor itself.
- `Episodes`: an independent reference. An episode is a record of typed
  fields with a direct statement of what the extraction gives for it. It is
  proved equal to `NtsRadio.Resolve` and `NtsRadio.Extract` for every API
  object that carries those fields as the extractor reads them. The
  top-level members may come in any order among any others. The genre and
  audio source records may hold other members in any order. `mixcloud` may
  be null or absent when the episode has none. Only the first audio source
  record is read.

## Model

| member | source | states |
|---|---|---|
| NtsRadio.ApiUrl | src/dl_plus/extractors/un1def/ntsradio.py:21 | The joined URL starts with the API base, is exactly the base for no segments, and splitting what follows on `/` gives back the segments |
| NtsRadio.EpisodeUrl | src/dl_plus/extractors/un1def/ntsradio.py:38-39 | An episode's resource is `https://www.nts.live/api/v2/shows/<show>/episodes/<episode>` |
| NtsRadio.EpisodePath | src/dl_plus/extractors/un1def/ntsradio.py:69 | Joining the four path parts with `/` gives `shows/<show>/episodes/<episode>` |
| NtsRadio.Validate | src/dl_plus/extractors/un1def/ntsradio.py:45-51 | A response is accepted exactly when it is an object whose `error` is absent or falsy, and then it is returned unchanged. A non-object fails with the not-an-object error quoting its repr, and an object with a truthy error fails with an expected error naming the extractor and the error's `str` |
| NtsRadio.Message | src/dl_plus/extractors/un1def/ntsradio.py:46-92 | The "no audio sources" text is exact. A not-an-object message starts with its fixed text, and a string response reads back from the rest. An API-error message starts with the extractor name and " returned error: ", and a string error follows verbatim |
| NtsRadio.Item | src/dl_plus/extractors/un1def/ntsradio.py:72-82 | `episode[key]` succeeds exactly when the key is present, gives its value, and otherwise raises KeyError |
| NtsRadio.ItemGet | src/dl_plus/extractors/un1def/ntsradio.py:72-82 | A present key gives the same value through subscript and `get`, and a missing one raises KeyError |
| NtsRadio.ParseBroadcast | src/dl_plus/extractors/un1def/ntsradio.py:72 | A non-string broadcast raises TypeError. A string is parsed by `fromisoformat`, and the date it gives is a valid calendar date |
| NtsRadio.StripText | src/dl_plus/extractors/un1def/ntsradio.py:74 | A string name is stripped, and anything else raises AttributeError |
| NtsRadio.FormatTitle | src/dl_plus/extractors/un1def/ntsradio.py:73-77 | The title is the name, `, `, the location, `, ` and the eight-character date, in that order and with nothing else |
| NtsRadio.TitleExample | src/dl_plus/extractors/un1def/ntsradio.py:73-77 | Name ` Show Name `, location `London` and 1 May 2021 give `Show Name, London, 01.05.21` |
| NtsRadio.StripExample | src/dl_plus/extractors/un1def/ntsradio.py:74 | ` Show Name ` strips to `Show Name` |
| NtsRadio.BroadcastExample | src/dl_plus/extractors/un1def/ntsradio.py:72 | `2021-05-01T20:00:00+00:00` parses to 1 May 2021 |
| NtsRadio.ValuesOf | src/dl_plus/extractors/un1def/ntsradio.py:82 | Reading `g['value']` for every genre succeeds with one value per record. Otherwise it fails with the exception of the first record that raises, every record before it having a value |
| NtsRadio.Texts | src/dl_plus/extractors/un1def/ntsradio.py:82 | The values are all strings exactly when `join` accepts them, and then their texts are kept in order |
| NtsRadio.GenreText | src/dl_plus/extractors/un1def/ntsradio.py:82 | A genres value that is not iterable (not a list, dict or string) always raises TypeError |
| NtsRadio.GenreOfRecords | src/dl_plus/extractors/un1def/ntsradio.py:82 | Genre records holding string values give those values in list order, joined by `, `. An empty list gives the empty string |
| NtsRadio.GenreNotText | src/dl_plus/extractors/un1def/ntsradio.py:82 | If any record's value is not a string, the join raises TypeError, even when every record has a value |
| NtsRadio.ReadMetadata | src/dl_plus/extractors/un1def/ntsradio.py:72-82 | Reading the metadata fails only with a built-in exception, and a missing `broadcast` raises KeyError first |
| NtsRadio.ReadMetadataFields | src/dl_plus/extractors/un1def/ntsradio.py:72-82 | The metadata reads exactly when the broadcast is an ISO date string, the name is a string, the location and description are present, and the genres join. It then holds the title built from the stripped name, the location's `str` and the date; the description unchanged; and the joined genres |
| NtsRadio.BaseResult | src/dl_plus/extractors/un1def/ntsradio.py:78-83 | The base result is a dict of exactly `_type`, `title`, `description` and `genre` in that order, without `url` or `ie_key`. It holds `url_transparent` and the three metadata values |
| NtsRadio.IeKeyFor | src/dl_plus/extractors/un1def/ntsradio.py:60-63 | The looked-up extractor key is `Mixcloud` for tag `mixcloud`, `Soundcloud` for `soundcloud` and None for any other hashable tag. A list or dict tag, which is unhashable, is exactly the case that raises TypeError |
| NtsRadio.FirstAudioSource | src/dl_plus/extractors/un1def/ntsradio.py:87 | The first audio source is None when `audio_sources` is missing. Otherwise it is the value's first item: the first entry of a non-empty list, or the first character of a non-empty string. When the value has no first item (an empty list or string, a dict, null, a number or a boolean), it is None |
| NtsRadio.Delegate | src/dl_plus/extractors/un1def/ntsradio.py:84-92 | Delegation fails only with "no audio sources" or a built-in exception |
| NtsRadio.Resolve | src/dl_plus/extractors/un1def/ntsradio.py:65-93 | The extraction after the fetch fails only with "no audio sources" or a built-in exception, and an error reading the metadata is passed on unchanged |
| NtsRadio.Extract | src/dl_plus/extractors/un1def/ntsradio.py:38-93 | The extraction fetches `https://www.nts.live/api/v2/shows/<show>/episodes/<episode>`. A refused response ends it with the check's error, and an accepted one is resolved from its members |
| NtsRadio.SetAudioKeys | src/dl_plus/extractors/un1def/ntsradio.py:85-90 | Setting `url` and then `ie_key` on the base result appends them in that order |
| NtsRadio.ResolveResultShape | src/dl_plus/extractors/un1def/ntsradio.py:78-93 | Every successful result is a dict of exactly `_type`, `title`, `description`, `genre`, `url` and `ie_key`, in that order. It holds the metadata read from the episode |
| NtsRadio.DelegateShape | src/dl_plus/extractors/un1def/ntsradio.py:84-90 | Whichever branch delegates, the base result gets the full six-key shape |
| NtsRadio.DelegateSets | src/dl_plus/extractors/un1def/ntsradio.py:84-90 | Every successful delegation sets `url` and then `ie_key` on the base result |
| NtsRadio.BaseShape | src/dl_plus/extractors/un1def/ntsradio.py:78-90 | The base result with the two audio keys appended has the six-key shape |
| NtsRadio.MixcloudFirst | src/dl_plus/extractors/un1def/ntsradio.py:84-86 | A truthy `mixcloud` URL wins over any audio source: the result hands that URL to the Mixcloud extractor |
| NtsRadio.AudioSourceUsed | src/dl_plus/extractors/un1def/ntsradio.py:87-90 | With no truthy `mixcloud`, a truthy first audio source gives the result its `url`. Its hashable `source` tag gives the extractor key: `Mixcloud` for `mixcloud`, `Soundcloud` for `soundcloud`, None for any other string, number, boolean or null |
| NtsRadio.DelegateAudio | src/dl_plus/extractors/un1def/ntsradio.py:87-90 | The audio-source branch sets the source's `url` and then the key its hashable tag maps to |
| NtsRadio.AudioSourceFaults | src/dl_plus/extractors/un1def/ntsradio.py:87-90 | A truthy first source that lacks `url` or `source`, or whose tag is unhashable, ends in that built-in exception. `url` is read first |
| NtsRadio.NoAudioSourcesExactly | src/dl_plus/extractors/un1def/ntsradio.py:84-92 | The extraction ends in "no audio sources" exactly when the metadata reads, `mixcloud` is falsy and there is no truthy first audio source |
| NtsRadio.DelegateNoAudio | src/dl_plus/extractors/un1def/ntsradio.py:84-92 | Delegation finds no audio exactly when neither `mixcloud` nor the first audio source is truthy |
| Episodes.EncodeServes | src/dl_plus/extractors/un1def/ntsradio.py:72-90 | The API object encoding an episode carries each of its fields and no `error` member |
| Episodes.ServedMetadata | src/dl_plus/extractors/un1def/ntsradio.py:72-82 | For any object carrying an episode's fields, the metadata is that episode's title, description and joined genres. Genre records may hold other members |
| Episodes.ResolveServed | src/dl_plus/extractors/un1def/ntsradio.py:65-93 | Any object carrying an episode's fields resolves to the reference outcome: a non-empty Mixcloud URL first, else the first audio source, else "no audio sources". The object and its genre and source records may hold other members in any order, and `mixcloud` may be null or absent |
| Episodes.SourceResolves | src/dl_plus/extractors/un1def/ntsradio.py:87-90 | A first audio source holding a tag and a URL gives the result that URL and the key of the tag's host |
| Episodes.ResolveEncoded | src/dl_plus/extractors/un1def/ntsradio.py:65-93 | The encoded episode resolves to the reference outcome |
| Episodes.ExtractServed | src/dl_plus/extractors/un1def/ntsradio.py:38-93 | When the episode's address serves such an object with no truthy `error`, the whole extraction gives the reference outcome. Other members, in any order, are allowed at every level |
| Episodes.ExtractEncoded | src/dl_plus/extractors/un1def/ntsradio.py:38-93 | When the episode's address serves the encoded episode, the whole extraction gives the reference outcome |
| PyStr.Strip | src/dl_plus/extractors/un1def/ntsradio.py:74 | Stripping leaves an infix of the input that neither starts nor ends with whitespace. Only whitespace lies before and after it |
| PyStr.StripExact | src/dl_plus/extractors/un1def/ntsradio.py:74 | Text padded only with whitespace on both sides, whose own ends are not whitespace, strips to exactly that text |
| PyStr.Join | src/dl_plus/extractors/un1def/ntsradio.py:82 | The joined text is as long as the parts together plus one separator between each two |
| PyStr.SplitJoin | src/dl_plus/extractors/un1def/ntsradio.py:39 | Splitting on `/` undoes joining segments that contain no `/` |
| PyRepr.Str | src/dl_plus/extractors/un1def/ntsradio.py:50 | `str` of a string is the string itself, and of any other value its `repr` |
| PyRepr.Repr | src/dl_plus/extractors/un1def/ntsradio.py:46 | `repr` is never empty. A string's literal reads back as the string, a list is bracketed and a dict braced |
| PyRepr.ReprStringRoundTrip | src/dl_plus/extractors/un1def/ntsradio.py:46 | The `repr` of a string quoted in the not-an-object message parses back to the string |
| IsoDate.FromIsoFormat | src/dl_plus/extractors/un1def/ntsradio.py:72 | A successful parse is a valid date whose `YYYY-MM-DD` spelling is the first ten characters. Any failure is ValueError |
| IsoDate.FromIsoFormatRoundTrip | src/dl_plus/extractors/un1def/ntsradio.py:72 | A date's ISO spelling, followed by anything, parses back to the date |
| IsoDate.DdMmYy | src/dl_plus/extractors/un1def/ntsradio.py:76 | `%d.%m.%y` is eight characters with dots at positions 2 and 5. The digit pairs spell the day, the month and the year modulo 100 |
| PyJson.Truthy | src/dl_plus/extractors/un1def/ntsradio.py:48-87 | A value is false in `if error:`, `if mixcloud_url := ...` and `elif audio_source := ...` exactly when it is None, False, 0, the empty string, the empty list or the empty dict |
| PyJson.Get | src/dl_plus/extractors/un1def/ntsradio.py:47-84 | `d.get(k)` is None when `k` is absent, and otherwise the value stored under `k` |
| PyJson.Subscript | src/dl_plus/extractors/un1def/ntsradio.py:72-90 | `v[key]` succeeds exactly when `v` is a dict holding `key`, and gives the stored value. A dict without the key raises KeyError, and any other value raises TypeError |
| PyJson.First | src/dl_plus/extractors/un1def/ntsradio.py:87 | `v[0]` succeeds exactly for a non-empty list, giving its first item, or a non-empty string, giving its first character. An empty list or string raises IndexError, a dict KeyError, and null, a boolean or a number TypeError |
| PyJson.Iterate | src/dl_plus/extractors/un1def/ntsradio.py:82 | Iterating fails with TypeError exactly when the value is not a list, dict or string. A list yields its items, a dict its keys in order and a string its one-character strings |
| PyJson.SetItem | src/dl_plus/extractors/un1def/ntsradio.py:85-90 | After `d[k] = v`, `k` looks up `v`, and a new key is appended at the end |
| PyJson.SetTwoNewItems | src/dl_plus/extractors/un1def/ntsradio.py:85-90 | Setting two new distinct keys appends them in order |

## Left out

- Network access: `_download_json` is the parameter `download`, a total function from URL to decoded JSON. Download failures, the `note`/`errnote` log messages and the extra keyword arguments are not modelled.
- URL matching: `_match_valid_url` and the `DLP_BASE_URL`/`DLP_REL_URL` patterns are not modelled. The show id and episode id are inputs.
- `IE_NAME` is assigned by the plugin registry, which is not part of this model; it is the parameter `ieName`.
- Plugin registration, `__version__` and the `try_get` import are not modelled.
- How the host framework reports an uncaught `ExtractorError` or a built-in exception is not modelled: both are the extraction's error.
- NtsRadio.ApiUrl: models `urljoin` only for plain relative segments. They are non-empty, not `.` or `..`, and without `/?#;`, tab, line feed or carriage return. The first has no `:` and does not start with a blank or control character. Dot-segment resolution, the splitting of `;` parameters off the last segment, scheme detection and character removal are not modelled.
- NtsRadio.EpisodeUrl: requires plain segments. The URL pattern only rules out `/`, `#` and `?` in the ids. So an id of `.` or `..`, one holding `;` (such as `..;x`, which `urljoin` resolves as a dot segment with parameters), or one holding a tab is outside the model.
- IsoDate.FromIsoFormat: reads only the `YYYY-MM-DD` prefix. Python also rejects a malformed time-of-day part after it with ValueError, and from 3.11 accepts more layouts (`YYYYMMDD`, week dates); neither is modelled. The result is the date alone, since only the date is printed.
- Episodes.ResolveServed: the `time` after the date in `broadcast` is not validated, because `IsoDate.FromIsoFormat` reads only the date. An object whose broadcast is `2021-05-01xyz` resolves in the model, while Python's `fromisoformat` raises ValueError for it. The same holds for `Episodes.ExtractServed`.
- Strings are Dafny strings, sequences of Unicode scalar values. A lone surrogate, which `json.loads` produces for an escape such as `"\ud800"` in any member, cannot be represented and is outside the model.
- JSON numbers are integers. Floats, NaN and their `repr` are not modelled.
- PyRepr.Repr: escapes control characters as Python does up to U+00FF. The printability test for characters above U+00FF, which needs the Unicode database, is not modelled: they are kept verbatim.
- The limit on converting very long integers to decimal text is not modelled.
- A JSON object is a list of members in insertion order with distinct keys, as a decoded dict is. Duplicate keys in the raw JSON are not modelled; lookup takes the first match.
- PyJson.SetItem: dict item assignment is modelled on values, returning the new dict, not by updating a shared dict in place. Aliasing is not modelled; the result dict is local to the extraction. The contract states the new key's position and the assigned value; for an existing key it states only the new value, since the extractor only ever adds new keys.
