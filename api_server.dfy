/** The HTTP service's own logic: the cache keys each endpoint derives from
    its request fields, the cache-aside flow of the analysis endpoints over
    a shared key-value backend, `saveCache`, and the loading of API keys
    from key files. */
module ApiServer {
  import opened JsonModel
  import opened PyStr

  /** Expiry written with every cache entry: 15 minutes, in seconds. */
  const CACHE_EXPIRE: int := 15 * 60

  const DISCOVER_KEYWORDS: string := "discoverKeywords"
  const FULL_ANALYSIS_FOR_KEYWORD: string := "fullAnalysisForKeyword"
  const FULL_ANALYSIS_BY_CHANNEL_ID: string := "fullAnalysisByChannelId"

  datatype Error = RuntimeError  // no usable API key was found

  // ---------------------------------------------------------------------
  // Cache keys
  // ---------------------------------------------------------------------

  /** Length of a string of `n` characters joined with a separator of
      length `sepLength`. */
  function JoinedLength(sepLength: nat, n: nat): nat
  {
    if n == 0 then 0 else n + (n - 1) * sepLength
  }

  /** Pre-hash key of `/discoverKeywords`:
      `"discoverKeywords".join(keyword).join(regionCode).join(radar)`,
      each join putting the string built so far between the characters of
      the next field; its length is the one the three nested joins give. */
  function DiscoverPreKey(keyword: string, regionCode: string, radar: string): (r: string)
    ensures |r| == JoinedLength(JoinedLength(JoinedLength(|DISCOVER_KEYWORDS|, |keyword|), |regionCode|), |radar|)
  {
    JoinChars(JoinChars(JoinChars(DISCOVER_KEYWORDS, keyword), regionCode), radar)
  }

  /** Pre-hash key of `/fullAnalysisForKeyword`:
      `"fullAnalysisForKeyword".join(keyword).join(regionCode)`. */
  function FullAnalysisPreKey(keyword: string, regionCode: string): (r: string)
    ensures |r| == JoinedLength(JoinedLength(|FULL_ANALYSIS_FOR_KEYWORD|, |keyword|), |regionCode|)
  {
    JoinChars(JoinChars(FULL_ANALYSIS_FOR_KEYWORD, keyword), regionCode)
  }

  /** Pre-hash key of `/fullAnalysisByChannelId`: the last join is over the
      list of market keywords, so whole keywords are separated by the
      channel id joined with the endpoint name. */
  function ChannelPreKey(channelId: string, marketKeywords: seq<string>): (r: string)
    ensures |marketKeywords| == 0 ==> r == ""
    ensures |marketKeywords| > 0 ==>
      |r| == TotalLength(marketKeywords)
             + (|marketKeywords| - 1) * JoinedLength(|FULL_ANALYSIS_BY_CHANNEL_ID|, |channelId|)
  {
    Join(JoinChars(FULL_ANALYSIS_BY_CHANNEL_ID, channelId), marketKeywords)
  }

  /** `hashlib.md5(json.dumps(preKey).encode()).hexdigest()`. */
  function CacheKey(codec: Codec, preKey: string): string
  {
    codec.md5Hex(codec.dumps(JStr(preKey)))
  }

  /** When the last field has at most one element, the pre-key is that
      field alone: the endpoint name and the other fields vanish. */
  lemma ShortLastFieldIsTheKey(keyword: string, regionCode: string, radar: string, channelId: string, marketKeyword: string)
    ensures |radar| <= 1 ==> DiscoverPreKey(keyword, regionCode, radar) == radar
    ensures |regionCode| <= 1 ==> FullAnalysisPreKey(keyword, regionCode) == regionCode
    ensures ChannelPreKey(channelId, [marketKeyword]) == marketKeyword
  {
    if |radar| <= 1 {
      JoinCharsShort(JoinChars(JoinChars(DISCOVER_KEYWORDS, keyword), regionCode), radar);
    }
    if |regionCode| <= 1 {
      JoinCharsShort(JoinChars(FULL_ANALYSIS_FOR_KEYWORD, keyword), regionCode);
    }
  }

  /** An empty last field makes the pre-key empty, so requests to
      different endpoints with any other fields share one cache slot, the
      one whose key `/time` derives for an empty keyword. */
  lemma EmptyLastFieldSharesSlot(codec: Codec, k1: string, r1: string, k2: string, channelId: string)
    ensures DiscoverPreKey(k1, r1, "") == ""
    ensures FullAnalysisPreKey(k2, "") == ""
    ensures ChannelPreKey(channelId, []) == ""
    ensures CacheKey(codec, DiscoverPreKey(k1, r1, "")) == CacheKey(codec, FullAnalysisPreKey(k2, ""))
            == CacheKey(codec, ChannelPreKey(channelId, [])) == CacheKey(codec, "")
  {
    JoinCharsShort(JoinChars(JoinChars(DISCOVER_KEYWORDS, k1), r1), "");
    JoinCharsShort(JoinChars(FULL_ANALYSIS_FOR_KEYWORD, k2), "");
  }

  /** With an empty region code the discover pre-key is the radar itself:
      the keyword plays no part. */
  lemma DiscoverIgnoresKeywordWithoutRegion(keyword: string, radar: string)
    ensures DiscoverPreKey(keyword, "", radar) == radar
  {
    JoinCharsShort(JoinChars(DISCOVER_KEYWORDS, keyword), "");
    JoinCharsEmptySeparator(radar);
  }

  /** For fixed keyword and region code, distinct radars give distinct
      pre-keys: the radar can be read back from every (|sep| + 1)-th
      character. */
  lemma DiscoverRadarDistinguishes(keyword: string, regionCode: string, radar1: string, radar2: string)
    requires DiscoverPreKey(keyword, regionCode, radar1) == DiscoverPreKey(keyword, regionCode, radar2)
    ensures radar1 == radar2
  {
    JoinCharsInjective(JoinChars(JoinChars(DISCOVER_KEYWORDS, keyword), regionCode), radar1, radar2);
  }

  // ---------------------------------------------------------------------
  // Backend and analysis engine
  // ---------------------------------------------------------------------

  /** A cache entry: the stored text and the expiry it was written with. */
  datatype Entry = Entry(value: string, expire: int)

  /** The shared cache backend the handlers read and write. */
  class Backend {
    var store: map<string, Entry>

    constructor ()
      ensures store == map[]
    {
      store := map[];
    }

    /** `backend.get(key)`: the stored text, or `None`. */
    method Get(key: string) returns (v: Option<string>)
      ensures key in store ==> v == Some(store[key].value)
      ensures key !in store ==> v == None
    {
      if key in store {
        return Some(store[key].value);
      }
      return None;
    }

    /** `backend.set(key, value, expire=expire)`. */
    method Set(key: string, value: string, expire: int)
      modifies this
      ensures store == old(store)[key := Entry(value, expire)]
    {
      store := store[key := Entry(value, expire)];
    }
  }

  /** The analysis engine calls behind the three endpoints. */
  datatype EngineCall =
    | Discover(keyword: string, regionCode: string, radar: string)   // discover_keywords
    | FullAnalysis(keyword: string, regionCode: string)              // full_analysis_for_keyword
    | Competitor(channelId: string, marketKeywords: seq<string>)     // analyze_competitor_for_m4

  /** The analysis engine: a fixed answer per call, and a record of the
      calls made. */
  class AnalysisEngine {
    const answer: EngineCall -> Json
    ghost var calls: seq<EngineCall>

    constructor (answer: EngineCall -> Json)
      ensures this.answer == answer && calls == []
    {
      this.answer := answer;
      calls := [];
    }

    method Run(call: EngineCall) returns (r: Json)
      modifies this
      ensures r == answer(call) && calls == old(calls) + [call]
    {
      r := answer(call);
      calls := calls + [call];
    }
  }

  // ---------------------------------------------------------------------
  // Cache-aside handlers
  // ---------------------------------------------------------------------

  /** The cache key of the endpoint that issues `call`. */
  function KeyOf(codec: Codec, call: EngineCall): string
  {
    match call
    case Discover(keyword, regionCode, radar) => CacheKey(codec, DiscoverPreKey(keyword, regionCode, radar))
    case FullAnalysis(keyword, regionCode) => CacheKey(codec, FullAnalysisPreKey(keyword, regionCode))
    case Competitor(channelId, marketKeywords) => CacheKey(codec, ChannelPreKey(channelId, marketKeywords))
  }

  /** The `{"result": ...}` response body. */
  function Envelope(result: Json): Json
  {
    JObject(map["result" := result])
  }

  /** What one handler run produces: the response, the backend contents
      afterwards, and whether the engine was asked. */
  datatype Served = Served(response: Json, store: map<string, Entry>, engineCalled: bool)

  /** The handler body: a truthy (non-empty) cached text is decoded and
      returned; otherwise the engine's answer `computed` is stored, serialised,
      for 15 minutes and returned. The engine is asked exactly on a miss, and
      no key other than `key` is ever added. */
  function CacheAside(store: map<string, Entry>, key: string, codec: Codec, computed: Json): (s: Served)
    ensures s.engineCalled <==> !(key in store && store[key].value != "")
    ensures s.store.Keys <= store.Keys + {key}
  {
    if key in store && store[key].value != "" then
      Served(Envelope(codec.loads(store[key].value)), store, false)
    else
      Served(Envelope(computed), store[key := Entry(codec.dumps(computed), CACHE_EXPIRE)], true)
  }

  /** Hit: the cached result comes back, the engine is not asked, the
      backend is not written. */
  lemma CacheHit(store: map<string, Entry>, key: string, codec: Codec, computed: Json)
    requires key in store && store[key].value != ""
    ensures var s := CacheAside(store, key, codec, computed);
            && s.response == Envelope(codec.loads(store[key].value))
            && !s.engineCalled && s.store == store
  {
  }

  /** Miss: the engine is asked, its answer is returned and stored under
      the same key with expiry 900, and no other entry changes. */
  lemma CacheMiss(store: map<string, Entry>, key: string, codec: Codec, computed: Json)
    requires !(key in store && store[key].value != "")
    ensures var s := CacheAside(store, key, codec, computed);
            && s.response == Envelope(computed) && s.engineCalled
            && key in s.store && s.store[key] == Entry(codec.dumps(computed), CACHE_EXPIRE)
            && (forall other :: other != key ==> (other in s.store <==> other in store))
            && (forall other :: other != key && other in store ==> s.store[other] == store[other])
  {
  }

  /** After a miss, the same request again is a hit that returns what the
      first one returned, whatever the engine would now say. */
  lemma RepeatAfterMissIsHit(store: map<string, Entry>, key: string, codec: Codec, computed: Json, later: Json)
    requires !(key in store && store[key].value != "")
    requires codec.dumps(computed) != ""                  // json.dumps never yields ""
    requires codec.loads(codec.dumps(computed)) == computed  // json round trip
    ensures var first := CacheAside(store, key, codec, computed);
            CacheAside(first.store, key, codec, later) == Served(first.response, first.store, false)
  {
  }

  /** Consequence of the shared slot: once `/fullAnalysisForKeyword` has
      stored a result for an empty region code, `/discoverKeywords` with an
      empty radar answers with that result, for any keyword. */
  lemma DiscoverServesFullAnalysisResult(store: map<string, Entry>, codec: Codec,
                                         keyword1: string, keyword2: string, regionCode: string,
                                         analysis: Json, discovery: Json)
    requires !(KeyOf(codec, FullAnalysis(keyword2, "")) in store
               && store[KeyOf(codec, FullAnalysis(keyword2, ""))].value != "")
    requires codec.dumps(analysis) != ""
    requires codec.loads(codec.dumps(analysis)) == analysis
    ensures var first := CacheAside(store, KeyOf(codec, FullAnalysis(keyword2, "")), codec, analysis);
            var second := CacheAside(first.store, KeyOf(codec, Discover(keyword1, regionCode, "")), codec, discovery);
            second.response == Envelope(analysis) && !second.engineCalled
  {
    EmptyLastFieldSharesSlot(codec, keyword1, regionCode, keyword2, "");
  }

  /** One analysis endpoint: derive the key, then read or fill the cache. */
  method Handle(backend: Backend, engine: AnalysisEngine, codec: Codec, call: EngineCall) returns (response: Json)
    modifies backend, engine
    ensures var s := CacheAside(old(backend.store), KeyOf(codec, call), codec, engine.answer(call));
            && response == s.response
            && backend.store == s.store
            && engine.calls == old(engine.calls) + (if s.engineCalled then [call] else [])
  {
    var key := KeyOf(codec, call);
    var cached := backend.Get(key);
    if cached.Some? && cached.value != "" {
      return Envelope(codec.loads(cached.value));
    }
    var result := engine.Run(call);
    backend.Set(key, codec.dumps(result), CACHE_EXPIRE);
    response := Envelope(result);
  }

  /** `POST /discoverKeywords`. */
  method DiscoverKeywords(backend: Backend, engine: AnalysisEngine, codec: Codec,
                          keyword: string, regionCode: string, radar: string) returns (response: Json)
    modifies backend, engine
    ensures var call := Discover(keyword, regionCode, radar);
            var s := CacheAside(old(backend.store), CacheKey(codec, DiscoverPreKey(keyword, regionCode, radar)),
                                codec, engine.answer(call));
            && response == s.response && backend.store == s.store
            && engine.calls == old(engine.calls) + (if s.engineCalled then [call] else [])
  {
    response := Handle(backend, engine, codec, Discover(keyword, regionCode, radar));
  }

  /** `POST /fullAnalysisForKeyword`. */
  method FullAnalysisForKeyword(backend: Backend, engine: AnalysisEngine, codec: Codec,
                                keyword: string, regionCode: string) returns (response: Json)
    modifies backend, engine
    ensures var call := FullAnalysis(keyword, regionCode);
            var s := CacheAside(old(backend.store), CacheKey(codec, FullAnalysisPreKey(keyword, regionCode)),
                                codec, engine.answer(call));
            && response == s.response && backend.store == s.store
            && engine.calls == old(engine.calls) + (if s.engineCalled then [call] else [])
  {
    response := Handle(backend, engine, codec, FullAnalysis(keyword, regionCode));
  }

  /** `POST /fullAnalysisByChannelId`. */
  method FullAnalysisByChannelId(backend: Backend, engine: AnalysisEngine, codec: Codec,
                                 channelId: string, marketKeywords: seq<string>) returns (response: Json)
    modifies backend, engine
    ensures var call := Competitor(channelId, marketKeywords);
            var s := CacheAside(old(backend.store), CacheKey(codec, ChannelPreKey(channelId, marketKeywords)),
                                codec, engine.answer(call));
            && response == s.response && backend.store == s.store
            && engine.calls == old(engine.calls) + (if s.engineCalled then [call] else [])
  {
    response := Handle(backend, engine, codec, Competitor(channelId, marketKeywords));
  }

  /** A call of the backend's asynchronous `set` that has not been awaited:
      the entry it would write, under its key. */
  datatype PendingWrite = PendingWrite(key: string, entry: Entry)

  /** The store once a pending write has been awaited. */
  function Apply(store: map<string, Entry>, p: PendingWrite): map<string, Entry>
  {
    store[p.key := p.entry]
  }

  /** `saveCache(key, value, expire=15*60)`: returns `backend.set(...)`
      without awaiting it, so the call itself stores nothing; the write it
      hands back holds the value serialised, which reads back as the value. */
  function SaveCache(codec: Codec, key: string, value: Json, expire: int := CACHE_EXPIRE): (p: PendingWrite)
    ensures p.key == key && p.entry.expire == expire
    ensures codec.loads(codec.dumps(value)) == value ==> codec.loads(p.entry.value) == value
  {
    PendingWrite(key, Entry(codec.dumps(value), expire))
  }

  /** The fixed body `/time` answers with. */
  const REAL_RESULT: Json := JObject(map["data" := JStr("real result")])

  /** `POST /time` as written: the write `saveCache` hands back is dropped,
      so the backend is left as it was and the fixed body is returned. */
  method GetTime(backend: Backend, codec: Codec, keyword: string) returns (response: Json)
    ensures response == REAL_RESULT
    ensures backend.store == old(backend.store)
  {
    var key := CacheKey(codec, keyword);
    var dropped := SaveCache(codec, key, REAL_RESULT, CACHE_EXPIRE);
    response := REAL_RESULT;
  }

  /** `/time` on an empty backend leaves the keyword's slot empty. */
  method TimeLeavesSlotEmpty(codec: Codec, keyword: string) returns (cached: Option<string>)
    ensures cached == None
  {
    var backend := new Backend();
    var response := GetTime(backend, codec, keyword);
    cached := backend.Get(CacheKey(codec, keyword));
  }

  /** `POST /time` with the write awaited, as the analysis handlers await
      theirs: the fixed body is stored under the keyword's key for 15
      minutes. */
  method GetTimeAwaited(backend: Backend, codec: Codec, keyword: string) returns (response: Json)
    modifies backend
    ensures response == REAL_RESULT
    ensures backend.store == Apply(old(backend.store), SaveCache(codec, CacheKey(codec, keyword), REAL_RESULT))
  {
    var pending := SaveCache(codec, CacheKey(codec, keyword), REAL_RESULT, CACHE_EXPIRE);
    backend.Set(pending.key, pending.entry.value, pending.entry.expire);
    response := REAL_RESULT;
  }

  /** With the write awaited, `/time` on an empty backend fills the
      keyword's slot with the body it returns. */
  method TimeAwaitedFillsSlot(codec: Codec, keyword: string) returns (cached: Option<string>)
    requires codec.loads(codec.dumps(REAL_RESULT)) == REAL_RESULT
    ensures cached.Some? && codec.loads(cached.value) == REAL_RESULT
  {
    var backend := new Backend();
    var response := GetTimeAwaited(backend, codec, keyword);
    cached := backend.Get(CacheKey(codec, keyword));
  }

  // ---------------------------------------------------------------------
  // API keys
  // ---------------------------------------------------------------------

  /** One `*.key` file found under the account directory, in the order
      `glob` lists them: its text, or a failure to open or read it. */
  datatype KeyFile = Readable(text: string) | Unreadable

  /** What one file contributes: its stripped text, unless it is unreadable
      or strips to "". */
  function Kept(file: KeyFile): (keys: seq<string>)
    ensures |keys| <= 1
    ensures forall i :: 0 <= i < |keys| ==> keys[i] != "" && Strip(keys[i]) == keys[i]
  {
    match file
    case Unreadable => []
    case Readable(text) =>
      StripIdempotent(text);
      if Strip(text) != "" then [Strip(text)] else []
  }

  /** The keys `_load_api_keys` collects: the stripped text of every
      readable file, in file order, skipping the ones that strip to "". */
  function ValidKeys(files: seq<KeyFile>): (keys: seq<string>)
    ensures |keys| <= |files|
    ensures forall i :: 0 <= i < |keys| ==> keys[i] != "" && Strip(keys[i]) == keys[i]
  {
    if files == [] then []
    else ValidKeys(files[..|files| - 1]) + Kept(files[|files| - 1])
  }

  /** The file is readable and its stripped text is `key`. */
  predicate StripsTo(file: KeyFile, key: string)
  {
    file.Readable? && Strip(file.text) == key
  }

  /** Every loaded key is the stripped text of some readable file. */
  lemma {:induction false} ValidKeysSound(files: seq<KeyFile>, key: string)
    requires key in ValidKeys(files)
    ensures key != "" && exists i :: 0 <= i < |files| && StripsTo(files[i], key)
  {
    var n := |files| - 1;
    var init := files[..n];
    if key in ValidKeys(init) {
      ValidKeysSound(init, key);
      var i :| 0 <= i < |init| && StripsTo(init[i], key);
      assert files[i] == init[i];
    } else {
      assert StripsTo(files[n], key);
    }
  }

  /** Every readable file whose stripped text is not empty yields a key. */
  lemma {:induction false} ValidKeysComplete(files: seq<KeyFile>, i: nat)
    requires i < |files| && files[i].Readable? && Strip(files[i].text) != ""
    ensures Strip(files[i].text) in ValidKeys(files)
  {
    var n := |files| - 1;
    var init := files[..n];
    assert ValidKeys(files) == ValidKeys(init) + Kept(files[n]);
    if i < n {
      assert init[i] == files[i];
      ValidKeysComplete(init, i);
    } else {
      assert Kept(files[n]) == [Strip(files[i].text)];
    }
  }

  /** A key is loaded exactly when some readable file strips to it. */
  lemma ValidKeysMembership(files: seq<KeyFile>, key: string)
    ensures key in ValidKeys(files) <==>
            key != "" && exists i :: 0 <= i < |files| && StripsTo(files[i], key)
  {
    if key in ValidKeys(files) {
      ValidKeysSound(files, key);
    }
    if key != "" && exists i :: 0 <= i < |files| && StripsTo(files[i], key) {
      var i :| 0 <= i < |files| && StripsTo(files[i], key);
      ValidKeysComplete(files, i);
    }
  }

  /** Files are consumed in order: the keys of two runs of files are the
      keys of the first followed by those of the second. */
  lemma {:induction false} ValidKeysAppend(first: seq<KeyFile>, second: seq<KeyFile>)
    ensures ValidKeys(first + second) == ValidKeys(first) + ValidKeys(second)
  {
    if second == [] {
      assert first + second == first;
    } else {
      var init := second[..|second| - 1];
      assert (first + second)[..|first + second| - 1] == first + init;
      ValidKeysAppend(first, init);
    }
  }

  /** `_load_api_keys`: read every key file, keep the stripped non-empty
      contents, and raise `RuntimeError` when none remain. */
  method LoadApiKeys(files: seq<KeyFile>) returns (r: Result<seq<string>, Error>)
    ensures ValidKeys(files) == [] ==> r == Failure(RuntimeError)
    ensures ValidKeys(files) != [] ==> r == Success(ValidKeys(files))
  {
    var keys: seq<string> := [];
    for i := 0 to |files|
      invariant keys == ValidKeys(files[..i])
    {
      assert files[..i + 1][..i] == files[..i];
      match files[i] {
        case Unreadable =>
        case Readable(text) =>
          var key := Strip(text);
          if key != "" {
            keys := keys + [key];
          }
      }
      assert keys == ValidKeys(files[..i]) + Kept(files[i]);
    }
    assert files[..|files|] == files;
    if keys == [] {
      return Failure(RuntimeError);
    }
    return Success(keys);
  }
}
