/**
 * The multi-tenant configuration manager: a per-SIP-number cache of agent
 * configurations with a time-to-live, filled on a miss from the tenant
 * database (two queries: the SIP number's client, then that client's
 * configuration row) and converted to the agent configuration format.
 *
 * The database is the `Backend` oracle and the clock an integer parameter
 * (`now`, in seconds).
 */
module ClientManagement {
  import opened Wrappers
  import opened ConfigValues
  import AgentConfigLoader

  /** What one database query returns: its `data` (a JSON value, `null` for no row), or an exception. */
  datatype Query = Rows(data: Value) | Raises

  /**
   * The two queries of a lookup: the active client of an active SIP number
   * (the `client_sip_numbers` row joined with `clients`), and the
   * `client_configurations` row of a client id.
   */
  datatype Backend = Backend(sipLookup: string -> Query, configLookup: Value -> Query)

  /** `float(s)` and `int(s)` on strings, which are not part of this model: `None` when they raise. */
  datatype NumberParsing = NumberParsing(parseFloat: string -> Option<real>, parseInt: string -> Option<int>)

  /** `float(v)`: `None` when Python raises. */
  function ToFloat(v: Value, nums: NumberParsing): (r: Option<real>)
    ensures v.Float? ==> r == Some(v.f)
    ensures v.Int? ==> r == Some(v.i as real)
    ensures v.Null? || v.Arr? || v.Obj? ==> r == None
  {
    match v
    case Bool(b) => Some(if b then 1.0 else 0.0)
    case Int(i) => Some(i as real)
    case Float(f) => Some(f)
    case Str(s) => nums.parseFloat(s)
    case _ => None
  }

  /** `int(f)` on a float: rounds toward zero. */
  function Truncate(f: real): (r: int)
    ensures f >= 0.0 ==> r as real <= f < r as real + 1.0
    ensures f < 0.0 ==> r as real - 1.0 < f <= r as real
  {
    if f >= 0.0 then f.Floor else -((-f).Floor)
  }

  /** `int(v)`: `None` when Python raises. */
  function ToInt(v: Value, nums: NumberParsing): (r: Option<int>)
    ensures v.Int? ==> r == Some(v.i)
    ensures v.Null? || v.Arr? || v.Obj? ==> r == None
  {
    match v
    case Bool(b) => Some(if b then 1 else 0)
    case Int(i) => Some(i)
    case Float(f) => Some(Truncate(f))
    case Str(s) => nums.parseInt(s)
    case _ => None
  }

  const DefaultTurnDetection: Value :=
    Obj(map["threshold" := Float(0.5), "prefix_padding_ms" := Int(100), "silence_duration_ms" := Int(500)])

  const DefaultAudio: Value :=
    Obj(map["input_format" := Str("PCM16"), "output_format" := Str("PCM16"),
            "echo_cancellation" := Bool(true), "noise_reduction" := Str("azure_deep_noise_suppression")])

  /** The keys of every converted configuration. */
  const ConfigKeys: set<string> :=
    {"model", "voice", "temperature", "max_tokens", "speech_rate", "top_p", "frequency_penalty",
     "presence_penalty", "turn_detection", "audio", "modalities", "instructions"}

  /** The fields of a converted configuration, before they are laid out as a dictionary. */
  datatype ConfigRow = ConfigRow(
    model: Value, voice: Value, temperature: real, maxTokens: int, speechRate: real, topP: real,
    frequencyPenalty: real, presencePenalty: real, turnDetection: Value, audio: Value, instructions: Value)
  {
    /** The dictionary `_convert_to_config_dict` returns; `modalities` is always text and audio. */
    function ToDict(): Dict {
      map[
        "model" := model,
        "voice" := voice,
        "temperature" := Float(temperature),
        "max_tokens" := Int(maxTokens),
        "speech_rate" := Float(speechRate),
        "top_p" := Float(topP),
        "frequency_penalty" := Float(frequencyPenalty),
        "presence_penalty" := Float(presencePenalty),
        "turn_detection" := turnDetection,
        "audio" := audio,
        "modalities" := Arr([Str("TEXT"), Str("AUDIO")]),
        "instructions" := instructions]
    }
  }

  /** Every converted configuration has exactly the listed keys, with text and audio as its modalities. */
  lemma ToDictKeys(c: ConfigRow)
    ensures c.ToDict().Keys == ConfigKeys
    ensures c.ToDict()["modalities"] == Arr([Str("TEXT"), Str("AUDIO")])
  {
  }

  /** The agent properties of a converted configuration read its fields. */
  lemma ToDictFields(c: ConfigRow)
    ensures VoiceOf(c.ToDict()) == c.voice && TemperatureOf(c.ToDict()) == Float(c.temperature)
      && MaxTokensOf(c.ToDict()) == Int(c.maxTokens) && InstructionsOf(c.ToDict()) == c.instructions
    ensures c.ToDict()["audio"] == c.audio
  {
  }

  /**
   * `_convert_to_config_dict`: each field is the row's value or its default;
   * numeric fields go through `float()`/`int()`, and there is no result when
   * one of those raises.
   */
  function ConvertRow(db: Dict, nums: NumberParsing): (r: Option<ConfigRow>)
    ensures r.Some? <==>
      && ToFloat(GetOr(db, "temperature", Float(0.7)), nums).Some?
      && ToInt(GetOr(db, "max_tokens", Int(800)), nums).Some?
      && ToFloat(GetOr(db, "speech_rate", Float(1.0)), nums).Some?
      && ToFloat(GetOr(db, "top_p", Float(0.9)), nums).Some?
      && ToFloat(GetOr(db, "frequency_penalty", Float(0.0)), nums).Some?
      && ToFloat(GetOr(db, "presence_penalty", Float(0.0)), nums).Some?
    ensures r.Some? ==>
      && r.value.model == GetOr(db, "model", Str("gpt-realtime"))
      && r.value.voice == GetOr(db, "voice", Str(DefaultVoice))
      && r.value.turnDetection == GetOr(db, "turn_detection", DefaultTurnDetection)
      && r.value.audio == GetOr(db, "audio_config", DefaultAudio)
      && r.value.instructions == GetOr(db, "instructions", Str("Você é um assistente útil."))
      && Some(r.value.temperature) == ToFloat(GetOr(db, "temperature", Float(0.7)), nums)
      && Some(r.value.maxTokens) == ToInt(GetOr(db, "max_tokens", Int(800)), nums)
      && Some(r.value.speechRate) == ToFloat(GetOr(db, "speech_rate", Float(1.0)), nums)
      && Some(r.value.topP) == ToFloat(GetOr(db, "top_p", Float(0.9)), nums)
      && Some(r.value.frequencyPenalty) == ToFloat(GetOr(db, "frequency_penalty", Float(0.0)), nums)
      && Some(r.value.presencePenalty) == ToFloat(GetOr(db, "presence_penalty", Float(0.0)), nums)
  {
    var temperature := ToFloat(GetOr(db, "temperature", Float(0.7)), nums);
    var maxTokens := ToInt(GetOr(db, "max_tokens", Int(800)), nums);
    var speechRate := ToFloat(GetOr(db, "speech_rate", Float(1.0)), nums);
    var topP := ToFloat(GetOr(db, "top_p", Float(0.9)), nums);
    var frequencyPenalty := ToFloat(GetOr(db, "frequency_penalty", Float(0.0)), nums);
    var presencePenalty := ToFloat(GetOr(db, "presence_penalty", Float(0.0)), nums);
    if temperature.None? || maxTokens.None? || speechRate.None? || topP.None?
       || frequencyPenalty.None? || presencePenalty.None? then None
    else Some(ConfigRow(
      GetOr(db, "model", Str("gpt-realtime")),
      GetOr(db, "voice", Str(DefaultVoice)),
      temperature.value, maxTokens.value, speechRate.value, topP.value,
      frequencyPenalty.value, presencePenalty.value,
      GetOr(db, "turn_detection", DefaultTurnDetection),
      GetOr(db, "audio_config", DefaultAudio),
      GetOr(db, "instructions", Str("Você é um assistente útil."))))
  }

  /** An empty configuration row converts to the listed defaults. */
  lemma EmptyRowGivesDefaults(nums: NumberParsing)
    ensures var r := ConvertRow(map[], nums);
      && r.Some?
      && VoiceOf(r.value.ToDict()) == Str("en-US-Andrew:DragonHDLatestNeural")
      && TemperatureOf(r.value.ToDict()) == Float(0.7)
      && MaxTokensOf(r.value.ToDict()) == Int(800)
      && InstructionsOf(r.value.ToDict()) == Str("Você é um assistente útil.")
      && r.value.ToDict()["audio"] == DefaultAudio
  {
    var r := ConvertRow(map[], nums);
    var c := r.value;
    assert c.voice == Str(DefaultVoice) && c.temperature == 0.7 && c.maxTokens == 800;
    assert c.instructions == Str("Você é um assistente útil.") && c.audio == DefaultAudio;
    ToDictFields(c);
  }

  /** How a database lookup for a SIP number ends. */
  datatype FetchOutcome =
    /** No SIP row, an inactive or missing client, or no configuration row: `None`. */
    | Missing
    /** A query raised, or the row lacked a field the code indexes: the exception propagates. */
    | Failed
    /**
     * A configuration was built and stored in the cache. With `raisesAfterStore`
     * the client row has no `client_name`, so the closing log line raises after the store.
     */
    | Fetched(config: Dict, raisesAfterStore: bool)

  /** The outcome of the first query: the active client of the SIP number. */
  datatype ClientLookup =
    /** No SIP row, or a missing or inactive client: `None`. */
    | NoClient
    /** The query raised, or a field the code indexes is missing. */
    | ClientError
    | ActiveClient(clientId: Value, client: Dict)

  /** The first query of a miss: SIP number to active client. */
  function FindClient(b: Backend, sip: string): (r: ClientLookup)
    ensures b.sipLookup(sip).Raises? ==> r == ClientError
    ensures b.sipLookup(sip).Rows? && !Truthy(b.sipLookup(sip).data) ==> r == NoClient
    ensures r.ActiveClient? ==> Truthy(GetOr(r.client, "active", Bool(false)))
  {
    match b.sipLookup(sip)
    case Raises => ClientError
    case Rows(row) =>
      if !Truthy(row) then NoClient
      else if !row.Obj? || "client_id" !in row.fields || "clients" !in row.fields then ClientError
      else
        var client := row.fields["clients"];
        if !Truthy(client) then NoClient
        else if !client.Obj? then ClientError
        else if !Truthy(GetOr(client.fields, "active", Bool(false))) then NoClient
        else ActiveClient(row.fields["client_id"], client.fields)
  }

  /** The second query of a miss: the client's configuration row, converted. */
  function FetchConfig(b: Backend, clientId: Value, client: Dict, nums: NumberParsing): (r: FetchOutcome)
    ensures b.configLookup(clientId).Raises? ==> r == Failed
    ensures r.Fetched? <==>
      b.configLookup(clientId).Rows? && Truthy(b.configLookup(clientId).data)
      && b.configLookup(clientId).data.Obj? && ConvertRow(b.configLookup(clientId).data.fields, nums).Some?
    ensures r.Fetched? ==>
      r.config == ConvertRow(b.configLookup(clientId).data.fields, nums).value.ToDict()
      && (r.raisesAfterStore <==> "client_name" !in client)
  {
    match b.configLookup(clientId)
    case Raises => Failed
    case Rows(cfg) =>
      if !Truthy(cfg) then (if "client_name" in client then Missing else Failed)
      else if !cfg.Obj? then Failed
      else match ConvertRow(cfg.fields, nums)
        case None => Failed
        case Some(c) => Fetched(c.ToDict(), "client_name" !in client)
  }

  /** The database part of `get_client_config`, on a cache miss. */
  function Fetch(b: Backend, sip: string, nums: NumberParsing): (r: FetchOutcome)
    ensures FindClient(b, sip).NoClient? ==> r == Missing
    ensures FindClient(b, sip).ClientError? ==> r == Failed
    ensures r.Fetched? ==> FindClient(b, sip).ActiveClient?
  {
    match FindClient(b, sip)
    case NoClient => Missing
    case ClientError => Failed
    case ActiveClient(clientId, client) => FetchConfig(b, clientId, client, nums)
  }

  /** The number of queries a miss makes: the configuration is asked for only for an active client. */
  function QueryCount(b: Backend, sip: string): (r: nat)
    ensures r == 2 <==> FindClient(b, sip).ActiveClient?
    ensures r == 1 <==> !FindClient(b, sip).ActiveClient?
  {
    if FindClient(b, sip).ActiveClient? then 2 else 1
  }

  /** Missing the SIP row, the client or the configuration row never raises when the client row is complete. */
  lemma MissingRowsAreNotErrors(b: Backend, sip: string, nums: NumberParsing)
    requires FindClient(b, sip).ActiveClient? && "client_name" in FindClient(b, sip).client
    requires var id := FindClient(b, sip).clientId;
      b.configLookup(id).Rows? && !Truthy(b.configLookup(id).data)
    ensures Fetch(b, sip, nums) == Missing
  {
  }

  /** One cache entry: the configuration and when it was stored. */
  datatype CacheEntry = CacheEntry(config: AgentConfigLoader.AgentConfig, timestamp: int)

  /** The entries among `keys` still inside the time-to-live at `now`. */
  function FreshKeys(cache: map<string, CacheEntry>, keys: set<string>, now: int, ttl: int): (r: set<string>)
    ensures r <= keys
  {
    set k | k in keys && k in cache && now - cache[k].timestamp < ttl
  }

  /** The entries among `keys` past the time-to-live at `now`. */
  function ExpiredKeys(cache: map<string, CacheEntry>, keys: set<string>, now: int, ttl: int): (r: set<string>)
    ensures r <= keys
  {
    set k | k in keys && k in cache && now - cache[k].timestamp >= ttl
  }

  /** Counting one more key adds one to exactly one of the two counts. */
  lemma CountStep(cache: map<string, CacheEntry>, done: set<string>, k: string, now: int, ttl: int)
    requires k in cache && k !in done
    ensures |FreshKeys(cache, done + {k}, now, ttl)|
      == |FreshKeys(cache, done, now, ttl)| + (if now - cache[k].timestamp < ttl then 1 else 0)
    ensures |ExpiredKeys(cache, done + {k}, now, ttl)|
      == |ExpiredKeys(cache, done, now, ttl)| + (if now - cache[k].timestamp < ttl then 0 else 1)
  {
    if now - cache[k].timestamp < ttl {
      assert FreshKeys(cache, done + {k}, now, ttl) == FreshKeys(cache, done, now, ttl) + {k};
      assert ExpiredKeys(cache, done + {k}, now, ttl) == ExpiredKeys(cache, done, now, ttl);
    } else {
      assert FreshKeys(cache, done + {k}, now, ttl) == FreshKeys(cache, done, now, ttl);
      assert ExpiredKeys(cache, done + {k}, now, ttl) == ExpiredKeys(cache, done, now, ttl) + {k};
    }
  }

  /** Every entry is either fresh or expired, never both. */
  lemma FreshAndExpiredPartition(cache: map<string, CacheEntry>, now: int, ttl: int)
    ensures FreshKeys(cache, cache.Keys, now, ttl) !! ExpiredKeys(cache, cache.Keys, now, ttl)
    ensures |FreshKeys(cache, cache.Keys, now, ttl)| + |ExpiredKeys(cache, cache.Keys, now, ttl)| == |cache|
  {
    var f := FreshKeys(cache, cache.Keys, now, ttl);
    var e := ExpiredKeys(cache, cache.Keys, now, ttl);
    assert f + e == cache.Keys;
  }

  /** Storing over a deleted entry is storing over the original one. */
  lemma StoreAfterDelete(m: map<string, CacheEntry>, k: string, e: CacheEntry)
    ensures (m - {k})[k := e] == m[k := e]
  {
  }

  /** The result of `get_client_config`: a configuration, `None`, or the exception re-raised. */
  datatype Lookup = Found(config: AgentConfigLoader.AgentConfig) | NotFound | Raised

  /** `get_cache_stats`. */
  datatype CacheStats = CacheStats(totalEntries: nat, validEntries: nat, expiredEntries: nat, ttlSeconds: int)

  class ClientManager {
    var cache: map<string, CacheEntry>
    const ttl: int

    /** The database client is created here in the program; it is the `Backend` parameter in this model. */
    constructor (cacheTtl: int := 300)
      ensures cache == map[] && ttl == cacheTtl
    {
      cache := map[];
      ttl := cacheTtl;
    }

    /** Whether `sip` has an entry younger than the time-to-live at `now`. */
    predicate IsHit(sip: string, now: int)
      reads this
    {
      sip in cache && now - cache[sip].timestamp < ttl
    }

    /** `_get_from_cache`: a fresh entry is returned; an expired one is deleted, and nothing else changes. */
    method GetFromCache(sip: string, now: int) returns (r: Option<AgentConfigLoader.AgentConfig>)
      modifies this`cache
      ensures old(IsHit(sip, now)) ==> r == Some(old(cache)[sip].config) && cache == old(cache)
      ensures !old(IsHit(sip, now)) ==> r == None && cache == old(cache) - {sip}
    {
      if sip in cache {
        var entry := cache[sip];
        if now - entry.timestamp < ttl {
          return Some(entry.config);
        } else {
          cache := cache - {sip};
        }
      }
      return None;
    }

    /** `_store_in_cache`: the entry is set, replacing any earlier one. */
    method StoreInCache(sip: string, config: AgentConfigLoader.AgentConfig, now: int)
      modifies this`cache
      ensures cache == old(cache)[sip := CacheEntry(config, now)]
    {
      cache := cache[sip := CacheEntry(config, now)];
    }

    /**
     * `get_client_config`. A hit is answered from the cache without a
     * query. On a miss the database is asked; a configuration is stored
     * (at `storeTime`, the clock reading when it is stored) and returned
     * only when the lookup succeeds. `queries` counts the database queries.
     */
    method GetClientConfig(sip: string, b: Backend, nums: NumberParsing, now: int, storeTime: int)
      returns (r: Lookup, queries: nat)
      modifies this`cache
      ensures old(IsHit(sip, now)) ==>
        r == Found(old(cache)[sip].config) && queries == 0 && cache == old(cache)
      ensures !old(IsHit(sip, now)) ==> queries == QueryCount(b, sip)
      ensures !old(IsHit(sip, now)) ==> match Fetch(b, sip, nums)
        case Missing => r == NotFound && cache == old(cache) - {sip}
        case Failed => r == Raised && cache == old(cache) - {sip}
        case Fetched(d, late) =>
          && sip in cache && fresh(cache[sip].config)
          && cache == old(cache)[sip := CacheEntry(cache[sip].config, storeTime)]
          && cache[sip].config.config == d && cache[sip].config.env == "production"
          && (late ==> r == Raised)
          && (!late ==> r == Found(cache[sip].config))
          && (ttl > 0 ==> IsHit(sip, storeTime))
    {
      var cached := GetFromCache(sip, now);
      if cached.Some? {
        return Found(cached.value), 0;
      }
      // SIP number to client
      queries := 1;
      var found := FindClient(b, sip);
      if !found.ActiveClient? {
        return if found.NoClient? then NotFound else Raised, queries;
      }
      // client to configuration row
      queries := 2;
      var outcome := FetchConfig(b, found.clientId, found.client, nums);
      if !outcome.Fetched? {
        return if outcome.Missing? then NotFound else Raised, queries;
      }
      var agentConfig := new AgentConfigLoader.AgentConfig.FromDict(outcome.config);
      StoreInCache(sip, agentConfig, storeTime);
      StoreAfterDelete(old(cache), sip, CacheEntry(agentConfig, storeTime));
      // the closing log line reads `client_name`
      if outcome.raisesAfterStore {
        return Raised, queries;
      }
      return Found(agentConfig), queries;
    }

    /** `invalidate_cache`: a non-empty number removes only its entry; `None` or `""` clears everything. */
    method InvalidateCache(sip: Option<string>)
      modifies this`cache
      ensures sip.Some? && sip.value != "" ==> cache == old(cache) - {sip.value}
      ensures sip.None? || sip.value == "" ==> cache == map[]
    {
      if sip.Some? && sip.value != "" {
        if sip.value in cache {
          cache := cache - {sip.value};
        }
      } else {
        cache := map[];
      }
    }

    /**
     * `refresh_cache`: invalidate, then look up again. The entry is gone
     * (an empty number clears the whole cache), so the lookup always goes to
     * the database and its outcome decides the result and the new cache.
     */
    method RefreshCache(sip: string, b: Backend, nums: NumberParsing, now: int, storeTime: int)
      returns (r: Lookup, queries: nat)
      modifies this`cache
      ensures queries == QueryCount(b, sip) && queries >= 1
      ensures var base := if sip == "" then map[] else old(cache) - {sip};
        match Fetch(b, sip, nums)
        case Missing => r == NotFound && cache == base
        case Failed => r == Raised && cache == base
        case Fetched(d, late) =>
          && sip in cache && fresh(cache[sip].config)
          && cache == base[sip := CacheEntry(cache[sip].config, storeTime)]
          && cache[sip].config.config == d && cache[sip].config.env == "production"
          && (late ==> r == Raised)
          && (!late ==> r == Found(cache[sip].config))
    {
      InvalidateCache(Some(sip));
      assert sip !in cache;
      assert cache - {sip} == cache;
      r, queries := GetClientConfig(sip, b, nums, now, storeTime);
    }

    /** `get_cache_stats`: counts fresh and expired entries, leaving the cache as it is. */
    method GetCacheStats(now: int) returns (stats: CacheStats)
      ensures stats.totalEntries == |cache|
      ensures stats.validEntries == |FreshKeys(cache, cache.Keys, now, ttl)|
      ensures stats.expiredEntries == |ExpiredKeys(cache, cache.Keys, now, ttl)|
      ensures stats.validEntries + stats.expiredEntries == stats.totalEntries
      ensures stats.ttlSeconds == ttl
    {
      var entries := cache;
      var valid := 0;
      var expired := 0;
      var todo := entries.Keys;
      ghost var done: set<string> := {};
      while todo != {}
        invariant todo <= entries.Keys && done == entries.Keys - todo
        invariant valid == |FreshKeys(entries, done, now, ttl)|
        invariant expired == |ExpiredKeys(entries, done, now, ttl)|
        decreases |todo|
      {
        var k :| k in todo;
        CountStep(entries, done, k, now, ttl);
        if now - entries[k].timestamp < ttl {
          valid := valid + 1;
        } else {
          expired := expired + 1;
        }
        todo := todo - {k};
        done := done + {k};
      }
      assert done == entries.Keys;
      FreshAndExpiredPartition(entries, now, ttl);
      stats := CacheStats(|cache|, valid, expired, ttl);
    }
  }
}
