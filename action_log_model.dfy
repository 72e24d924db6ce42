/** The per-member quota record: which member type a user has, how many
    external API calls module 1 has made for them, and the limit on those
    calls; the decisions it makes (may cached results be read, may the
    external API be called) and its JSON form. */
module ActionLog {
  import opened JsonModel

  const MEMBER_TYPE_NORMAL: string := "normal"
  const MEMBER_TYPE_STANDARD: string := "standard"
  const MEMBER_TYPE_PRO: string := "pro"

  /** Values used when the stored record lacks the field. */
  const DEFAULT_COUNT_CALL_API: int := 0
  const DEFAULT_COUNT_CALL_API_CONFIG: int := 3

  /** The Python exceptions the quota code can raise. */
  datatype Error =
    | AttributeError  // `.get` or `.toString` called on something that is not a dict / config
    | TypeError       // a stored count that is not an integer

  /** The state of one `DataModule1Config` object, as a value. */
  datatype Quota = Quota(memberType: Json, countCallAPI: int, countCallAPIConfig: int)

  /** `jsonConfig.get(name, default)`, where the value must be an integer. */
  function ReadCount(fields: map<string, Json>, name: string, default: int): (r: Result<int, Error>)
  {
    match Get(fields, name, JInt(default))
    case JInt(n) => Success(n)
    case _ => Failure(TypeError)
  }

  /** `DataModule1Config(memberType, jsonConfig)`: the counter and the
      limit come from the stored module record, each with its default. */
  function ConfigFromJson(memberType: Json, jsonConfig: Json): (r: Result<Quota, Error>)
    ensures !jsonConfig.JObject? ==> r == Failure(AttributeError)
    ensures r.Success? ==> r.value.memberType == memberType
    ensures jsonConfig.JObject? ==>
      var f := jsonConfig.fields;
      && ("countCallAPI" !in f ==> r.Success? ==> r.value.countCallAPI == DEFAULT_COUNT_CALL_API)
      && ("countCallAPIConfig" !in f ==> r.Success? ==> r.value.countCallAPIConfig == DEFAULT_COUNT_CALL_API_CONFIG)
      && ("countCallAPI" in f ==> r.Success? ==> f["countCallAPI"] == JInt(r.value.countCallAPI))
      && ("countCallAPIConfig" in f ==> r.Success? ==> f["countCallAPIConfig"] == JInt(r.value.countCallAPIConfig))
      && (r.Failure? <==> (exists name | name in f && name in {"countCallAPI", "countCallAPIConfig"} :: !f[name].JInt?))
  {
    if !jsonConfig.JObject? then Failure(AttributeError)
    else
      var count := ReadCount(jsonConfig.fields, "countCallAPI", DEFAULT_COUNT_CALL_API);
      var limit := ReadCount(jsonConfig.fields, "countCallAPIConfig", DEFAULT_COUNT_CALL_API_CONFIG);
      if count.Failure? || limit.Failure? then Failure(TypeError)
      else Success(Quota(memberType, count.value, limit.value))
  }

  /** `allowSearchDB`: cached or stored results may be read while the
      counter has not passed the limit (the bound is inclusive); once it is
      refused, one more call keeps it refused. */
  function AllowSearchDB(q: Quota): (r: bool)
    ensures !r ==> q.countCallAPI + 1 > q.countCallAPIConfig
  {
    q.countCallAPI <= q.countCallAPIConfig
  }

  /** `allowSearchAPI`: a "normal" member may never call the external API;
      every other member type, unknown ones included, may call it exactly
      when it may read the database. */
  function AllowSearchAPI(q: Quota): (r: bool)
    ensures r ==> AllowSearchDB(q)
    ensures r <==> q.memberType != JStr(MEMBER_TYPE_NORMAL) && q.countCallAPI <= q.countCallAPIConfig
  {
    if q.memberType == JStr(MEMBER_TYPE_NORMAL) then false
    else AllowSearchDB(q)
  }

  /** The state after one `increaseCountCallAPI`: one more call counted,
      member type and limit kept, so it never turns a refusal into a
      permission. */
  function Increased(q: Quota): (r: Quota)
    ensures r.memberType == q.memberType && r.countCallAPIConfig == q.countCallAPIConfig
    ensures r.countCallAPI == q.countCallAPI + 1
    ensures AllowSearchDB(r) ==> AllowSearchDB(q)
    ensures AllowSearchAPI(r) ==> AllowSearchAPI(q)
  {
    q.(countCallAPI := q.countCallAPI + 1)
  }

  /** The state after `k` calls of `increaseCountCallAPI`. */
  function IncreasedBy(q: Quota, k: nat): (r: Quota)
    ensures r.memberType == q.memberType && r.countCallAPIConfig == q.countCallAPIConfig
    ensures r.countCallAPI == q.countCallAPI + k
  {
    if k == 0 then q else Increased(IncreasedBy(q, k - 1))
  }

  /** The object the source mutates: `increaseCountCallAPI` bumps its
      counter in place. */
  class DataModule1Config {
    var memberType: Json
    var countCallAPI: int
    var countCallAPIConfig: int

    function State(): Quota
      reads this
    {
      Quota(memberType, countCallAPI, countCallAPIConfig)
    }

    /** `DataModule1Config(memberType, jsonConfig)`, for a stored record
        that `ConfigFromJson` accepts. */
    constructor (memberType: Json, jsonConfig: Json)
      requires ConfigFromJson(memberType, jsonConfig).Success?
      ensures State() == ConfigFromJson(memberType, jsonConfig).value
    {
      var q := ConfigFromJson(memberType, jsonConfig).value;
      this.memberType := q.memberType;
      this.countCallAPI := q.countCallAPI;
      this.countCallAPIConfig := q.countCallAPIConfig;
    }

    /** `increaseCountCallAPI`: the counter goes up by exactly one, the new
        value is returned, the member type and the limit stay. */
    method IncreaseCountCallAPI() returns (n: int)
      modifies this
      ensures n == old(countCallAPI) + 1 && countCallAPI == n
      ensures memberType == old(memberType) && countCallAPIConfig == old(countCallAPIConfig)
      ensures State() == Increased(old(State()))
    {
      countCallAPI := countCallAPI + 1;
      n := countCallAPI;
    }
  }

  /** Once reads are refused they stay refused: the counter only grows. */
  lemma StaysExhausted(q: Quota, k: nat, j: nat)
    requires !AllowSearchDB(IncreasedBy(q, k))
    ensures !AllowSearchDB(IncreasedBy(q, k + j)) && !AllowSearchAPI(IncreasedBy(q, k + j))
  {
  }

  /** How many of the first `n` states, the initial one and the ones
      after each further increment, allow reading. */
  function SuccessfulChecks(q: Quota, n: nat): nat
  {
    if n == 0 then 0
    else SuccessfulChecks(q, n - 1) + (if AllowSearchDB(IncreasedBy(q, n - 1)) then 1 else 0)
  }

  /** From counter c and limit L, exactly the first L - c + 1 states allow
      reading (none if c > L), however many increments follow. */
  lemma {:induction false} SuccessfulChecksCount(q: Quota, n: nat)
    ensures var budget := if q.countCallAPI <= q.countCallAPIConfig
                          then q.countCallAPIConfig - q.countCallAPI + 1 else 0;
            SuccessfulChecks(q, n) == if n <= budget then n else budget
  {
    if n > 0 {
      SuccessfulChecksCount(q, n - 1);
    }
  }

  /** A fresh record (counter 0, limit 3) allows four reads and no more. */
  lemma DefaultRecordAllowsFourReads(memberType: Json, n: nat)
    requires n >= 4
    ensures SuccessfulChecks(ConfigFromJson(memberType, JObject(map[])).value, n) == 4
  {
    SuccessfulChecksCount(ConfigFromJson(memberType, JObject(map[])).value, n);
  }

  /** `toString`: the module record that is written back, which reads
      back as the same counter and limit. */
  function ToString(q: Quota): (r: Json)
    ensures r.JObject? && r.fields.Keys == {"countCallAPI", "countCallAPIConfig"}
    ensures ConfigFromJson(q.memberType, r) == Success(q)
  {
    JObject(map["countCallAPI" := JInt(q.countCallAPI), "countCallAPIConfig" := JInt(q.countCallAPIConfig)])
  }

  /** Reading back what `toString` wrote gives the same counter and limit. */
  lemma ToStringRoundTrip(memberType: Json, q: Quota)
    ensures ConfigFromJson(memberType, ToString(q)) == Success(q.(memberType := memberType))
  {
    var f := ToString(q).fields;
    assert f["countCallAPI"] == JInt(q.countCallAPI);
    assert f["countCallAPIConfig"] == JInt(q.countCallAPIConfig);
  }

  /** An `ActionLogModel`: the member type and the stored record it came from. */
  datatype ActionLogModel = ActionLogModel(memberType: Json, jsonActionLogDB: map<string, Json>)

  /** `ActionLogModel(actionLogDB)`: a record without a member type is a
      normal member's; a record that is not a dict has no `.get` and raises
      AttributeError. */
  function NewActionLogModel(actionLogDB: Json): (r: Result<ActionLogModel, Error>)
    ensures !actionLogDB.JObject? <==> r == Failure(AttributeError)
    ensures actionLogDB.JObject? ==>
      var f := actionLogDB.fields;
      && r.Success? && r.value.jsonActionLogDB == f
      && ("memberType" in f ==> r.value.memberType == f["memberType"])
      && ("memberType" !in f ==> r.value.memberType == JStr(MEMBER_TYPE_NORMAL))
  {
    if !actionLogDB.JObject? then Failure(AttributeError)
    else
      var f := actionLogDB.fields;
      Success(ActionLogModel(Get(f, "memberType", JStr(MEMBER_TYPE_NORMAL)), f))
  }

  /** `getDataModule1`: the config of module 1, read from the record's
      "module1" entry (an empty record when there is none). */
  function GetDataModule1(m: ActionLogModel): (r: Result<Quota, Error>)
    ensures "module1" !in m.jsonActionLogDB ==>
      r == Success(Quota(m.memberType, DEFAULT_COUNT_CALL_API, DEFAULT_COUNT_CALL_API_CONFIG))
    ensures r.Success? ==> r.value.memberType == m.memberType
  {
    ConfigFromJson(m.memberType, Get(m.jsonActionLogDB, "module1", JObject(map[])))
  }

  /** The dict that `toJson` serialises: the model's member type (not the
      config's) and the config's module record. Read back as an action log,
      it gives that member type and module 1's counter and limit. */
  function ActionLogRecord(m: ActionLogModel, q: Quota): (r: Json)
    ensures r.JObject? && r.fields.Keys == {"memberType", "module1"}
    ensures NewActionLogModel(r).Success?
    ensures GetDataModule1(NewActionLogModel(r).value) == Success(q.(memberType := m.memberType))
  {
    JObject(map["memberType" := m.memberType, "module1" := ToString(q)])
  }

  /** `toJson(dataModule1Config)`: with no config, the source raises while
      calling `toString` on `None`. */
  function ToJson(m: ActionLogModel, config: Option<Quota>, codec: Codec): (r: Result<string, Error>)
    ensures config.None? <==> r == Failure(AttributeError)
  {
    match config
    case None => Failure(AttributeError)
    case Some(q) => Success(codec.dumps(ActionLogRecord(m, q)))
  }

  /** Round trip: rebuilding a model from what `toJson` wrote and asking
      for module 1 gives back the counter and the limit, under the model's
      member type; so a config that came from the same model comes back
      unchanged. */
  lemma ToJsonRoundTrip(m: ActionLogModel, q: Quota, codec: Codec)
    requires codec.loads(codec.dumps(ActionLogRecord(m, q))) == ActionLogRecord(m, q)
    ensures var back := NewActionLogModel(codec.loads(ToJson(m, Some(q), codec).value));
            && back.Success?
            && GetDataModule1(back.value) == Success(Quota(m.memberType, q.countCallAPI, q.countCallAPIConfig))
    ensures GetDataModule1(m) == Success(q) ==>
            GetDataModule1(NewActionLogModel(codec.loads(ToJson(m, Some(q), codec).value)).value) == Success(q)
  {
  }
}
