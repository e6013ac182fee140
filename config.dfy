/** The agents' configuration: the role table, the per-role model
    parameters, the normaliser `validate_model_params` that every agent's
    LLM configuration passes through, the tolerant `safe_json_parse`, and
    `create_agent_config_list`. The API key read from the environment is a
    parameter (`None` when the variable is unset). */
module Config {
  import opened Wrappers
  import opened Text
  import opened JsonValue
  import opened PyOps
  import opened Extraction

  /* ---------- roles ---------- */

  /** `AgentRole`, in declaration order. */
  datatype Role =
    | CourseDesigner
    | ContentCreator
    | AssessmentCreator
    | CodeExpert
    | VisualDesigner
    | PracticeGenerator
    | ChatAssistant

  /** `list(AgentRole)`. */
  const AllRoles: seq<Role> :=
    [CourseDesigner, ContentCreator, AssessmentCreator, CodeExpert, VisualDesigner, PracticeGenerator, ChatAssistant]

  /** The enum value of a role, which is also its agent's name. */
  function RoleName(r: Role): string {
    match r
    case CourseDesigner => "course_designer"
    case ContentCreator => "content_creator"
    case AssessmentCreator => "assessment_creator"
    case CodeExpert => "code_expert"
    case VisualDesigner => "visual_designer"
    case PracticeGenerator => "practice_generator"
    case ChatAssistant => "chat_assistant"
  }

  /** Every role is listed once, and no two roles share a name. */
  lemma AllRolesSound()
    ensures |AllRoles| == 7
    ensures forall r: Role :: r in AllRoles
    ensures forall i, j :: 0 <= i < j < |AllRoles| ==> RoleName(AllRoles[i]) != RoleName(AllRoles[j])
  {
    forall r: Role
      ensures r in AllRoles
    {
      match r
      case CourseDesigner => assert AllRoles[0] == r;
      case ContentCreator => assert AllRoles[1] == r;
      case AssessmentCreator => assert AllRoles[2] == r;
      case CodeExpert => assert AllRoles[3] == r;
      case VisualDesigner => assert AllRoles[4] == r;
      case PracticeGenerator => assert AllRoles[5] == r;
      case ChatAssistant => assert AllRoles[6] == r;
    }
  }

  /* ---------- model parameters ---------- */

  /** Temperature in tenths (the source's 0.7 is 7). */
  datatype ModelParams = ModelParams(temperatureTenths: nat, maxTokens: nat)

  const DefaultParams := ModelParams(7, 1000)

  /** `get_model_params`: the role's own entry of `MODEL_PARAMS` if it has
      one, else the `"default"` entry; only the assessment creator has one. */
  function GetModelParams(role: Role): (p: ModelParams)
    ensures p.temperatureTenths == DefaultParams.temperatureTenths
    ensures p.maxTokens > DefaultParams.maxTokens <==> role == AssessmentCreator
    ensures role != AssessmentCreator ==> p == DefaultParams
    ensures role == AssessmentCreator ==> p == ModelParams(7, 2000)
  {
    if role == AssessmentCreator then ModelParams(7, 2000) else DefaultParams
  }

  /* ---------- validate_model_params ---------- */

  const GeminiModel := "gemini-2.0-flash"
  const GeminiUrl := "https://generativelanguage.googleapis.com/v1beta/models"

  /** The default entry returned for a falsy or non-dictionary input. */
  function DefaultEntry(apiKey: Json): map<string, Json> {
    map["model" := Str(GeminiModel), "api_key" := apiKey, "api_type" := Str("google")]
  }

  function InvalidDefault(apiKey: Json): Json {
    Obj(map["config_list" := Arr([Obj(DefaultEntry(apiKey))])])
  }

  /** `GEMINI_BASE_CONFIG`, which is also what the normaliser returns when
      an exception escapes its loop. */
  function BaseConfig(apiKey: Json): Json {
    Obj(map["config_list" := Arr([Obj(DefaultEntry(apiKey)["base_url" := Str(GeminiUrl)])])])
  }

  /** The top-level keys copied into a rebuilt entry, in the order tried. */
  const KnownKeys: seq<string> := ["model", "api_key", "api_type", "base_url"]

  /** The keys of `keys` present in `m`, with their values. */
  function Pick(m: map<string, Json>, keys: seq<string>): map<string, Json> {
    if |keys| == 0 then map[]
    else
      var b := Pick(m, keys[..|keys| - 1]);
      var k := keys[|keys| - 1];
      if k in m then b[k := m[k]] else b
  }

  /** `not params.get("config_list") or not isinstance(..., list)`. */
  predicate Rebuilds(m: map<string, Json>) {
    !Truthy(Get(m, "config_list")) || !m["config_list"].Arr?
  }

  /** The dictionary the loop runs over: a missing, empty or non-list
      `config_list` makes a fresh dictionary with one entry built from the
      known top-level keys; other top-level keys are then dropped. */
  function Reconstructed(m: map<string, Json>): (r: map<string, Json>)
    ensures "config_list" in r && r["config_list"].Arr? && r["config_list"].items != []
  {
    if Rebuilds(m) then map["config_list" := Arr([Obj(Pick(m, KnownKeys))])] else m
  }

  /** The three required fields, each set only when missing. */
  function Filled(c: map<string, Json>, apiKey: Json): map<string, Json> {
    Put(Put(Put(c, "model", Str(GeminiModel)), "api_key", apiKey), "api_type", Str("google"))
  }

  /** A Google entry without a base URL gets the v1beta one. */
  function WithBaseUrl(c: map<string, Json>): map<string, Json> {
    if Get(c, "api_type") == Str("google") && "base_url" !in c then c["base_url" := Str(GeminiUrl)] else c
  }

  /** `d.pop(k)` when `k` is present. */
  function Pop(c: map<string, Json>, k: string): map<string, Json> {
    if k in c then c - {k} else c
  }

  /** The model-specific parameters present in an entry. */
  function ModelSpecific(c: map<string, Json>): map<string, Json> {
    var t := if "temperature" in c then map["temperature" := c["temperature"]] else map[];
    if "max_tokens" in c then t["max_tokens" := c["max_tokens"]] else t
  }

  /** `temperature` and `max_tokens` are popped and, when there was at least
      one, stored under `config`, replacing whatever was there. */
  function MoveModelSpecific(c: map<string, Json>): map<string, Json> {
    var moved := ModelSpecific(c);
    var rest := Pop(Pop(c, "temperature"), "max_tokens");
    if moved == map[] then rest else rest["config" := Obj(moved)]
  }

  /** What the loop body makes of a dictionary entry. */
  function FixEntry(c: map<string, Json>, apiKey: Json): map<string, Json> {
    MoveModelSpecific(WithBaseUrl(Filled(c, apiKey)))
  }

  /** The exception a non-dictionary entry raises: the test `field not in
      config` raises TypeError on `None`, a boolean or a number; on a string
      or a list a missing field makes the assignment `config[field] = ...`
      raise TypeError, and one holding all three makes `config.get` raise
      AttributeError. */
  function EntryError(c: Json): Exception
    requires !c.Obj?
  {
    if !c.Str? && !c.Arr? then TypeError
    else if In("model", c) == Ok(true) && In("api_key", c) == Ok(true) && In("api_type", c) == Ok(true) then AttributeError
    else TypeError
  }

  function FixConfig(c: Json, apiKey: Json): Result<Json> {
    if c.Obj? then Ok(Obj(FixEntry(c.fields, apiKey))) else Raise(EntryError(c))
  }

  function ConfigStep(apiKey: Json): (Json, nat) -> Result<Json> {
    (c: Json, j: nat) => FixConfig(c, apiKey)
  }

  /** What `validate_model_params` returns: the default for a falsy or
      non-dictionary input, the base configuration when the loop raises,
      and otherwise the (possibly rebuilt) dictionary with its entries
      fixed. */
  function ValidatedParams(params: Json, apiKey: Json): (r: Json)
    ensures r.Obj? && "config_list" in r.fields && r.fields["config_list"].Arr? && r.fields["config_list"].items != []
  {
    if !Truthy(params) || !params.Obj? then InvalidDefault(apiKey)
    else
      var p := Reconstructed(params.fields);
      match MapEntries(p["config_list"].items, ConfigStep(apiKey))
      case Raise(_) => BaseConfig(apiKey)
      case Ok(entries) => Obj(p["config_list" := Arr(entries)])
  }

  /** Sets each missing required field to its default. */
  method FillRequired(entry: map<string, Json>, apiKey: Json) returns (c: map<string, Json>)
    ensures c == Filled(entry, apiKey)
  {
    c := entry;
    if "model" !in c {
      c := c["model" := Str(GeminiModel)];
    }
    assert c == Put(entry, "model", Str(GeminiModel));
    ghost var c1 := c;
    if "api_key" !in c {
      c := c["api_key" := apiKey];
    }
    assert c == Put(c1, "api_key", apiKey);
    ghost var c2 := c;
    if "api_type" !in c {
      c := c["api_type" := Str("google")];
    }
    assert c == Put(c2, "api_type", Str("google"));
  }

  /** Pops `temperature` and `max_tokens`, in that order, into a new
      dictionary stored under `config` when it is not empty. */
  method MoveParams(entry: map<string, Json>) returns (c: map<string, Json>)
    ensures c == MoveModelSpecific(entry)
  {
    c := entry;
    var moved: map<string, Json> := map[];
    if "temperature" in c {
      moved := moved["temperature" := c["temperature"]];
      c := c - {"temperature"};
    }
    assert c == Pop(entry, "temperature");
    ghost var t := c;
    if "max_tokens" in c {
      moved := moved["max_tokens" := c["max_tokens"]];
      c := c - {"max_tokens"};
    }
    assert c == Pop(t, "max_tokens");
    assert moved == ModelSpecific(entry);
    if moved != map[] {
      c := c["config" := Obj(moved)];
    }
  }

  /** The loop body on one entry of `config_list`. */
  method FixConfigEntry(config: Json, apiKey: Json) returns (r: Result<Json>)
    ensures r == FixConfig(config, apiKey)
  {
    if !config.Obj? {
      return Raise(EntryError(config));
    }
    var c := FillRequired(config.fields, apiKey);
    if Get(c, "api_type") == Str("google") && "base_url" !in c {
      c := c["base_url" := Str(GeminiUrl)];
    }
    assert c == WithBaseUrl(Filled(config.fields, apiKey));
    c := MoveParams(c);
    r := Ok(Obj(c));
  }

  /** The loop over `config_list`, fixing each entry in place and stopping
      at the first exception. */
  method FixConfigList(xs: seq<Json>, apiKey: Json) returns (r: Result<seq<Json>>)
    ensures r == MapEntries(xs, ConfigStep(apiKey))
  {
    var items := xs;
    var j := 0;
    while j < |items|
      invariant 0 <= j <= |items| == |xs|
      invariant MapEntries(xs[..j], ConfigStep(apiKey)) == Ok(items[..j])
      invariant items[j..] == xs[j..]
    {
      assert items[j] == xs[j];
      var step := FixConfigEntry(items[j], apiKey);
      assert step == ConfigStep(apiKey)(xs[j], j);
      if step.Raise? {
        MapEntriesSnoc(xs, j, ConfigStep(apiKey));
        MapEntriesPrefixRaises(xs, j + 1, ConfigStep(apiKey));
        return Raise(step.exc);
      }
      MapEntriesReplace(xs, items, j, step.value, ConfigStep(apiKey));
      items := items[j := step.value];
      j := j + 1;
    }
    assert xs[..j] == xs && items[..j] == items;
    return Ok(items);
  }

  /** `validate_model_params`. */
  method ValidateModelParams(params: Json, apiKey: Json) returns (r: Json)
    ensures r == ValidatedParams(params, apiKey)
  {
    if !Truthy(params) || !params.Obj? {
      return InvalidDefault(apiKey);
    }
    var p := params.fields;
    if !Truthy(Get(p, "config_list")) || !p["config_list"].Arr? {
      var base: map<string, Json> := map[];
      for i := 0 to |KnownKeys|
        invariant base == Pick(p, KnownKeys[..i])
      {
        assert KnownKeys[..i + 1][..i] == KnownKeys[..i];
        if KnownKeys[i] in p {
          base := base[KnownKeys[i] := p[KnownKeys[i]]];
        }
      }
      assert KnownKeys[..|KnownKeys|] == KnownKeys;
      p := map["config_list" := Arr([Obj(base)])];
    }
    var entries := FixConfigList(p["config_list"].items, apiKey);
    if entries.Raise? {
      return BaseConfig(apiKey);
    }
    r := Obj(p["config_list" := Arr(entries.value)]);
  }

  /* ---------- properties of the normaliser ---------- */

  /** Overwriting the only key of a one-key dictionary. */
  lemma ReplaceOnly(k: string, v: Json, w: Json)
    ensures map[k := v][k := w] == map[k := w]
  {
  }

  /** A rebuilt entry holds exactly the known keys present at top level,
      with their values. */
  lemma {:induction false} PickSound(m: map<string, Json>, keys: seq<string>)
    ensures forall k :: k in Pick(m, keys) <==> k in m && k in keys
    ensures forall k :: k in Pick(m, keys) ==> Pick(m, keys)[k] == m[k]
  {
    if |keys| > 0 {
      var front := keys[..|keys| - 1];
      PickSound(m, front);
      assert keys == front + [keys[|keys| - 1]];
    }
  }

  /** The base-URL step touches no other key. */
  lemma BaseUrlKeeps(c: map<string, Json>, k: string)
    requires k != "base_url"
    ensures k in WithBaseUrl(c) <==> k in c
    ensures k in c ==> WithBaseUrl(c)[k] == c[k]
  {
  }

  /** Moving the model-specific parameters touches no other key. */
  lemma MoveKeeps(c: map<string, Json>, k: string)
    requires k != "temperature" && k != "max_tokens" && k != "config"
    ensures k in MoveModelSpecific(c) <==> k in c
    ensures k in c ==> MoveModelSpecific(c)[k] == c[k]
  {
  }

  /** `temperature` and `max_tokens` leave the dictionary and reappear
      under `config` with their values; `config` is only overwritten when
      one of them was present. */
  lemma MoveModelSpecificSound(c: map<string, Json>)
    ensures var r := MoveModelSpecific(c);
            "temperature" !in r && "max_tokens" !in r
    ensures var r := MoveModelSpecific(c);
            "temperature" in c || "max_tokens" in c ==>
              "config" in r && r["config"].Obj?
              && ("temperature" in r["config"].fields <==> "temperature" in c)
              && ("max_tokens" in r["config"].fields <==> "max_tokens" in c)
              && ("temperature" in c ==> r["config"].fields["temperature"] == c["temperature"])
              && ("max_tokens" in c ==> r["config"].fields["max_tokens"] == c["max_tokens"])
    ensures var r := MoveModelSpecific(c);
            "temperature" !in c && "max_tokens" !in c ==> r == c
  {
    if "temperature" in c {
      assert "temperature" in ModelSpecific(c);
    } else if "max_tokens" in c {
      assert "max_tokens" in ModelSpecific(c);
    } else {
      assert ModelSpecific(c) == map[];
    }
  }

  /** The stages before the move: the required fields filled, then the
      base URL. */
  function Prepared(c: map<string, Json>, apiKey: Json): (w: map<string, Json>)
    ensures FixEntry(c, apiKey) == MoveModelSpecific(w)
  {
    WithBaseUrl(Filled(c, apiKey))
  }

  /** The required fields are present after the fix; a field that was
      there keeps its value and a missing one gets its default. */
  lemma FixEntryRequired(c: map<string, Json>, apiKey: Json)
    ensures var r := FixEntry(c, apiKey);
            "model" in r && "api_key" in r && "api_type" in r
            && r["model"] == GetOr(c, "model", Str(GeminiModel))
            && r["api_key"] == GetOr(c, "api_key", apiKey)
            && r["api_type"] == GetOr(c, "api_type", Str("google"))
  {
    var f1 := Put(c, "model", Str(GeminiModel));
    var f2 := Put(f1, "api_key", apiKey);
    var f := Put(f2, "api_type", Str("google"));
    assert f == Filled(c, apiKey);
    assert f["model"] == GetOr(c, "model", Str(GeminiModel));
    assert f["api_key"] == GetOr(c, "api_key", apiKey);
    assert f["api_type"] == GetOr(c, "api_type", Str("google"));
    var w := Prepared(c, apiKey);
    BaseUrlKeeps(f, "model");
    BaseUrlKeeps(f, "api_key");
    BaseUrlKeeps(f, "api_type");
    MoveKeeps(w, "model");
    MoveKeeps(w, "api_key");
    MoveKeeps(w, "api_type");
  }

  /** An entry ends up with a base URL when it had one (kept as it was) or
      when its API type is Google (then the v1beta URL). */
  lemma FixEntryBaseUrl(c: map<string, Json>, apiKey: Json)
    ensures var r := FixEntry(c, apiKey);
            ("base_url" in r <==> "base_url" in c || r["api_type"] == Str("google"))
            && ("base_url" in c ==> r["base_url"] == c["base_url"])
            && ("base_url" !in c && "base_url" in r ==> r["base_url"] == Str(GeminiUrl))
  {
    FixEntryRequired(c, apiKey);
    var f := Filled(c, apiKey);
    assert "base_url" in f <==> "base_url" in c;
    assert "base_url" in c ==> f["base_url"] == c["base_url"];
    var w := Prepared(c, apiKey);
    MoveKeeps(w, "base_url");
    MoveKeeps(w, "api_type");
    BaseUrlKeeps(f, "api_type");
  }

  /** `temperature` and `max_tokens` leave the entry and reappear under
      `config` with their values; `config` is only overwritten when one of
      them was present. */
  lemma FixEntryModelSpecific(c: map<string, Json>, apiKey: Json)
    ensures var r := FixEntry(c, apiKey);
            "temperature" !in r && "max_tokens" !in r
    ensures var r := FixEntry(c, apiKey);
            "temperature" in c || "max_tokens" in c ==>
              "config" in r && r["config"].Obj?
              && ("temperature" in r["config"].fields <==> "temperature" in c)
              && ("max_tokens" in r["config"].fields <==> "max_tokens" in c)
              && ("temperature" in c ==> r["config"].fields["temperature"] == c["temperature"])
              && ("max_tokens" in c ==> r["config"].fields["max_tokens"] == c["max_tokens"])
    ensures var r := FixEntry(c, apiKey);
            "temperature" !in c && "max_tokens" !in c ==>
              ("config" in r <==> "config" in c) && ("config" in c ==> r["config"] == c["config"])
  {
    var f := Filled(c, apiKey);
    var w := Prepared(c, apiKey);
    forall k | k == "temperature" || k == "max_tokens" || k == "config"
      ensures (k in w <==> k in c) && (k in c ==> w[k] == c[k])
    {
      assert k in f <==> k in c;
      assert k in c ==> f[k] == c[k];
      BaseUrlKeeps(f, k);
    }
    MoveModelSpecificSound(w);
  }

  /** Every other key is kept with its value. */
  lemma FixEntryKeeps(c: map<string, Json>, apiKey: Json, k: string)
    requires k in c && k != "temperature" && k != "max_tokens" && k != "config"
    ensures k in FixEntry(c, apiKey) && FixEntry(c, apiKey)[k] == c[k]
  {
    var f := Filled(c, apiKey);
    assert k in f && f[k] == c[k];
    assert k in Prepared(c, apiKey) && Prepared(c, apiKey)[k] == c[k];
    MoveKeeps(Prepared(c, apiKey), k);
  }

  /** What every entry looks like after the fix. */
  predicate FixedEntry(c: map<string, Json>) {
    "model" in c && "api_key" in c && "api_type" in c
    && "temperature" !in c && "max_tokens" !in c
    && (c["api_type"] == Str("google") ==> "base_url" in c)
  }

  predicate WellFormedEntry(e: Json) {
    e.Obj? && FixedEntry(e.fields)
  }

  /** On an entry that has the required fields and no model-specific
      parameters the fix only sets the base URL. */
  lemma FixEntryOnComplete(c: map<string, Json>, apiKey: Json)
    requires "model" in c && "api_key" in c && "api_type" in c
    requires "temperature" !in c && "max_tokens" !in c
    ensures FixEntry(c, apiKey) == WithBaseUrl(c)
  {
    assert Filled(c, apiKey) == c;
    var w := WithBaseUrl(c);
    BaseUrlKeeps(c, "temperature");
    BaseUrlKeeps(c, "max_tokens");
    MoveModelSpecificSound(w);
  }

  /** The fix leaves a well-formed entry as it is. */
  lemma FixEntryOnFixed(c: map<string, Json>, apiKey: Json)
    requires FixedEntry(c)
    ensures FixEntry(c, apiKey) == c
  {
    FixEntryOnComplete(c, apiKey);
  }

  lemma FixEntryWellFormed(c: map<string, Json>, apiKey: Json)
    ensures WellFormedEntry(Obj(FixEntry(c, apiKey)))
  {
    FixEntryRequired(c, apiKey);
    FixEntryBaseUrl(c, apiKey);
    FixEntryModelSpecific(c, apiKey);
  }

  /** Fixing an entry twice changes nothing more, so an entry the list
      holds twice (the same dictionary) comes out as if fixed once. */
  lemma FixEntryIdempotent(c: map<string, Json>, apiKey: Json)
    ensures FixEntry(FixEntry(c, apiKey), apiKey) == FixEntry(c, apiKey)
  {
    FixEntryWellFormed(c, apiKey);
    FixEntryOnFixed(FixEntry(c, apiKey), apiKey);
  }

  /** A falsy or non-dictionary input gives the default, which has no base
      URL. */
  lemma ValidatedParamsInvalid(params: Json, apiKey: Json)
    requires !Truthy(params) || !params.Obj?
    ensures ValidatedParams(params, apiKey) == InvalidDefault(apiKey)
    ensures "base_url" !in InvalidDefault(apiKey).fields["config_list"].items[0].fields
  {
  }

  /** A rebuilt configuration never raises: it is one entry, the known
      top-level keys fixed, and nothing else. */
  lemma ValidatedParamsRebuilt(params: Json, apiKey: Json)
    requires Truthy(params) && params.Obj? && Rebuilds(params.fields)
    ensures ValidatedParams(params, apiKey) == Obj(map["config_list" := Arr([Obj(FixEntry(Pick(params.fields, KnownKeys), apiKey))])])
  {
    var x := Obj(Pick(params.fields, KnownKeys));
    var p := Reconstructed(params.fields);
    assert p == map["config_list" := Arr([x])];
    MapEntriesOne(x, ConfigStep(apiKey));
    ReplaceOnly("config_list", Arr([x]), Arr([Obj(FixEntry(x.fields, apiKey))]));
  }

  /** A list of entries is fixed entry by entry when every entry is a
      dictionary; a single other entry makes the result the base
      configuration. */
  lemma ValidatedParamsList(params: Json, apiKey: Json)
    requires Truthy(params) && params.Obj? && !Rebuilds(params.fields)
    ensures var xs := params.fields["config_list"].items;
            (exists i :: 0 <= i < |xs| && !xs[i].Obj?) ==> ValidatedParams(params, apiKey) == BaseConfig(apiKey)
    ensures var xs := params.fields["config_list"].items;
            (forall i :: 0 <= i < |xs| ==> xs[i].Obj?) ==>
              var r := ValidatedParams(params, apiKey);
              r.Obj? && r.fields.Keys == params.fields.Keys
              && (forall k :: k in params.fields && k != "config_list" ==> r.fields[k] == params.fields[k])
              && r.fields["config_list"].Arr? && |r.fields["config_list"].items| == |xs|
              && forall i :: 0 <= i < |xs| ==> r.fields["config_list"].items[i] == Obj(FixEntry(xs[i].fields, apiKey))
  {
    var xs := params.fields["config_list"].items;
    MapEntriesOk(xs, ConfigStep(apiKey));
  }

  /** A non-empty dictionary comes out as a dictionary whose `config_list`
      is a non-empty list of well-formed entries. */
  lemma ValidatedParamsWellFormed(params: Json, apiKey: Json)
    requires Truthy(params) && params.Obj?
    ensures var r := ValidatedParams(params, apiKey);
            r.Obj? && "config_list" in r.fields && r.fields["config_list"].Arr?
            && r.fields["config_list"].items != []
            && forall i :: 0 <= i < |r.fields["config_list"].items| ==> WellFormedEntry(r.fields["config_list"].items[i])
  {
    var p := Reconstructed(params.fields);
    var xs := p["config_list"].items;
    MapEntriesOk(xs, ConfigStep(apiKey));
    match MapEntries(xs, ConfigStep(apiKey))
    case Raise(_) =>
      assert WellFormedEntry(BaseConfig(apiKey).fields["config_list"].items[0]);
    case Ok(entries) =>
      forall i | 0 <= i < |entries|
        ensures WellFormedEntry(entries[i])
      {
        FixEntryWellFormed(xs[i].fields, apiKey);
      }
  }

  /** A configuration that is one dictionary entry and nothing else comes
      out as that entry fixed. */
  lemma ValidatedOneEntry(e: map<string, Json>, apiKey: Json)
    ensures ValidatedParams(Obj(map["config_list" := Arr([Obj(e)])]), apiKey)
            == Obj(map["config_list" := Arr([Obj(FixEntry(e, apiKey))])])
  {
    var d := map["config_list" := Arr([Obj(e)])];
    assert Truthy(Get(d, "config_list"));
    assert Reconstructed(d) == d;
    MapEntriesOne(Obj(e), ConfigStep(apiKey));
    ReplaceOnly("config_list", Arr([Obj(e)]), Arr([Obj(FixEntry(e, apiKey))]));
  }

  /** On the base configuration the normaliser changes nothing; the agent
      configurations share its entry through a shallow copy, so the
      in-place writes leave it as it was. */
  lemma BaseConfigFixpoint(apiKey: Json)
    ensures ValidatedParams(BaseConfig(apiKey), apiKey) == BaseConfig(apiKey)
  {
    var e := DefaultEntry(apiKey)["base_url" := Str(GeminiUrl)];
    assert FixedEntry(e);
    FixEntryOnFixed(e, apiKey);
    ValidatedOneEntry(e, apiKey);
  }

  /** A second pass over fixed dictionary entries changes none of them. */
  lemma FixedEntriesStay(xs: seq<Json>, apiKey: Json)
    requires forall i :: 0 <= i < |xs| ==> xs[i].Obj?
    ensures MapEntries(xs, ConfigStep(apiKey)).Ok?
    ensures var entries := MapEntries(xs, ConfigStep(apiKey)).value;
            MapEntries(entries, ConfigStep(apiKey)) == Ok(entries)
  {
    MapEntriesOk(xs, ConfigStep(apiKey));
    var entries := MapEntries(xs, ConfigStep(apiKey)).value;
    MapEntriesOk(entries, ConfigStep(apiKey));
    var again := MapEntries(entries, ConfigStep(apiKey)).value;
    forall i | 0 <= i < |entries|
      ensures again[i] == entries[i]
    {
      FixEntryIdempotent(xs[i].fields, apiKey);
    }
    assert again == entries;
  }

  /** Normalising twice is normalising once, for a non-empty dictionary. */
  lemma ValidatedParamsIdempotent(params: Json, apiKey: Json)
    requires Truthy(params) && params.Obj?
    ensures ValidatedParams(ValidatedParams(params, apiKey), apiKey) == ValidatedParams(params, apiKey)
  {
    var p := Reconstructed(params.fields);
    var xs := p["config_list"].items;
    MapEntriesOk(xs, ConfigStep(apiKey));
    if MapEntries(xs, ConfigStep(apiKey)).Raise? {
      assert ValidatedParams(params, apiKey) == BaseConfig(apiKey);
      BaseConfigFixpoint(apiKey);
    } else {
      FixedEntriesStay(xs, apiKey);
      var entries := MapEntries(xs, ConfigStep(apiKey)).value;
      var q := p["config_list" := Arr(entries)];
      assert ValidatedParams(params, apiKey) == Obj(q);
      assert |entries| == |xs| && entries != [];
      FixedListStays(q, apiKey);
    }
  }

  /** A dictionary whose `config_list` is a non-empty list that the loop
      leaves as it is comes out unchanged. */
  lemma FixedListStays(q: map<string, Json>, apiKey: Json)
    requires "config_list" in q && q["config_list"].Arr? && q["config_list"].items != []
    requires MapEntries(q["config_list"].items, ConfigStep(apiKey)) == Ok(q["config_list"].items)
    ensures ValidatedParams(Obj(q), apiKey) == Obj(q)
  {
    var items := q["config_list"].items;
    KeptList(q);
    assert ValidatedParams(Obj(q), apiKey) == Obj(q["config_list" := Arr(items)]);
    assert q["config_list" := Arr(items)] == q;
  }

  /** A truthy list under `config_list` is not rebuilt. */
  lemma KeptList(q: map<string, Json>)
    requires "config_list" in q && q["config_list"].Arr? && q["config_list"].items != []
    ensures Truthy(Obj(q)) && Reconstructed(q) == q
  {
    assert Truthy(Get(q, "config_list"));
  }

  /** But not for `None`: the default has no base URL, and a second pass
      adds one. */
  lemma ValidatedParamsNotIdempotent(apiKey: Json)
    ensures ValidatedParams(ValidatedParams(Null, apiKey), apiKey) == BaseConfig(apiKey)
    ensures BaseConfig(apiKey) != InvalidDefault(apiKey)
  {
    var e := DefaultEntry(apiKey);
    FixEntryOnComplete(e, apiKey);
    assert WithBaseUrl(e) == e["base_url" := Str(GeminiUrl)];
    ValidatedOneEntry(e, apiKey);
    assert "base_url" in BaseConfig(apiKey).fields["config_list"].items[0].fields;
  }

  /* ---------- safe_json_parse ---------- */

  /** `re.sub(r',\s*([}\]])', r'\1', s)`: a comma followed by blanks and a
      closing bracket is dropped together with the blanks; the scan goes on
      after the bracket. */
  function DropTrailingCommas(s: string): (r: string)
    ensures |r| <= |s|
    decreases |s|
  {
    if |s| == 0 then ""
    else if s[0] == ',' then
      var j := SkipSpaces(s, 1);
      if j < |s| && (s[j] == '}' || s[j] == ']') then [s[j]] + DropTrailingCommas(s[j + 1..])
      else [','] + DropTrailingCommas(s[1..])
    else [s[0]] + DropTrailingCommas(s[1..])
  }

  /** The one repair pass: CR and LF become spaces, bare keys are quoted,
      trailing commas are dropped. */
  function Cleaned(s: string): (r: string)
    ensures '\n' !in s && '\r' !in s && ':' !in s ==> r == DropTrailingCommas(s)
  {
    if '\n' !in s && '\r' !in s && ':' !in s then
      assert ReplaceChar(s, '\n', ' ') == s;
      assert ReplaceChar(s, '\r', ' ') == s;
      QuoteKeysNoColon(s);
      DropTrailingCommas(QuoteKeys(ReplaceChar(ReplaceChar(s, '\n', ' '), '\r', ' ')))
    else DropTrailingCommas(QuoteKeys(ReplaceChar(ReplaceChar(s, '\n', ' '), '\r', ' ')))
  }

  /** `safe_json_parse`: the default for empty or non-string input, the
      direct parse when there is one, else the parse of the repaired text,
      else the default. */
  function SafeJsonParse(parse: Parser, text: Json, default: Json): (r: Json)
    ensures !Truthy(text) || !text.Str? ==> r == default
    ensures text.Str? && text.s != [] && parse(text.s).Some? ==> r == parse(text.s).value
    ensures r == default || (text.Str? && (parse(text.s) == Some(r) || parse(Cleaned(text.s)) == Some(r)))
    ensures text.Str? && text.s != [] && parse(text.s).None? ==> r == parse(Cleaned(text.s)).GetOr(default)
  {
    if !Truthy(text) || !text.Str? then default
    else
      match parse(text.s)
      case Some(v) => v
      case None =>
        match parse(Cleaned(text.s))
        case Some(v) => v
        case None => default
  }

  /** The repair pass is reached: a list with a trailing comma, which a
      strict parser rejects, is read as the list without it. */
  lemma SafeJsonParseRepairs(parse: Parser, v: Json, default: Json)
    requires parse("[1, ]").None? && parse("[1]") == Some(v)
    ensures SafeJsonParse(parse, Str("[1, ]"), default) == v
  {
    assert '\n' !in "[1, ]" && '\r' !in "[1, ]" && ':' !in "[1, ]";
    DropTrailingCommasExamples();
  }

  /** The characters other than commas and blanks. */
  function Significant(s: string): string {
    if |s| == 0 then ""
    else (if s[0] == ',' || IsSpace(s[0]) then "" else [s[0]]) + Significant(s[1..])
  }

  /** Skipping a run of commas and blanks loses nothing significant. */
  lemma {:induction false} SignificantSkip(s: string, k: nat, j: nat)
    requires k <= j <= |s|
    requires forall i :: k <= i < j ==> s[i] == ',' || IsSpace(s[i])
    ensures Significant(s[k..]) == Significant(s[j..])
    decreases j - k
  {
    if k < j {
      assert s[k..][1..] == s[k + 1..];
      SignificantSkip(s, k + 1, j);
    }
  }

  /** The repair only removes commas and blanks: everything else is kept,
      in order. */
  lemma {:induction false} DropTrailingCommasSignificant(s: string)
    ensures Significant(DropTrailingCommas(s)) == Significant(s)
    decreases |s|
  {
    if |s| > 0 {
      if s[0] == ',' {
        var j := SkipSpaces(s, 1);
        if j < |s| && (s[j] == '}' || s[j] == ']') {
          var rest := DropTrailingCommas(s[j + 1..]);
          DropTrailingCommasSignificant(s[j + 1..]);
          assert ([s[j]] + rest)[1..] == rest;
          SignificantSkip(s, 0, j);
          assert s[0..] == s;
          assert s[j..][1..] == s[j + 1..];
        } else {
          DropTrailingCommasSignificant(s[1..]);
          assert ([','] + DropTrailingCommas(s[1..]))[1..] == DropTrailingCommas(s[1..]);
        }
      } else {
        DropTrailingCommasSignificant(s[1..]);
        assert ([s[0]] + DropTrailingCommas(s[1..]))[1..] == DropTrailingCommas(s[1..]);
      }
    }
  }

  /** Text without commas is left as it is. */
  lemma {:induction false} DropTrailingCommasNoComma(s: string)
    requires ',' !in s
    ensures DropTrailingCommas(s) == s
    decreases |s|
  {
    if |s| > 0 {
      assert ',' !in s[1..];
      DropTrailingCommasNoComma(s[1..]);
    }
  }

  /** The repair writes no character that was not in its input. */
  lemma {:induction false} DropTrailingCommasAdds(s: string, c: char)
    requires c !in s
    ensures c !in DropTrailingCommas(s)
    decreases |s|
  {
    if |s| > 0 {
      if s[0] == ',' {
        var j := SkipSpaces(s, 1);
        if j < |s| && (s[j] == '}' || s[j] == ']') {
          assert c !in s[j + 1..];
          DropTrailingCommasAdds(s[j + 1..], c);
        } else {
          assert c !in s[1..];
          DropTrailingCommasAdds(s[1..], c);
        }
      } else {
        assert c !in s[1..];
        DropTrailingCommasAdds(s[1..], c);
      }
    }
  }

  /** Quoting keys writes no character other than a double quote that was
      not in its input. */
  lemma {:induction false} QuoteKeysAdds(s: string, c: char)
    requires c !in s && c != '"'
    ensures c !in QuoteKeys(s)
    decreases |s|
  {
    if |s| > 0 {
      if IsWordChar(s[0]) {
        var n := WordEnd(s, 0);
        if n < |s| && s[n] == ':' {
          assert c !in s[n + 1..] && c !in s[..n];
          QuoteKeysAdds(s[n + 1..], c);
        } else {
          assert c !in s[n..] && c !in s[..n];
          QuoteKeysAdds(s[n..], c);
        }
      } else {
        assert c !in s[1..];
        QuoteKeysAdds(s[1..], c);
      }
    }
  }

  /** The repaired text holds no line break. */
  lemma CleanedHasNoLineBreaks(s: string)
    ensures '\n' !in Cleaned(s) && '\r' !in Cleaned(s)
  {
    var t := ReplaceChar(ReplaceChar(s, '\n', ' '), '\r', ' ');
    assert '\n' !in t && '\r' !in t;
    QuoteKeysAdds(t, '\n');
    QuoteKeysAdds(t, '\r');
    DropTrailingCommasAdds(QuoteKeys(t), '\n');
    DropTrailingCommasAdds(QuoteKeys(t), '\r');
  }

  /** A single trailing comma goes; of two commas before a bracket only the
      second one does, since the scan does not look back. */
  lemma DropTrailingCommasExamples()
    ensures DropTrailingCommas("[1, ]") == "[1]"
    ensures DropTrailingCommas(",,}") == ",}"
  {
    assert SkipSpaces("[1, ]"[2..], 1) == 2;
    assert DropTrailingCommas("}") == "}";
    assert SkipSpaces(",,}", 1) == 1;
    assert ",,}"[1..] == ",}";
    assert SkipSpaces(",}", 1) == 1;
  }

  /* ---------- create_agent_config_list ---------- */

  /** A requested role: a member of the enum, or any other value, which is
      not a key of the agent table. */
  datatype RoleArg = Member(role: Role) | NotARole

  /** The configuration `get_agent_config` builds for a role: its name, its
      system message and the base LLM configuration. */
  function AgentEntry(role: Role, apiKey: Json, messages: Role -> string): map<string, Json> {
    map["name" := Str(RoleName(role)), "system_message" := Str(messages(role)), "llm_config" := BaseConfig(apiKey)]
  }

  /** `get_agent_config`: KeyError for a value that is not in the table. */
  function GetAgentConfig(arg: RoleArg, apiKey: Json, messages: Role -> string): Result<map<string, Json>> {
    match arg
    case Member(r) => Ok(AgentEntry(r, apiKey, messages))
    case NotARole => Raise(KeyError)
  }

  /** What one pass of the loop appends: the configuration with its
      `llm_config` validated, or nothing when the role raised. */
  function RoleConfig(arg: RoleArg, apiKey: Json, messages: Role -> string): seq<Json> {
    match GetAgentConfig(arg, apiKey, messages)
    case Raise(_) => []
    case Ok(c) =>
      [Obj(if "llm_config" in c then c["llm_config" := ValidatedParams(c["llm_config"], apiKey)] else c)]
  }

  function Configs(args: seq<RoleArg>, apiKey: Json, messages: Role -> string): seq<Json> {
    if |args| == 0 then []
    else Configs(args[..|args| - 1], apiKey, messages) + RoleConfig(args[|args| - 1], apiKey, messages)
  }

  /** `roles`, or every role in declaration order when it is `None`. */
  function RequestedRoles(roles: Option<seq<RoleArg>>): seq<RoleArg> {
    match roles
    case None => seq(|AllRoles|, i requires 0 <= i < |AllRoles| => Member(AllRoles[i]))
    case Some(rs) => rs
  }

  function AgentConfigList(roles: Option<seq<RoleArg>>, apiKey: Json, messages: Role -> string): (r: Result<seq<Json>>)
    ensures r.Raise? ==> r.exc == ValueError
    ensures r.Ok? ==> r.value != []
  {
    var cs := Configs(RequestedRoles(roles), apiKey, messages);
    if cs == [] then Raise(ValueError) else Ok(cs)
  }

  /** `create_agent_config_list`. */
  method CreateAgentConfigList(roles: Option<seq<RoleArg>>, apiKey: Json, messages: Role -> string)
    returns (r: Result<seq<Json>>)
    ensures r == AgentConfigList(roles, apiKey, messages)
  {
    var rs := RequestedRoles(roles);
    var configs: seq<Json> := [];
    for i := 0 to |rs|
      invariant configs == Configs(rs[..i], apiKey, messages)
    {
      assert rs[..i + 1][..i] == rs[..i];
      var got := GetAgentConfig(rs[i], apiKey, messages);
      if got.Ok? {
        var config := got.value;
        if "llm_config" in config {
          var validated := ValidateModelParams(config["llm_config"], apiKey);
          config := config["llm_config" := validated];
        }
        configs := configs + [Obj(config)];
      }
    }
    assert rs[..|rs|] == rs;
    if configs == [] {
      return Raise(ValueError);
    }
    return Ok(configs);
  }

  /** The roles among the requested values, in the order requested. */
  function Roles(args: seq<RoleArg>): (rs: seq<Role>)
    ensures |rs| <= |args|
  {
    if |args| == 0 then []
    else Roles(args[..|args| - 1]) + (if args[|args| - 1].Member? then [args[|args| - 1].role] else [])
  }

  /** A role is kept exactly when it was requested. */
  lemma {:induction false} RolesSound(args: seq<RoleArg>)
    ensures forall r :: r in Roles(args) <==> Member(r) in args
  {
    if |args| > 0 {
      var front := args[..|args| - 1];
      RolesSound(front);
      assert args == front + [args[|args| - 1]];
    }
  }

  /** Validating leaves an agent's configuration as it was built, because
      the base configuration is a fixed point. */
  lemma RoleConfigMember(r: Role, apiKey: Json, messages: Role -> string)
    ensures RoleConfig(Member(r), apiKey, messages) == [Obj(AgentEntry(r, apiKey, messages))]
  {
    BaseConfigFixpoint(apiKey);
    var c := AgentEntry(r, apiKey, messages);
    assert c["llm_config" := BaseConfig(apiKey)] == c;
  }

  /** One configuration per requested role, in the order requested, each
      with the role's name and the base configuration; other values are
      skipped. */
  lemma {:induction false} ConfigsSound(args: seq<RoleArg>, apiKey: Json, messages: Role -> string)
    ensures |Configs(args, apiKey, messages)| == |Roles(args)|
    ensures forall i :: 0 <= i < |Roles(args)| ==>
              Configs(args, apiKey, messages)[i] == Obj(AgentEntry(Roles(args)[i], apiKey, messages))
  {
    if |args| > 0 {
      var front := args[..|args| - 1];
      var last := args[|args| - 1];
      ConfigsSound(front, apiKey, messages);
      if last.Member? {
        RoleConfigMember(last.role, apiKey, messages);
      }
    }
  }

  /** ValueError exactly when no requested value is a role; otherwise the
      configurations of the requested roles in order. */
  lemma AgentConfigListSound(roles: Option<seq<RoleArg>>, apiKey: Json, messages: Role -> string)
    ensures var r := AgentConfigList(roles, apiKey, messages);
            r.Raise? <==> forall a :: a in RequestedRoles(roles) ==> a == NotARole
    ensures var r := AgentConfigList(roles, apiKey, messages);
            r.Raise? ==> r.exc == ValueError
    ensures var r := AgentConfigList(roles, apiKey, messages);
            var rs := Roles(RequestedRoles(roles));
            r.Ok? ==> |r.value| == |rs| && forall i :: 0 <= i < |rs| ==> r.value[i] == Obj(AgentEntry(rs[i], apiKey, messages))
  {
    var args := RequestedRoles(roles);
    ConfigsSound(args, apiKey, messages);
    RolesSound(args);
    if Roles(args) != [] {
      assert Roles(args)[0] in Roles(args);
    }
  }

  /** Without a list every agent is configured, in declaration order; the
      seven names differ. */
  lemma AllAgentsConfigured(apiKey: Json, messages: Role -> string)
    ensures var r := AgentConfigList(None, apiKey, messages);
            r.Ok? && |r.value| == |AllRoles|
            && forall i :: 0 <= i < |AllRoles| ==> r.value[i] == Obj(AgentEntry(AllRoles[i], apiKey, messages))
    ensures forall i, j :: 0 <= i < j < |AllRoles| ==> RoleName(AllRoles[i]) != RoleName(AllRoles[j])
  {
    var args := RequestedRoles(None);
    assert Roles(args) == AllRoles by {
      RolesPrefix(AllRoles, |AllRoles|);
      assert AllRoles[..|AllRoles|] == AllRoles;
    }
    AgentConfigListSound(None, apiKey, messages);
    AllRolesSound();
  }

  /** The roles of the members of a prefix of a list of roles are that
      prefix. */
  lemma {:induction false} RolesPrefix(rs: seq<Role>, n: nat)
    requires n <= |rs|
    ensures Roles(seq(n, i requires 0 <= i < n => Member(rs[i]))) == rs[..n]
  {
    if n > 0 {
      var args := seq(n, i requires 0 <= i < n => Member(rs[i]));
      var front := seq(n - 1, i requires 0 <= i < n - 1 => Member(rs[i]));
      assert args[..n - 1] == front;
      RolesPrefix(rs, n - 1);
      assert rs[..n] == rs[..n - 1] + [rs[n - 1]];
    }
  }
}
