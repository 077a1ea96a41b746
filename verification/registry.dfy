/**
 * The tool registry: a fixed catalogue of sixteen tools, plan-tier gating, the tools'
 * implementations (deterministic mock data, or a live provider whose answer is an input),
 * and the gated entry point that fills in cost and time and keeps an execution history.
 */
module Registry {
  import opened Wrappers
  import opened Text
  import opened Values

  // ---------------- plan tiers ----------------

  /** `PLAN_RANK`: free < premium < enterprise. */
  const PLAN_RANK: map<string, nat> := map["free" := 0, "premium" := 1, "enterprise" := 2]

  /** `PLAN_RANK.get(plan, 0)`: a plan name that is not listed ranks like "free". */
  function PlanRank(plan: string): (r: nat)
    ensures r <= 2
    ensures plan !in PLAN_RANK ==> r == 0
  {
    if plan in PLAN_RANK then PLAN_RANK[plan] else 0
  }

  /** `plan_allows(user_plan, required_plan)`. */
  predicate PlanAllows(userPlan: string, requiredPlan: string)
  {
    PlanRank(userPlan) >= PlanRank(requiredPlan)
  }

  /** A tool allowed for one plan is allowed for every plan ranked at least as high. */
  lemma PlanAllowsMonotone(lower: string, higher: string, required: string)
    requires PlanRank(lower) <= PlanRank(higher)
    requires PlanAllows(lower, required)
    ensures PlanAllows(higher, required)
  {
  }

  /** The three tiers are strictly ordered, and every unknown plan name ranks with "free". */
  lemma PlanOrder(unknown: string)
    requires unknown !in {"free", "premium", "enterprise"}
    ensures PlanRank("free") < PlanRank("premium") < PlanRank("enterprise")
    ensures PlanRank(unknown) == PlanRank("free")
    ensures PlanAllows("enterprise", unknown) && PlanAllows(unknown, "free")
    ensures !PlanAllows(unknown, "premium") && !PlanAllows("premium", "enterprise")
  {
  }

  // ---------------- the catalogue ----------------

  datatype Category = Core | Conditional | Advanced

  /** A tool's registration record (`ToolConfig` without its implementation). */
  datatype ToolConfig = ToolConfig(
    name: string,
    category: Category,
    costUsd: real,
    avgLatencyMs: nat,
    requiresConfirmation: bool,
    planRequired: string)

  datatype ToolId =
    | WebSearch | ImageGeneration | DataAnalysis | Translation
    | CodeExecution | FileProcessing | VoiceProcessing | Automation
    | VideoGeneration | AdvancedAnalytics | ApiIntegration | DatabaseQuery
    | EmailSending | CalendarManagement | SocialMedia | Ecommerce

  /** The tools in registration order. */
  const TOOLS: seq<ToolId> := [
    WebSearch, ImageGeneration, DataAnalysis, Translation,
    CodeExecution, FileProcessing, VoiceProcessing, Automation,
    VideoGeneration, AdvancedAnalytics, ApiIntegration, DatabaseQuery,
    EmailSending, CalendarManagement, SocialMedia, Ecommerce]

  /** Each tool's registration record, with the defaults `requires_confirmation=False` and `plan_required="free"`. */
  function Config(t: ToolId): ToolConfig
  {
    match t
    case WebSearch => ToolConfig("web_search", Core, 0.005, 1500, false, "free")
    case ImageGeneration => ToolConfig("image_generation", Core, 0.02, 3000, false, "free")
    case DataAnalysis => ToolConfig("data_analysis", Core, 0.001, 800, false, "free")
    case Translation => ToolConfig("translation", Core, 0.001, 500, false, "free")
    case CodeExecution => ToolConfig("code_execution", Conditional, 0.003, 2000, true, "free")
    case FileProcessing => ToolConfig("file_processing", Conditional, 0.002, 1200, false, "free")
    case VoiceProcessing => ToolConfig("voice_processing", Conditional, 0.01, 2500, false, "free")
    case Automation => ToolConfig("automation", Conditional, 0.05, 5000, false, "premium")
    case VideoGeneration => ToolConfig("video_generation", Advanced, 0.15, 10000, false, "enterprise")
    case AdvancedAnalytics => ToolConfig("advanced_analytics", Advanced, 0.08, 3000, false, "premium")
    case ApiIntegration => ToolConfig("api_integration", Advanced, 0.04, 2000, false, "premium")
    case DatabaseQuery => ToolConfig("database_query", Advanced, 0.006, 1500, false, "premium")
    case EmailSending => ToolConfig("email_sending", Conditional, 0.003, 1000, false, "free")
    case CalendarManagement => ToolConfig("calendar_management", Conditional, 0.004, 1200, false, "free")
    case SocialMedia => ToolConfig("social_media", Advanced, 0.07, 2500, false, "premium")
    case Ecommerce => ToolConfig("ecommerce", Advanced, 0.1, 4000, false, "enterprise")
  }

  /** Where each tool sits in the registration order. */
  function Position(t: ToolId): (i: nat)
    ensures i < |TOOLS| && TOOLS[i] == t
  {
    match t
    case WebSearch => 0
    case ImageGeneration => 1
    case DataAnalysis => 2
    case Translation => 3
    case CodeExecution => 4
    case FileProcessing => 5
    case VoiceProcessing => 6
    case Automation => 7
    case VideoGeneration => 8
    case AdvancedAnalytics => 9
    case ApiIntegration => 10
    case DatabaseQuery => 11
    case EmailSending => 12
    case CalendarManagement => 13
    case SocialMedia => 14
    case Ecommerce => 15
  }

  /** `self.tools.get(name)`: the registered tool with that name, if any. */
  function ToolNamed(name: string): (r: Option<ToolId>)
    ensures r.Some? ==> Config(r.value).name == name
  {
    FindIn(TOOLS, name)
  }

  function FindIn(ts: seq<ToolId>, name: string): (r: Option<ToolId>)
    ensures r.Some? ==> r.value in ts && Config(r.value).name == name
    ensures r.None? ==> forall t :: t in ts ==> Config(t).name != name
  {
    if ts == [] then None
    else if Config(ts[0]).name == name then Some(ts[0])
    else FindIn(ts[1..], name)
  }

  /** The registered names are pairwise different: the sixteen tools make sixteen dict entries. */
  lemma NamesDistinct()
    ensures |TOOLS| == 16
    ensures forall i, j :: 0 <= i < j < |TOOLS| ==> Config(TOOLS[i]).name != Config(TOOLS[j]).name
  {
  }

  /** A name is looked up successfully exactly when some tool is registered under it, and then that tool is found. */
  lemma ToolNamedExact(name: string)
    ensures ToolNamed(name).None? <==> forall t :: Config(t).name != name
  {
    if ToolNamed(name).None? {
      forall t ensures Config(t).name != name {
        assert TOOLS[Position(t)] == t;
      }
    }
  }

  /** Every tool is found under its own name. */
  lemma ToolNamedInverse(t: ToolId)
    ensures ToolNamed(Config(t).name) == Some(t)
  {
    NamesDistinct();
    FindInUnique(TOOLS, Position(t));
  }

  /** In a list with pairwise different names, the search finds each member under its name. */
  lemma {:induction false} FindInUnique(ts: seq<ToolId>, k: nat)
    requires k < |ts|
    requires forall i, j :: 0 <= i < j < |ts| ==> Config(ts[i]).name != Config(ts[j]).name
    ensures FindIn(ts, Config(ts[k]).name) == Some(ts[k])
  {
    if k > 0 {
      assert Config(ts[0]).name != Config(ts[k]).name;
      assert ts[1..][k - 1] == ts[k];
      FindInUnique(ts[1..], k - 1);
    }
  }

  /** Only `code_execution` requires confirmation, and every listed cost is positive. */
  lemma CatalogueFlags(t: ToolId)
    ensures Config(t).requiresConfirmation <==> t == CodeExecution
    ensures Config(t).costUsd > 0.0
    ensures Config(t).planRequired in PLAN_RANK
  {
  }

  /** `list_tools()`: every descriptor exactly once, in registration order. */
  function ListTools(): (r: seq<ToolConfig>)
    ensures |r| == |TOOLS|
    ensures forall i :: 0 <= i < |r| ==> r[i] == Config(TOOLS[i])
    ensures forall t :: r[Position(t)] == Config(t)
    ensures forall i, j :: 0 <= i < j < |r| ==> r[i].name != r[j].name
  {
    NamesDistinct();
    seq(|TOOLS|, i requires 0 <= i < |TOOLS| => Config(TOOLS[i]))
  }

  // ---------------- results ----------------

  /** `ToolResult`; an unset time or cost is 0. */
  datatype ToolResult = ToolResult(
    success: bool,
    data: Option<Json>,
    error: Option<string>,
    executionTimeMs: nat,
    costIncurred: real)

  function Succeeded(data: Json, ms: nat, cost: real): ToolResult
  {
    ToolResult(true, Some(data), None, ms, cost)
  }

  function Failed(error: string, ms: nat, cost: real): ToolResult
  {
    ToolResult(false, None, Some(error), ms, cost)
  }

  // ---------------- configuration and external inputs ----------------

  /** The settings the registry and the orchestrator read. A key that is `None` or `""` is unset. */
  datatype Settings = Settings(
    toolMode: string,
    serpapiKey: Option<string>,
    replicateApiToken: Option<string>,
    replicateModel: Option<string>,
    libretranslateUrl: Option<string>,
    llmProvider: string,
    openaiApiKey: Option<string>)

  predicate IsSet(o: Option<string>)
  {
    o.Some? && o.value != ""
  }

  /** Everything a tool implementation reads besides its arguments. */
  datatype ToolEnv = ToolEnv(settings: Settings, fmt: Formats)

  /** What a live provider answered: a payload, or a failure with its text. */
  datatype LiveResponse = LiveOk(payload: Json) | LiveFail(reason: string)

  /**
   * The outside world during one call: the provider's answer (used only on a live path),
   * the time the implementation measures itself, and the time `execute_tool` measures.
   */
  datatype CallExternals = CallExternals(live: LiveResponse, implMs: nat, outerMs: nat)

  // ---------------- binding keyword arguments ----------------

  /** One parameter of an implementation: its name and, if it has one, its default. */
  datatype Param = Param(name: string, default: Option<Json>)

  /** The qualified name Python prints in a `TypeError` about the call. */
  function QualName(t: ToolId): string
  {
    "ToolManager." + match t
      case WebSearch => "_web_search"
      case ImageGeneration => "_generate_image"
      case DataAnalysis => "_analyze_data"
      case Translation => "_translate"
      case CodeExecution => "_execute_code"
      case FileProcessing => "_process_file"
      case VoiceProcessing => "_process_voice"
      case Automation => "_automate"
      case VideoGeneration => "_generate_video"
      case AdvancedAnalytics => "_advanced_analytics"
      case ApiIntegration => "_api_call"
      case DatabaseQuery => "_query_db"
      case EmailSending => "_send_email"
      case CalendarManagement => "_manage_calendar"
      case SocialMedia => "_post_social"
      case Ecommerce => "_ecommerce_task"
  }

  function Required(name: string): Param { Param(name, None) }

  /** The keyword parameters of each implementation, after `self`. */
  function Signature(t: ToolId): seq<Param>
  {
    match t
    case WebSearch => [Required("query"), Param("num_results", Some(JNum(5)))]
    case ImageGeneration => [Required("prompt")]
    case DataAnalysis => [Required("data")]
    case Translation => [Required("text"), Param("target_lang", Some(JStr("en")))]
    case CodeExecution => [Required("code")]
    case FileProcessing => [Required("file_data")]
    case VoiceProcessing => [Required("audio")]
    case Automation => [Required("workflow")]
    case VideoGeneration => [Required("prompt")]
    case AdvancedAnalytics => [Required("query")]
    case ApiIntegration => [Required("endpoint"), Param("method", Some(JStr("GET"))), Param("payload", Some(JNull))]
    case DatabaseQuery => [Required("sql")]
    case EmailSending => [Required("to"), Required("subject"), Param("body", Some(JStr("")))]
    case CalendarManagement => [Required("event")]
    case SocialMedia => [Required("platform"), Required("content")]
    case Ecommerce => [Required("action"), Required("product")]
  }

  function ParamNames(sig: seq<Param>): (ns: seq<string>)
    ensures |ns| == |sig| && forall i :: 0 <= i < |sig| ==> ns[i] == sig[i].name
  {
    if sig == [] then [] else [sig[0].name] + ParamNames(sig[1..])
  }

  /** The first keyword, in the order given, that Python rejects: `self`, or a name with no parameter. */
  function BadKeyword(qual: string, sig: seq<Param>, keys: seq<string>): Option<string>
  {
    if keys == [] then None
    else if keys[0] == "self" then Some(qual + "() got multiple values for argument 'self'")
    else if keys[0] !in ParamNames(sig) then Some(qual + "() got an unexpected keyword argument '" + keys[0] + "'")
    else BadKeyword(qual, sig, keys[1..])
  }

  /** The required parameters that no keyword supplies, in signature order. */
  function Missing(sig: seq<Param>, keys: seq<string>): (ms: seq<string>)
    ensures forall m :: m in ms ==> m !in keys
  {
    if sig == [] then []
    else (if sig[0].default.None? && sig[0].name !in keys then [sig[0].name] else []) + Missing(sig[1..], keys)
  }

  /** How Python lists missing names: `'a'`, `'a' and 'b'`, `'a', 'b', and 'c'`. */
  function QuoteNames(ns: seq<string>): string
  {
    if |ns| == 0 then ""
    else if |ns| == 1 then "'" + ns[0] + "'"
    else if |ns| == 2 then "'" + ns[0] + "' and '" + ns[1] + "'"
    else "'" + ns[0] + "', " + QuoteNames(ns[1..])
  }

  /** The value each parameter receives: the keyword's value, or the parameter's default. */
  function BoundValues(sig: seq<Param>, params: Fields): (args: Fields)
    requires forall p :: p in sig && p.default.None? ==> p.name in Keys(params)
    ensures Keys(args) == ParamNames(sig)
  {
    if sig == [] then []
    else
      var v := match Get(params, sig[0].name)
        case Some(v) => v
        case None => sig[0].default.value;
      [(sig[0].name, v)] + BoundValues(sig[1..], params)
  }

  /**
   * `tool.implementation(**params)` as far as argument binding goes: a `TypeError` for `self`,
   * an unknown keyword or a missing required argument; otherwise one value per parameter.
   */
  function Bind(t: ToolId, params: Fields): (r: Outcome<Fields>)
    ensures r.Returned? ==> Keys(r.value) == ParamNames(Signature(t))
    ensures r.Returned? <==> (forall k :: k in Keys(params) ==> k != "self" && k in ParamNames(Signature(t)))
                             && (forall p :: p in Signature(t) && p.default.None? ==> p.name in Keys(params))
  {
    var sig, keys := Signature(t), Keys(params);
    match BadKeyword(QualName(t), sig, keys)
    case Some(msg) =>
      BadKeywordFound(QualName(t), sig, keys);
      Raised(msg)
    case None =>
      BadKeywordFound(QualName(t), sig, keys);
      var missing := Missing(sig, keys);
      MissingComplete(sig, keys);
      if missing != [] then
        Raised(QualName(t) + "() missing " + IntToString(|missing|) + " required positional argument"
               + (if |missing| == 1 then "" else "s") + ": " + QuoteNames(missing))
      else
        Returned(BoundValues(sig, params))
  }

  lemma {:induction false} BadKeywordFound(qual: string, sig: seq<Param>, keys: seq<string>)
    ensures BadKeyword(qual, sig, keys).None? <==> forall k :: k in keys ==> k != "self" && k in ParamNames(sig)
  {
    if keys != [] {
      BadKeywordFound(qual, sig, keys[1..]);
      assert keys[0] in keys;
      assert forall k :: k in keys[1..] ==> k in keys;
      assert forall k :: k in keys ==> k == keys[0] || k in keys[1..];
    }
  }

  lemma {:induction false} MissingComplete(sig: seq<Param>, keys: seq<string>)
    ensures Missing(sig, keys) == [] <==> forall p :: p in sig && p.default.None? ==> p.name in keys
  {
    if sig != [] {
      MissingComplete(sig[1..], keys);
      assert forall p :: p in sig <==> p == sig[0] || p in sig[1..];
    }
  }

  /** The value bound to a parameter (binding has already put every parameter in `args`). */
  function Arg(args: Fields, name: string): Json
  {
    GetOr(args, name, JNull)
  }

  // ---------------- implementations ----------------

  /** A live provider's answer: full cost on success, half cost and the failure text otherwise. */
  function LiveResult(t: ToolId, what: string, live: LiveResponse, ms: nat): (r: ToolResult)
    ensures r.success <==> live.LiveOk?
    ensures r.costIncurred == if live.LiveOk? then Config(t).costUsd else Config(t).costUsd / 2.0
  {
    match live
    case LiveOk(payload) => Succeeded(payload, ms, Config(t).costUsd)
    case LiveFail(reason) => Failed(what + " failed: " + reason, ms, Config(t).costUsd / 2.0)
  }

  /** The two canned search hits of the mock search. */
  function MockHits(): seq<Json>
  {
    [JObj([("title", JStr("نتيجة 1")), ("link", JStr("https://example.com/1")), ("snippet", JStr("..."))]),
     JObj([("title", JStr("نتيجة 2")), ("link", JStr("https://example.com/2")), ("snippet", JStr("..."))])]
  }

  /** `[...][:n]` on the mock hits: an int or bool bound slices, `None` keeps all, anything else raises. */
  function MockHitsUpTo(n: Json): (r: Outcome<seq<Json>>)
    ensures n.JNum? && n.n >= 0 ==> r == Returned(MockHits()[..Min(2, n.n)])
    ensures n.JNull? ==> r == Returned(MockHits())
    ensures r.Raised? <==> !(n.JNum? || n.JBool? || n.JNull?)
  {
    match n
    case JNum(k) => Returned(Prefix(MockHits(), k))
    case JBool(b) => Returned(Prefix(MockHits(), if b then 1 else 0))
    case JNull => Returned(MockHits())
    case _ => Raised("slice indices must be integers or None or have an __index__ method")
  }

  function Mock(fields: Fields): Json
  {
    JObj([("provider", JStr("mock"))] + fields)
  }

  function Local(fields: Fields): Json
  {
    JObj([("provider", JStr("local"))] + fields)
  }

  /** The body of each implementation once its arguments are bound. */
  function Run(t: ToolId, args: Fields, env: ToolEnv, live: LiveResponse, ms: nat): Outcome<ToolResult>
  {
    var s, cost := env.settings, Config(t).costUsd;
    match t
    case WebSearch =>
      if s.toolMode == "live" && IsSet(s.serpapiKey) then
        Returned(LiveResult(t, "web_search live", live, ms))
      else (
        match MockHitsUpTo(Arg(args, "num_results"))
        case Raised(e) => Raised(e)
        case Returned(hits) =>
          Returned(Succeeded(Mock([("query", Arg(args, "query")), ("results", JList(hits))]), ms, cost)))
    case ImageGeneration =>
      if s.toolMode == "live" && IsSet(s.replicateApiToken) && IsSet(s.replicateModel) then
        Returned(LiveResult(t, "image_generation live", live, ms))
      else
        Returned(Succeeded(Mock([("image_url", JStr("https://example.com/image.jpg")), ("prompt", Arg(args, "prompt"))]), ms, cost))
    case DataAnalysis =>
      var data := Arg(args, "data");
      var summary := if data.JObj? then
          JObj([("keys", JList(StrList(Prefix(Keys(data.fields), 50)))), ("approx_chars", JNum(|env.fmt.repr(data)|))])
        else
          JObj([("type", JStr("<class '" + TypeName(data) + "'>"))]);
      Returned(Succeeded(Local([("analysis", summary)]), ms, cost))
    case Translation =>
      if s.toolMode == "live" && IsSet(s.libretranslateUrl) then
        Returned(LiveResult(t, "translation live", live, ms))
      else
        var target := Arg(args, "target_lang");
        Returned(Succeeded(Mock([("translated_text", JStr(MockTranslation(target, Arg(args, "text"), env.fmt))),
                                 ("target", target)]), ms, cost))
    case CodeExecution =>
      Returned(Failed("code_execution disabled by default. Configure a sandbox runner to enable.", ms, cost / 2.0))
    case FileProcessing => (
      match Len(Arg(args, "file_data"))
      case Raised(e) => Raised(e)
      case Returned(n) => Returned(Succeeded(Local([("processed", JBool(true)), ("bytes", JNum(n))]), ms, cost)))
    case VoiceProcessing =>
      Returned(Failed("voice_processing requires STT provider. Configure integration to enable.", ms, cost / 2.0))
    case Automation =>
      var workflow := Arg(args, "workflow");
      var steps := if workflow.JObj? then GetOr(workflow.fields, "steps", JList([])) else JList([]);
      (match Len(steps)
       case Raised(e) => Raised(e)
       case Returned(n) =>
         Returned(Succeeded(Local([("completed_steps", JNum(n)), ("workflow", workflow)]), ms, cost)))
    case VideoGeneration =>
      Returned(Failed("video_generation requires an enterprise provider (e.g., Runway).", ms, cost / 2.0))
    case AdvancedAnalytics =>
      Returned(Succeeded(Mock([("insights", JList([JStr("رؤية 1"), JStr("رؤية 2")])), ("query", Arg(args, "query"))]), ms, cost))
    case ApiIntegration =>
      if s.toolMode == "live" then
        Returned(LiveResult(t, "api_integration", live, ms))
      else
        Returned(Succeeded(Mock([("status", JNum(200)), ("endpoint", Arg(args, "endpoint")), ("method", Arg(args, "method"))]), ms, cost))
    case DatabaseQuery =>
      Returned(Succeeded(Mock([("rows", JList([])), ("sql", Arg(args, "sql"))]), ms, cost))
    case EmailSending =>
      Returned(Succeeded(Mock([("sent", JBool(true)), ("to", Arg(args, "to")), ("subject", Arg(args, "subject"))]), ms, cost))
    case CalendarManagement =>
      Returned(Succeeded(Mock([("event_id", JStr("cal_123")), ("event", Arg(args, "event"))]), ms, cost))
    case SocialMedia =>
      Returned(Succeeded(Mock([("posted", JBool(true)), ("platform", Arg(args, "platform"))]), ms, cost))
    case Ecommerce =>
      Returned(Succeeded(Mock([("order_id", JStr("ord_123")), ("action", Arg(args, "action")), ("product", Arg(args, "product"))]), ms, cost))
  }

  function StrList(ks: seq<string>): (js: seq<Json>)
    ensures |js| == |ks| && forall i :: 0 <= i < |ks| ==> js[i] == JStr(ks[i])
  {
    if ks == [] then [] else [JStr(ks[0])] + StrList(ks[1..])
  }

  /** The mock translation `f"[{target_lang}] {text}"`. */
  function MockTranslation(target: Json, text: Json, fmt: Formats): (r: string)
    ensures target.JStr? && text.JStr? ==> r == "[" + target.s + "] " + text.s
  {
    "[" + Str(target, fmt) + "] " + Str(text, fmt)
  }

  /** `await tool.implementation(**params)`: bind the keywords, then run the body. */
  function Invoke(t: ToolId, params: Fields, env: ToolEnv, live: LiveResponse, ms: nat): Outcome<ToolResult>
  {
    match Bind(t, params)
    case Raised(e) => Raised(e)
    case Returned(args) => Run(t, args, env, live, ms)
  }

  /** Whatever the arguments and the provider's answer, an implementation that returns charges a positive cost: the listed cost on success, half of it on failure. */
  lemma InvokeChargesPositiveCost(t: ToolId, params: Fields, env: ToolEnv, live: LiveResponse, ms: nat)
    requires Invoke(t, params, env, live, ms).Returned?
    ensures Invoke(t, params, env, live, ms).value.costIncurred > 0.0
    ensures Invoke(t, params, env, live, ms).value.costIncurred ==
              if Invoke(t, params, env, live, ms).value.success then Config(t).costUsd else Config(t).costUsd / 2.0
  {
    RunChargesPositiveCost(t, Bind(t, params).value, env, live, ms);
  }

  /**
   * Every tool implementation that returns charges a positive cost: the tool's configured price
   * when it succeeds and half of it when it fails.
   */
  lemma RunChargesPositiveCost(t: ToolId, args: Fields, env: ToolEnv, live: LiveResponse, ms: nat)
    requires Run(t, args, env, live, ms).Returned?
    ensures Run(t, args, env, live, ms).value.costIncurred > 0.0
    ensures Run(t, args, env, live, ms).value.costIncurred ==
              if Run(t, args, env, live, ms).value.success then Config(t).costUsd else Config(t).costUsd / 2.0
  {
    if t.WebSearch? || t.ImageGeneration? || t.DataAnalysis? || t.Translation? {
      CoreToolsCharge(t, args, env, live, ms);
    } else if t.CodeExecution? || t.FileProcessing? {
      SandboxToolsCharge(t, args, env, live, ms);
    } else if t.VoiceProcessing? || t.Automation? {
      WorkflowToolsCharge(t, args, env, live, ms);
    } else if t.VideoGeneration? || t.AdvancedAnalytics? {
      MediaToolsCharge(t, args, env, live, ms);
    } else if t.ApiIntegration? || t.DatabaseQuery? {
      IntegrationToolsCharge(t, args, env, live, ms);
    } else {
      OutreachToolsCharge(t, args, env, live, ms);
    }
  }

  /** `RunChargesPositiveCost` for the core tools. */
  lemma CoreToolsCharge(t: ToolId, args: Fields, env: ToolEnv, live: LiveResponse, ms: nat)
    requires t.WebSearch? || t.ImageGeneration? || t.DataAnalysis? || t.Translation?
    requires Run(t, args, env, live, ms).Returned?
    ensures Run(t, args, env, live, ms).value.costIncurred > 0.0
    ensures Run(t, args, env, live, ms).value.costIncurred ==
              if Run(t, args, env, live, ms).value.success then Config(t).costUsd else Config(t).costUsd / 2.0
  {
    match t
    case WebSearch =>
    case ImageGeneration =>
    case DataAnalysis =>
    case Translation =>
    case _ =>
      assert false;
  }

  /** `RunChargesPositiveCost` for the conditional tools that run code or read files. */
  lemma SandboxToolsCharge(t: ToolId, args: Fields, env: ToolEnv, live: LiveResponse, ms: nat)
    requires t.CodeExecution? || t.FileProcessing?
    requires Run(t, args, env, live, ms).Returned?
    ensures Run(t, args, env, live, ms).value.costIncurred > 0.0
    ensures Run(t, args, env, live, ms).value.costIncurred ==
              if Run(t, args, env, live, ms).value.success then Config(t).costUsd else Config(t).costUsd / 2.0
  {
    match t
    case CodeExecution =>
    case FileProcessing =>
    case _ =>
      assert false;
  }

  /** `RunChargesPositiveCost` for the conditional tools for voice and workflows. */
  lemma WorkflowToolsCharge(t: ToolId, args: Fields, env: ToolEnv, live: LiveResponse, ms: nat)
    requires t.VoiceProcessing? || t.Automation?
    requires Run(t, args, env, live, ms).Returned?
    ensures Run(t, args, env, live, ms).value.costIncurred > 0.0
    ensures Run(t, args, env, live, ms).value.costIncurred ==
              if Run(t, args, env, live, ms).value.success then Config(t).costUsd else Config(t).costUsd / 2.0
  {
    match t
    case VoiceProcessing =>
    case Automation =>
    case _ =>
      assert false;
  }

  /** `RunChargesPositiveCost` for the advanced media and analytics tools. */
  lemma MediaToolsCharge(t: ToolId, args: Fields, env: ToolEnv, live: LiveResponse, ms: nat)
    requires t.VideoGeneration? || t.AdvancedAnalytics?
    requires Run(t, args, env, live, ms).Returned?
    ensures Run(t, args, env, live, ms).value.costIncurred > 0.0
    ensures Run(t, args, env, live, ms).value.costIncurred ==
              if Run(t, args, env, live, ms).value.success then Config(t).costUsd else Config(t).costUsd / 2.0
  {
    match t
    case VideoGeneration =>
    case AdvancedAnalytics =>
    case _ =>
      assert false;
  }

  /** `RunChargesPositiveCost` for the advanced integration tools. */
  lemma IntegrationToolsCharge(t: ToolId, args: Fields, env: ToolEnv, live: LiveResponse, ms: nat)
    requires t.ApiIntegration? || t.DatabaseQuery?
    requires Run(t, args, env, live, ms).Returned?
    ensures Run(t, args, env, live, ms).value.costIncurred > 0.0
    ensures Run(t, args, env, live, ms).value.costIncurred ==
              if Run(t, args, env, live, ms).value.success then Config(t).costUsd else Config(t).costUsd / 2.0
  {
    match t
    case ApiIntegration =>
    case DatabaseQuery =>
    case _ =>
      assert false;
  }

  /** `RunChargesPositiveCost` for the advanced outreach tools. */
  lemma OutreachToolsCharge(t: ToolId, args: Fields, env: ToolEnv, live: LiveResponse, ms: nat)
    requires t.EmailSending? || t.CalendarManagement? || t.SocialMedia? || t.Ecommerce?
    requires Run(t, args, env, live, ms).Returned?
    ensures Run(t, args, env, live, ms).value.costIncurred > 0.0
    ensures Run(t, args, env, live, ms).value.costIncurred ==
              if Run(t, args, env, live, ms).value.success then Config(t).costUsd else Config(t).costUsd / 2.0
  {
    match t
    case EmailSending =>
    case CalendarManagement =>
    case SocialMedia =>
    case Ecommerce =>
    case _ =>
      assert false;
  }

  /** Mock search (tool mode other than "live", or no SerpAPI key) returns `min(2, num_results)` hits for a non-negative count. */
  lemma MockSearchHits(query: Json, n: nat, env: ToolEnv, live: LiveResponse, ms: nat)
    requires !(env.settings.toolMode == "live" && IsSet(env.settings.serpapiKey))
    ensures Invoke(WebSearch, [("query", query), ("num_results", JNum(n))], env, live, ms)
         == Returned(Succeeded(Mock([("query", query), ("results", JList(MockHits()[..Min(2, n)]))]), ms, Config(WebSearch).costUsd))
  {
    var params: Fields := [("query", query), ("num_results", JNum(n))];
    assert Bind(WebSearch, params) == Returned(params) by {
      assert Keys(params) == ["query", "num_results"];
      assert BoundValues(Signature(WebSearch), params) == params;
    }
    assert Arg(params, "query") == query && Arg(params, "num_results") == JNum(n);
    assert MockHitsUpTo(JNum(n)) == Returned(MockHits()[..Min(2, n)]);
  }

  /** Mock translation returns `"[target] text"` with the full cost. */
  lemma MockTranslationText(text: string, target: string, env: ToolEnv, live: LiveResponse, ms: nat)
    requires !(env.settings.toolMode == "live" && IsSet(env.settings.libretranslateUrl))
    ensures Invoke(Translation, [("text", JStr(text)), ("target_lang", JStr(target))], env, live, ms)
         == Returned(Succeeded(Mock([("translated_text", JStr("[" + target + "] " + text)), ("target", JStr(target))]),
                               ms, Config(Translation).costUsd))
  {
    var params: Fields := [("text", JStr(text)), ("target_lang", JStr(target))];
    assert Bind(Translation, params) == Returned(params) by {
      assert Keys(params) == ["text", "target_lang"];
      assert BoundValues(Signature(Translation), params) == params;
    }
  }

  // ---------------- the gated entry point ----------------

  /** One record of `execution_history`. */
  datatype HistoryEntry = HistoryEntry(tool: string, success: bool, cost: real, time: nat)

  /** A call's result and what it adds to the history (nothing, or one entry). */
  datatype Execution = Execution(result: ToolResult, logged: seq<HistoryEntry>)

  const PLAN_INSUFFICIENT := "الخطة غير كافية لهذه الأداة"
  const NEEDS_CONFIRMATION := "هذه الأداة تتطلب تأكيد المستخدم قبل التنفيذ"

  function NotFoundMessage(name: string): string
  {
    "الأداة " + name + " غير موجودة"
  }

  /** A rejection at one of the three gates: a failure with cost 0 and time 0. */
  function Rejected(error: string): ToolResult
  {
    ToolResult(false, None, Some(error), 0, 0.0)
  }

  /** Whether a call gets past the three gates and reaches the implementation. */
  predicate Dispatched(name: string, userPlan: string, confirmed: bool)
  {
    ToolNamed(name).Some? &&
    PlanAllows(userPlan, Config(ToolNamed(name).value).planRequired) &&
    (!Config(ToolNamed(name).value).requiresConfirmation || confirmed)
  }

  /**
   * What `execute_tool` does to a result the implementation returned: a time of 0 becomes the
   * measured time, a cost of 0 becomes the listed cost (half of it on failure); non-zero values stay.
   */
  function Settle(cfg: ToolConfig, res: ToolResult, outerMs: nat): (r: ToolResult)
    ensures r.success == res.success && r.data == res.data && r.error == res.error
    ensures r.executionTimeMs == if res.executionTimeMs == 0 then outerMs else res.executionTimeMs
    ensures r.costIncurred == if res.costIncurred != 0.0 then res.costIncurred
                              else if res.success then cfg.costUsd else cfg.costUsd / 2.0
  {
    var r := if res.executionTimeMs == 0 then res.(executionTimeMs := outerMs) else res;
    if r.costIncurred == 0.0 then r.(costIncurred := if r.success then cfg.costUsd else cfg.costUsd / 2.0) else r
  }

  /** `execute_tool`, as a function of its inputs: the result and the history entries it appends. */
  function Execute(name: string, params: Fields, userPlan: string, confirmed: bool, env: ToolEnv, ext: CallExternals): Execution
  {
    match ToolNamed(name)
    case None => Execution(Rejected(NotFoundMessage(name)), [])
    case Some(t) =>
      var cfg := Config(t);
      if !PlanAllows(userPlan, cfg.planRequired) then Execution(Rejected(PLAN_INSUFFICIENT), [])
      else if cfg.requiresConfirmation && !confirmed then Execution(Rejected(NEEDS_CONFIRMATION), [])
      else match Invoke(t, params, env, ext.live, ext.implMs)
        case Raised(e) => Execution(ToolResult(false, None, Some(e), ext.outerMs, cfg.costUsd / 2.0), [])
        case Returned(res) =>
          var r := Settle(cfg, res, ext.outerMs);
          Execution(r, [HistoryEntry(name, r.success, r.costIncurred, r.executionTimeMs)])
  }

  /** A name under which no tool is registered fails with cost 0 and time 0 whatever the plan and the flag; nothing is logged. */
  lemma UnknownToolRejected(name: string, params: Fields, userPlan: string, confirmed: bool, env: ToolEnv, ext: CallExternals)
    requires forall t :: Config(t).name != name
    ensures Execute(name, params, userPlan, confirmed, env, ext) == Execution(Rejected(NotFoundMessage(name)), [])
  {
    ToolNamedExact(name);
  }

  /** A tool above the caller's plan fails "plan insufficient" even when the call is unconfirmed: the plan gate comes first. */
  lemma PlanGateFirst(t: ToolId, params: Fields, userPlan: string, confirmed: bool, env: ToolEnv, ext: CallExternals)
    requires !PlanAllows(userPlan, Config(t).planRequired)
    ensures Execute(Config(t).name, params, userPlan, confirmed, env, ext) == Execution(Rejected(PLAN_INSUFFICIENT), [])
  {
    ToolNamedInverse(t);
  }

  /** An unconfirmed call to a tool that needs confirmation, within the caller's plan, fails at cost 0 and time 0. */
  lemma ConfirmationGate(t: ToolId, params: Fields, userPlan: string, env: ToolEnv, ext: CallExternals)
    requires PlanAllows(userPlan, Config(t).planRequired) && Config(t).requiresConfirmation
    ensures Execute(Config(t).name, params, userPlan, false, env, ext) == Execution(Rejected(NEEDS_CONFIRMATION), [])
  {
    ToolNamedInverse(t);
  }

  /** A call rejected at a gate does not depend on the parameters, the settings or the outside world. */
  lemma GateIgnoresImplementation(name: string, userPlan: string, confirmed: bool,
                                  p1: Fields, e1: ToolEnv, x1: CallExternals,
                                  p2: Fields, e2: ToolEnv, x2: CallExternals)
    requires !Dispatched(name, userPlan, confirmed)
    ensures Execute(name, p1, userPlan, confirmed, e1, x1) == Execute(name, p2, userPlan, confirmed, e2, x2)
    ensures Execute(name, p1, userPlan, confirmed, e1, x1).result.costIncurred == 0.0
    ensures Execute(name, p1, userPlan, confirmed, e1, x1).result.executionTimeMs == 0
    ensures !Execute(name, p1, userPlan, confirmed, e1, x1).result.success
  {
  }

  /** An implementation that raises yields a failure carrying the exception text, charged exactly half the listed cost, and is not logged. */
  lemma RaisedHalfCost(name: string, params: Fields, userPlan: string, confirmed: bool, env: ToolEnv, ext: CallExternals)
    requires Dispatched(name, userPlan, confirmed)
    requires Invoke(ToolNamed(name).value, params, env, ext.live, ext.implMs).Raised?
    ensures var x := Execute(name, params, userPlan, confirmed, env, ext);
      && !x.result.success
      && x.result.error == Some(Invoke(ToolNamed(name).value, params, env, ext.live, ext.implMs).error)
      && x.result.costIncurred == Config(ToolNamed(name).value).costUsd / 2.0
      && x.logged == []
  {
  }

  /** The history grows by exactly one entry, describing the final result, exactly when the implementation returns. */
  lemma LoggedIffReturned(name: string, params: Fields, userPlan: string, confirmed: bool, env: ToolEnv, ext: CallExternals)
    ensures var x := Execute(name, params, userPlan, confirmed, env, ext);
      && |x.logged| <= 1
      && (|x.logged| == 1 <==> Dispatched(name, userPlan, confirmed)
                               && Invoke(ToolNamed(name).value, params, env, ext.live, ext.implMs).Returned?)
      && (|x.logged| == 1 ==> x.logged[0] == HistoryEntry(name, x.result.success, x.result.costIncurred, x.result.executionTimeMs))
  {
  }

  /** Scenario: "automation" needs "premium", so a free caller is refused even with confirmation. */
  lemma AutomationNeedsPremium(params: Fields, env: ToolEnv, ext: CallExternals)
    ensures Execute("automation", params, "free", true, env, ext) == Execution(Rejected(PLAN_INSUFFICIENT), [])
  {
    assert PlanRank("free") == 0 && PlanRank("premium") == 1;
    assert Config(Automation).name == "automation";
    PlanGateFirst(Automation, params, "free", true, env, ext);
  }

  /** Scenario: an unconfirmed "code_execution" is refused even for an enterprise caller. */
  lemma CodeExecutionNeedsConfirmation(params: Fields, env: ToolEnv, ext: CallExternals)
    ensures Execute("code_execution", params, "enterprise", false, env, ext) == Execution(Rejected(NEEDS_CONFIRMATION), [])
  {
    ConfirmationGate(CodeExecution, params, "enterprise", env, ext);
  }

  /** `ToolManager`: the catalogue (a constant here) and the execution history it appends to. */
  class ToolManager {
    var history: seq<HistoryEntry>

    constructor ()
      ensures history == []
    {
      history := [];
    }

    /** `execute_tool`: the three gates, the call, the fill-in of time and cost, and the history append. */
    method ExecuteTool(name: string, params: Fields, userPlan: string, confirmed: bool, env: ToolEnv, ext: CallExternals)
      returns (r: ToolResult)
      modifies this
      ensures r == Execute(name, params, userPlan, confirmed, env, ext).result
      ensures history == old(history) + Execute(name, params, userPlan, confirmed, env, ext).logged
    {
      var tool := ToolNamed(name);
      if tool.None? {
        return Rejected(NotFoundMessage(name));
      }
      var cfg := Config(tool.value);
      if !PlanAllows(userPlan, cfg.planRequired) {
        return Rejected(PLAN_INSUFFICIENT);
      }
      if cfg.requiresConfirmation && !confirmed {
        return Rejected(NEEDS_CONFIRMATION);
      }
      var outcome := Invoke(tool.value, params, env, ext.live, ext.implMs);
      if outcome.Raised? {
        return ToolResult(false, None, Some(outcome.error), ext.outerMs, cfg.costUsd / 2.0);
      }
      r := outcome.value;
      if r.executionTimeMs == 0 {
        r := r.(executionTimeMs := ext.outerMs);
      }
      if r.costIncurred == 0.0 {
        r := r.(costIncurred := if r.success then cfg.costUsd else cfg.costUsd / 2.0);
      }
      history := history + [HistoryEntry(name, r.success, r.costIncurred, r.executionTimeMs)];
    }
  }
}
