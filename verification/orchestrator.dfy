/**
 * The agent orchestrator: a keyword planner, the persona's blocked-tool filter, sequential
 * plan execution, the reply composers, and `handle_message`, which ties persona, memory,
 * tools and reply together in a fixed order.
 */
module Orchestrator {
  import opened Wrappers
  import opened Text
  import opened Values
  import opened Registry
  import opened Store
  import opened Memory
  import opened Persona

  // ---------------- planning ----------------

  /** `ToolCall`; `confirmed` defaults to false. */
  datatype ToolCall = ToolCall(name: string, params: Fields, confirmed: bool)

  const SEARCH_KEYWORDS: seq<string> := ["ابحث", "بحث", "search", "google", "ويب"]
  const TRANSLATE_KEYWORDS: seq<string> := ["ترجم", "translate"]
  const ANALYZE_KEYWORDS: seq<string> := ["حلل", "تحليل", "analyze"]

  /** The message as the planner matches it: stripped and lower-cased. */
  function Normalised(message: string): string
  {
    Lower(Trim(message))
  }

  /** The planned search: the original message as query, five results. */
  function SearchCall(message: string): ToolCall
  {
    ToolCall("web_search", [("query", JStr(message)), ("num_results", JNum(5))], false)
  }

  /** The planned translation: the original message, into English. */
  function TranslateCall(message: string): ToolCall
  {
    ToolCall("translation", [("text", JStr(message)), ("target_lang", JStr("en"))], false)
  }

  /** The planned analysis: `{"text": message}` as data. */
  function AnalyzeCall(message: string): ToolCall
  {
    ToolCall("data_analysis", [("data", JObj([("text", JStr(message))]))], false)
  }

  /** The position of each planned tool in the planner's fixed order. */
  function StepRank(name: string): nat
  {
    if name == "web_search" then 0 else if name == "translation" then 1 else if name == "data_analysis" then 2 else 3
  }

  /** Each tool at most once, in the fixed order search, translation, analysis. */
  predicate InStepOrder(plan: seq<ToolCall>)
  {
    forall i, j :: 0 <= i < j < |plan| ==> StepRank(plan[i].name) < StepRank(plan[j].name)
  }

  /** The calls for the keyword groups found, in the fixed order. */
  function PlanFor(message: string, search: bool, translate: bool, analyze: bool): (plan: seq<ToolCall>)
    ensures |plan| <= 3 && InStepOrder(plan)
    ensures SearchCall(message) in plan <==> search
    ensures TranslateCall(message) in plan <==> translate
    ensures AnalyzeCall(message) in plan <==> analyze
    ensures forall c :: c in plan ==> c in [SearchCall(message), TranslateCall(message), AnalyzeCall(message)]
    ensures forall c :: c in plan ==> !c.confirmed
  {
    (if search then [SearchCall(message)] else [])
    + (if translate then [TranslateCall(message)] else [])
    + (if analyze then [AnalyzeCall(message)] else [])
  }

  /**
   * `_rule_based_plan`: a call for each keyword group found (as a substring) in the normalised
   * message, in the fixed order and whatever the keywords' order in the message, each with
   * parameters built from the original message and `confirmed` false.
   */
  function RuleBasedPlan(message: string): (plan: seq<ToolCall>)
    ensures |plan| <= 3 && InStepOrder(plan)
    ensures SearchCall(message) in plan <==> ContainsAny(Normalised(message), SEARCH_KEYWORDS)
    ensures TranslateCall(message) in plan <==> ContainsAny(Normalised(message), TRANSLATE_KEYWORDS)
    ensures AnalyzeCall(message) in plan <==> ContainsAny(Normalised(message), ANALYZE_KEYWORDS)
    ensures forall c :: c in plan ==> c in [SearchCall(message), TranslateCall(message), AnalyzeCall(message)]
    ensures forall c :: c in plan ==> !c.confirmed
  {
    var msg := Normalised(message);
    PlanFor(message, ContainsAny(msg, SEARCH_KEYWORDS), ContainsAny(msg, TRANSLATE_KEYWORDS), ContainsAny(msg, ANALYZE_KEYWORDS))
  }

  /** A message without any keyword yields an empty plan. */
  lemma NoKeywordNoPlan(message: string)
    requires !ContainsAny(Normalised(message), SEARCH_KEYWORDS + TRANSLATE_KEYWORDS + ANALYZE_KEYWORDS)
    ensures RuleBasedPlan(message) == []
  {
    var msg := Normalised(message);
    forall k | k in SEARCH_KEYWORDS || k in TRANSLATE_KEYWORDS || k in ANALYZE_KEYWORDS
      ensures !Contains(msg, k)
    {
      assert k in SEARCH_KEYWORDS + TRANSLATE_KEYWORDS + ANALYZE_KEYWORDS;
    }
  }

  /** Two messages that normalise alike are planned for the same tools. */
  lemma PlanDependsOnNormalisedText(m1: string, m2: string)
    requires Normalised(m1) == Normalised(m2)
    ensures |RuleBasedPlan(m1)| == |RuleBasedPlan(m2)|
    ensures forall i :: 0 <= i < |RuleBasedPlan(m1)| ==> RuleBasedPlan(m1)[i].name == RuleBasedPlan(m2)[i].name
  {
    var n := Normalised(m1);
    var s, t, a := ContainsAny(n, SEARCH_KEYWORDS), ContainsAny(n, TRANSLATE_KEYWORDS), ContainsAny(n, ANALYZE_KEYWORDS);
    var p1, p2 := RuleBasedPlan(m1), RuleBasedPlan(m2);
    assert p1 == PlanFor(m1, s, t, a);
    assert p2 == PlanFor(m2, s, t, a);
    PlanForNames(m1, s, t, a);
    PlanForNames(m2, s, t, a);
    var names := StepNames(s, t, a);
    forall i | 0 <= i < |p1| ensures p1[i].name == p2[i].name {
      assert p1[i].name == names[i] == p2[i].name;
    }
  }

  /** The tool names of the calls for the keyword groups found, in the fixed order. */
  function StepNames(search: bool, translate: bool, analyze: bool): seq<string>
  {
    (if search then ["web_search"] else [])
    + (if translate then ["translation"] else [])
    + (if analyze then ["data_analysis"] else [])
  }

  /** The names in a plan depend on which keyword groups were found, not on the message. */
  lemma PlanForNames(message: string, s: bool, t: bool, a: bool)
    ensures |PlanFor(message, s, t, a)| == |StepNames(s, t, a)|
    ensures forall i :: 0 <= i < |StepNames(s, t, a)| ==> PlanFor(message, s, t, a)[i].name == StepNames(s, t, a)[i]
  {
    var plan, names := PlanFor(message, s, t, a), StepNames(s, t, a);
    var p1: seq<ToolCall> := if s then [SearchCall(message)] else [];
    var p2: seq<ToolCall> := if t then [TranslateCall(message)] else [];
    var p3: seq<ToolCall> := if a then [AnalyzeCall(message)] else [];
    assert plan == p1 + p2 + p3;
    forall i | 0 <= i < |names| ensures plan[i].name == names[i] {
      if i < |p1| {
      } else if i < |p1| + |p2| {
        assert plan[i] == p2[i - |p1|];
      } else {
        assert plan[i] == p3[i - |p1| - |p2|];
      }
    }
  }

  // ---------------- the blocked-tool filter ----------------

  /** `[c for c in plan if c.name not in blocked]`. */
  function Unblocked(plan: seq<ToolCall>, blocked: seq<Json>): (r: seq<ToolCall>)
    ensures |r| <= |plan|
    ensures forall c :: c in r <==> c in plan && JStr(c.name) !in blocked
  {
    if plan == [] then []
    else (if JStr(plan[0].name) in blocked then [] else [plan[0]]) + Unblocked(plan[1..], blocked)
  }

  /** Dropping calls keeps the remaining calls in their order. */
  lemma {:induction false} UnblockedKeepsOrder(plan: seq<ToolCall>, blocked: seq<Json>)
    ensures InStepOrder(plan) ==> InStepOrder(Unblocked(plan, blocked))
  {
    if plan != [] && InStepOrder(plan) {
      UnblockedKeepsOrder(plan[1..], blocked);
      var rest := Unblocked(plan[1..], blocked);
      forall c | c in rest ensures StepRank(plan[0].name) < StepRank(c.name) {
        var j :| 0 <= j < |plan[1..]| && plan[1..][j] == c;
        assert plan[j + 1] == c;
      }
    }
  }

  /**
   * The filter in `handle_message`: the persona's blocked list becomes a set; if it is
   * non-empty the calls whose names are in it are dropped. A list holding an unhashable value
   * makes `set()` raise, and the exception is swallowed, leaving the plan as it was.
   */
  function FilterPlan(plan: seq<ToolCall>, policy: ToolPolicy): (r: seq<ToolCall>)
    ensures (exists b :: b in policy.blockedTools && !Hashable(b)) ==> r == plan
    ensures (forall b :: b in policy.blockedTools ==> Hashable(b)) ==>
              forall c :: c in r <==> c in plan && JStr(c.name) !in policy.blockedTools
    ensures InStepOrder(plan) ==> InStepOrder(r)
    ensures policy.blockedTools == [] ==> r == plan
  {
    if exists b :: b in policy.blockedTools && !Hashable(b) then plan
    else if policy.blockedTools == [] then plan
    else
      UnblockedKeepsOrder(plan, policy.blockedTools);
      Unblocked(plan, policy.blockedTools)
  }

  // ---------------- executing a plan ----------------

  /** The executions of the plan's calls, the `i`-th with the outside world `ext(i)`. */
  function PlanExecutions(plan: seq<ToolCall>, userPlan: string, env: ToolEnv, ext: nat -> CallExternals): (es: seq<Execution>)
    ensures |es| == |plan|
  {
    seq(|plan|, i requires 0 <= i < |plan| =>
      Execute(plan[i].name, plan[i].params, userPlan, plan[i].confirmed, env, ext(i)))
  }

  /** Each call of the plan paired with what it returns. */
  function PlanOutputs(plan: seq<ToolCall>, userPlan: string, env: ToolEnv, ext: nat -> CallExternals): (r: seq<(ToolCall, ToolResult)>)
    ensures |r| == |plan|
    ensures forall i :: 0 <= i < |plan| ==> r[i].0 == plan[i]
  {
    var es := PlanExecutions(plan, userPlan, env, ext);
    seq(|plan|, i requires 0 <= i < |plan| => (plan[i], es[i].result))
  }

  /** The history entries a sequence of executions appends, in order. */
  function Logged(es: seq<Execution>): seq<HistoryEntry>
  {
    if es == [] then [] else Logged(es[..|es| - 1]) + es[|es| - 1].logged
  }

  lemma PrefixSnoc<T>(s: seq<T>, i: nat)
    requires i < |s|
    ensures s[..i + 1] == s[..i] + [s[i]]
  {
  }

  /** One execution more appends its entries. */
  lemma LoggedStep(es: seq<Execution>, i: nat)
    requires i < |es|
    ensures Logged(es[..i + 1]) == Logged(es[..i]) + es[i].logged
  {
    assert es[..i + 1][..i] == es[..i];
  }

  /** A plan's execution logs at most one history entry per call. */
  lemma PlanLogBound(plan: seq<ToolCall>, userPlan: string, env: ToolEnv, ext: nat -> CallExternals)
    ensures |Logged(PlanExecutions(plan, userPlan, env, ext))| <= |plan|
  {
    var es := PlanExecutions(plan, userPlan, env, ext);
    forall i | 0 <= i < |es|
      ensures |es[i].logged| <= 1
    {
      var c := plan[i];
      LoggedIffReturned(c.name, c.params, userPlan, c.confirmed, env, ext(i));
    }
    LoggedBound(es);
  }

  lemma {:induction false} LoggedBound(es: seq<Execution>)
    requires forall i :: 0 <= i < |es| ==> |es[i].logged| <= 1
    ensures |Logged(es)| <= |es|
  {
    if es != [] {
      LoggedBound(es[..|es| - 1]);
    }
  }

  // ---------------- composing the reply ----------------

  /** The rule that opens the tool-results section and the memory note. */
  const RULE := "\n---\n"
  const RESULTS_HEADER := RULE + "نتائج الأدوات:"
  const MEMORY_NOTE := RULE + "(ملحوظة: تم أخذ آخر رسائل من الذاكرة قصيرة المدى)"

  /** `f"[{persona.name}] فهمت ✅"`. */
  function Greeting(personaName: string): string
  {
    "[" + personaName + "] فهمت ✅"
  }

  /** One bullet: `- name: data` for a success, `- name: خطأ: error` for a failure. */
  function Bullet(output: (ToolCall, ToolResult), fmt: Formats): (b: string)
    ensures |b| >= 2 && b[0] == '-'
    ensures output.1.success ==> b == "- " + output.0.name + ": " + StrOpt(output.1.data, fmt)
    ensures !output.1.success ==> var prefix := "- " + output.0.name + ": خطأ: ";
              |b| >= |prefix| && b[..|prefix|] == prefix &&
              (output.1.error.Some? ==> b[|prefix|..] == output.1.error.value)
  {
    var (call, res) := output;
    if res.success then "- " + call.name + ": " + StrOpt(res.data, fmt)
    else "- " + call.name + ": خطأ: " + (match res.error case Some(e) => e case None => "None")
  }

  function Bullets(outputs: seq<(ToolCall, ToolResult)>, fmt: Formats): seq<string>
  {
    seq(|outputs|, i requires 0 <= i < |outputs| => Bullet(outputs[i], fmt))
  }

  /**
   * The lines of the deterministic reply: the greeting, the message, then, only if there are
   * outputs, the results header and one bullet per output in order, then, only if recent
   * messages were found, the memory note.
   */
  function ReplyLines(personaName: string, message: string, recent: seq<Json>, outputs: seq<(ToolCall, ToolResult)>, fmt: Formats): (lines: seq<string>)
    ensures |lines| == 2 + (if outputs == [] then 0 else 1 + |outputs|) + (if recent == [] then 0 else 1)
    ensures lines[0] == Greeting(personaName) && lines[1] == message
    ensures outputs != [] ==> lines[2] == RESULTS_HEADER && forall i :: 0 <= i < |outputs| ==> lines[3 + i] == Bullet(outputs[i], fmt)
  {
    [Greeting(personaName), message]
    + (if outputs == [] then [] else [RESULTS_HEADER] + Bullets(outputs, fmt))
    + (if recent == [] then [] else [MEMORY_NOTE])
  }

  /** The reply ends with the memory note exactly when recent messages were found. */
  lemma ReplyNoteIffRecent(personaName: string, message: string, recent: seq<Json>, outputs: seq<(ToolCall, ToolResult)>, fmt: Formats)
    ensures var lines := ReplyLines(personaName, message, recent, outputs, fmt);
            recent != [] <==> lines[|lines| - 1] == MEMORY_NOTE && |lines| > 2
  {
    var lines := ReplyLines(personaName, message, recent, outputs, fmt);
    NoteIsNoBullet();
    if recent == [] && outputs != [] {
      var b := Bullet(outputs[|outputs| - 1], fmt);
      assert lines[|lines| - 1] == b;
      assert b[0] != MEMORY_NOTE[0];
    }
  }

  lemma NoteIsNoBullet()
    ensures |MEMORY_NOTE| > 0 && MEMORY_NOTE[0] == '\n'
  {
  }

  /** `_compose_response_without_llm`: the reply lines joined by newlines. */
  function ComposeWithoutLlm(persona: PersonaProfile, message: string, ctx: ContextBundle, outputs: seq<(ToolCall, ToolResult)>, fmt: Formats): string
  {
    Join("\n", ReplyLines(persona.name, message, ctx.recentMessages, outputs, fmt))
  }

  /** One snippet of relevant memory: `item.get("text", "")`, which must be a string for the join. */
  function Snippet(item: Json): Outcome<string>
  {
    if !item.JObj? then Raised("'" + TypeName(item) + "' object has no attribute 'get'")
    else match GetOr(item.fields, "text", JStr(""))
      case JStr(s) => Returned(s)
      case other => Raised("sequence item: expected str instance, " + TypeName(other) + " found")
  }

  function Snippets(items: seq<Json>): (r: Outcome<seq<string>>)
    ensures r.Returned? ==> |r.value| == |items|
  {
    if items == [] then Returned([])
    else match Snippet(items[0])
      case Raised(e) => Raised(e)
      case Returned(s) => match Snippets(items[1..])
        case Raised(e) => Raised(e)
        case Returned(ss) => Returned([s] + ss)
  }

  /** The `tool_block` entry of one output. */
  function ToolBlockEntry(output: (ToolCall, ToolResult)): Json
  {
    var (call, res) := output;
    JObj([("tool", JStr(call.name)), ("success", JBool(res.success)),
          ("data", match res.data case Some(d) => d case None => JNull),
          ("error", match res.error case Some(e) => JStr(e) case None => JNull)])
  }

  /** The four chat messages sent to the language model: persona prompt, relevant memory, tool outputs, user message. */
  function LlmMessages(persona: PersonaProfile, message: string, snippets: seq<string>, outputs: seq<(ToolCall, ToolResult)>, fmt: Formats): (ms: seq<Json>)
    ensures |ms| == 4 && ms[0] == MessageJson("system", persona.systemPrompt) && ms[3] == MessageJson("user", message)
  {
    var memoryText := if snippets != [] then "Relevant memory:\n" + Join("\n---\n", snippets) else "Relevant memory: (none)";
    var block := seq(|outputs|, i requires 0 <= i < |outputs| => ToolBlockEntry(outputs[i]));
    [MessageJson("system", persona.systemPrompt),
     MessageJson("system", memoryText),
     MessageJson("system", "Tool outputs:\n" + fmt.repr(JList(block))),
     MessageJson("user", message)]
  }

  /**
   * `_compose_response_with_llm`. Unless the provider is "openai" and an API key is set, the
   * deterministic reply. Otherwise the model's answer to the four messages; `complete` stands
   * for the HTTP call, whose exceptions propagate.
   */
  function ComposeWithLlm(persona: PersonaProfile, message: string, ctx: ContextBundle, outputs: seq<(ToolCall, ToolResult)>,
                          settings: Settings, fmt: Formats, complete: seq<Json> -> Outcome<string>): (r: Outcome<string>)
    ensures settings.llmProvider != "openai" || !IsSet(settings.openaiApiKey) ==>
              r == Returned(ComposeWithoutLlm(persona, message, ctx, outputs, fmt))
    ensures settings.llmProvider == "openai" && IsSet(settings.openaiApiKey) && ctx.relevantHistory == [] ==>
              r == complete(LlmMessages(persona, message, [], outputs, fmt))
  {
    if settings.llmProvider != "openai" || !IsSet(settings.openaiApiKey) then
      Returned(ComposeWithoutLlm(persona, message, ctx, outputs, fmt))
    else match Snippets(Prefix(ctx.relevantHistory, 3))
      case Raised(e) => Raised(e)
      case Returned(snippets) => complete(LlmMessages(persona, message, snippets, outputs, fmt))
  }

  // ---------------- the conversation summary ----------------

  /** `m.get("role", "").split()[0] + ":" + m.get("content", "")[:80]`; anything else raises. */
  function BriefPart(m: Json): Outcome<string>
  {
    if !m.JObj? then Raised("object has no attribute 'get'")
    else match (GetOr(m.fields, "role", JStr("")), GetOr(m.fields, "content", JStr("")))
      case (JStr(role), JStr(content)) =>
        var words := Words(role);
        if words == [] then Raised("list index out of range")
        else Returned(words[0] + ":" + Prefix(content, 80))
      case _ => Raised("unsupported role or content")
  }

  /** A stored chat message contributes its role and the first 80 characters of its content. */
  lemma BriefOfMessage(role: string, content: string)
    requires IsWord(role)
    ensures BriefPart(MessageJson(role, content)) == Returned(role + ":" + Prefix(content, 80))
  {
    assert !IsSpace(role[0]) && LeadingSpaces(role) == 0;
    assert TrimStart(role) == role;
    WholeWord(role);
    assert Words(role)[0] == role[..|role|] == role;
    assert GetOr(MessageJson(role, content).fields, "role", JStr("")) == JStr(role);
    assert GetOr(MessageJson(role, content).fields, "content", JStr("")) == JStr(content);
  }

  lemma {:induction false} WholeWord(w: string)
    requires IsWord(w) || w == []
    ensures WordLength(w) == |w|
  {
    if w != [] {
      assert forall i :: 0 <= i < |w[1..]| ==> w[1..][i] == w[i + 1];
      WholeWord(w[1..]);
    }
  }

  /** `" | ".join(...)` over the last five recent messages. */
  function Brief(recent: seq<Json>): Outcome<string>
  {
    match BriefParts(Slice(recent, -5, |recent|))
    case Raised(e) => Raised(e)
    case Returned(parts) => Returned(Join(" | ", parts))
  }

  function BriefParts(ms: seq<Json>): (r: Outcome<seq<string>>)
    ensures r.Returned? ==> |r.value| == |ms|
  {
    if ms == [] then Returned([])
    else match BriefPart(ms[0])
      case Raised(e) => Raised(e)
      case Returned(p) => match BriefParts(ms[1..])
        case Raised(e) => Raised(e)
        case Returned(ps) => Returned([p] + ps)
  }

  /**
   * The summary table after the summary step: the brief of the recent messages and the start of
   * the reply saved for the conversation when the database answers and the brief can be built;
   * otherwise the table as it was (the exception is swallowed).
   */
  function SummariesAfter(rows: seq<SummaryRow>, reachable: bool, conversationId: string, context: ContextBundle, reply: string): seq<SummaryRow>
  {
    var brief := Brief(context.recentMessages);
    if reachable && brief.Returned? then
      SummarySaved(rows, conversationId, SummaryText(brief.value, reply), Some(context.contextTokensEstimate))
    else rows
  }

  /** `f"{brief}\nآخر رد: {reply[:200]}"`. */
  function SummaryText(brief: string, reply: string): string
  {
    brief + "\nآخر رد: " + Prefix(reply, 200)
  }

  // ---------------- handle_message ----------------

  /** One entry of the response's `plan`. */
  datatype PlanEntry = PlanEntry(tool: string, params: Fields)

  /** One entry of the response's `tool_outputs`. */
  datatype OutputRecord = OutputRecord(tool: string, success: bool, data: Option<Json>, error: Option<string>, ms: nat, cost: real)

  /** The dict `handle_message` returns. */
  datatype Response = Response(
    reply: string,
    personaId: string,
    personaName: string,
    plan: seq<PlanEntry>,
    toolOutputs: seq<OutputRecord>,
    tokensEstimate: nat)

  function PlanEntries(plan: seq<ToolCall>): (es: seq<PlanEntry>)
    ensures |es| == |plan| && forall i :: 0 <= i < |plan| ==> es[i] == PlanEntry(plan[i].name, plan[i].params)
  {
    seq(|plan|, i requires 0 <= i < |plan| => PlanEntry(plan[i].name, plan[i].params))
  }

  function OutputRecords(outputs: seq<(ToolCall, ToolResult)>): (rs: seq<OutputRecord>)
    ensures |rs| == |outputs| && forall i :: 0 <= i < |outputs| ==> rs[i].tool == outputs[i].0.name
  {
    seq(|outputs|, i requires 0 <= i < |outputs| =>
      var (c, r) := outputs[i];
      OutputRecord(c.name, r.success, r.data, r.error, r.executionTimeMs, r.costIncurred))
  }

  /** The persona `handle_message` works with, given the stores as they are when it starts. */
  function LoadedPersona(userId: string, personaId: string, memory: ContextualMemory, db: Database?): Outcome<PersonaProfile>
    reads memory, db
  {
    Merge(personaId, OverrideRow(db, userId, personaId), StoredPrefs(memory, userId, personaId), memory.fmt)
  }

  /** `AgentOrchestrator`: one tool manager, one memory, and the settings they run under. */
  class AgentOrchestrator {
    const tools: ToolManager
    const memory: ContextualMemory
    const env: ToolEnv

    constructor (env: ToolEnv)
      ensures this.env == env && fresh(tools) && fresh(memory) && fresh(memory.shortTerm)
      ensures tools.history == [] && memory.shortTerm.items == [] && memory.personaMemory == map[] && memory.fmt == env.fmt
    {
      this.env := env;
      tools := new ToolManager();
      memory := new ContextualMemory(env.fmt);
    }

    /** `_execute_plan`: each call in order, with the caller's plan and the call's own confirmation flag. */
    method ExecutePlan(plan: seq<ToolCall>, userPlan: string, ext: nat -> CallExternals)
      returns (outputs: seq<(ToolCall, ToolResult)>)
      modifies tools
      ensures outputs == PlanOutputs(plan, userPlan, env, ext)
      ensures tools.history == old(tools.history) + Logged(PlanExecutions(plan, userPlan, env, ext))
    {
      outputs := [];
      var i := 0;
      ghost var start := tools.history;
      ghost var es := PlanExecutions(plan, userPlan, env, ext);
      ghost var all := PlanOutputs(plan, userPlan, env, ext);
      while i < |plan|
        invariant 0 <= i <= |plan|
        invariant outputs == all[..i]
        invariant tools.history == start + Logged(es[..i])
      {
        var call := plan[i];
        var res := tools.ExecuteTool(call.name, call.params, userPlan, call.confirmed, env, ext(i));
        assert es[i] == Execute(call.name, call.params, userPlan, call.confirmed, env, ext(i));
        LoggedStep(es, i);
        outputs := outputs + [(call, res)];
        PrefixSnoc(all, i);
        i := i + 1;
      }
      assert all[..|plan|] == all && es[..|plan|] == es;
    }

    /**
     * The conversation-summary step of `handle_message`: the last five recent messages in brief
     * and the start of the reply, saved as the conversation's summary. Any exception on the way
     * (a malformed message, an unreachable database) is swallowed and the table left as it was.
     */
    method RecordSummary(db: Database, conversationId: string, context: ContextBundle, reply: string)
      modifies db
      ensures db.reachable && Brief(context.recentMessages).Returned? ==>
                db.summaries == SummarySaved(old(db.summaries), conversationId,
                                             SummaryText(Brief(context.recentMessages).value, reply),
                                             Some(context.contextTokensEstimate))
      ensures !db.reachable || Brief(context.recentMessages).Raised? ==> db.summaries == old(db.summaries)
      ensures db.personas == old(db.personas)
    {
      var brief := Brief(context.recentMessages);
      if brief.Returned? {
        var _ := memory.SaveConversationSummary(db, conversationId, SummaryText(brief.value, reply), Some(context.contextTokensEstimate));
      }
    }

    /**
     * The middle steps of `handle_message`, once the persona is loaded and the plan filtered:
     * record the user message, build the context, execute the plan.
     */
    method Gather(userId: string, conversationId: string, message: string, plan: seq<ToolCall>, userPlan: string,
                  db: Database?, ext: nat -> CallExternals)
      returns (context: ContextBundle, outputs: seq<(ToolCall, ToolResult)>)
      modifies tools, memory.shortTerm
      ensures memory.shortTerm.items == Pushed(old(memory.shortTerm.items), memory.fmt.dumps(MessageJson("user", message)))
      ensures context == ContextOf(Pushed(old(memory.shortTerm.items), memory.fmt.dumps(MessageJson("user", message))),
                                   old(memory.personaMemory), memory.fmt, old(StoredSummary(db, conversationId)),
                                   userId, message, conversationId)
      ensures outputs == PlanOutputs(plan, userPlan, env, ext)
      ensures tools.history == old(tools.history) + Logged(PlanExecutions(plan, userPlan, env, ext))
    {
      memory.AddShortTerm(userId, MessageJson("user", message));
      context := memory.BuildFullContext(userId, message, conversationId, db);
      outputs := ExecutePlan(plan, userPlan, ext);
      memory.AddToVectorStore(userId, conversationId, message);
    }

    /**
     * The last steps of `handle_message`: compose the reply (a failing language-model call stops
     * here); record the reply; save the summary when there is a database; answer.
     */
    method Finish(userId: string, conversationId: string, message: string, persona: PersonaProfile, db: Database?,
                  context: ContextBundle, plan: seq<ToolCall>, outputs: seq<(ToolCall, ToolResult)>,
                  complete: seq<Json> -> Outcome<string>)
      returns (r: Outcome<Response>)
      modifies memory.shortTerm, db
      ensures var composed := ComposeWithLlm(persona, message, context, outputs, env.settings, memory.fmt, complete);
              && (composed.Raised? ==> r == Raised(composed.error) && memory.shortTerm.items == old(memory.shortTerm.items))
              && (composed.Returned? ==>
                    && r == Returned(Response(composed.value, persona.personaId, persona.name, PlanEntries(plan),
                                              OutputRecords(outputs), context.contextTokensEstimate))
                    && memory.shortTerm.items == Pushed(old(memory.shortTerm.items), memory.fmt.dumps(MessageJson("assistant", composed.value))))
      ensures db != null ==>
                db.summaries == (if r.Returned? then SummariesAfter(old(db.summaries), db.reachable, conversationId, context, r.value.reply)
                                 else old(db.summaries))
      ensures db != null ==> db.personas == old(db.personas)
    {
      var composed := ComposeWithLlm(persona, message, context, outputs, env.settings, memory.fmt, complete);
      if composed.Raised? {
        return Raised(composed.error);
      }
      var reply := composed.value;
      memory.AddShortTerm(userId, MessageJson("assistant", reply));
      if db != null {
        RecordSummary(db, conversationId, context, reply);
      }
      r := Returned(Response(reply, persona.personaId, persona.name, PlanEntries(plan), OutputRecords(outputs), context.contextTokensEstimate));
    }

    /**
     * The steps of `handle_message` after the persona is loaded and the plan filtered: record the
     * user message; build the context; execute; compose the reply (a failing language-model call
     * stops here, after the user message was recorded); record the reply; save the summary when
     * there is a database; answer.
     */
    method Respond(userId: string, conversationId: string, message: string, persona: PersonaProfile, plan: seq<ToolCall>, userPlan: string,
                   db: Database?, ext: nat -> CallExternals, complete: seq<Json> -> Outcome<string>)
      returns (r: Outcome<Response>)
      modifies tools, memory.shortTerm, db
      ensures tools.history == old(tools.history) + Logged(PlanExecutions(plan, userPlan, env, ext))
      ensures var withUser := Pushed(old(memory.shortTerm.items), memory.fmt.dumps(MessageJson("user", message)));
              var ctx := ContextOf(withUser, memory.personaMemory, memory.fmt, old(StoredSummary(db, conversationId)),
                                   userId, message, conversationId);
              var outputs := PlanOutputs(plan, userPlan, env, ext);
              var composed := ComposeWithLlm(persona, message, ctx, outputs, env.settings, memory.fmt, complete);
              && (composed.Raised? ==> r == Raised(composed.error) && memory.shortTerm.items == withUser)
              && (composed.Returned? ==>
                    && r == Returned(Response(composed.value, persona.personaId, persona.name, PlanEntries(plan),
                                              OutputRecords(outputs), ctx.contextTokensEstimate))
                    && memory.shortTerm.items == Pushed(withUser, memory.fmt.dumps(MessageJson("assistant", composed.value))))
                    && (db != null ==>
                          db.summaries == (if r.Returned? then SummariesAfter(old(db.summaries), db.reachable, conversationId, ctx, r.value.reply)
                                           else old(db.summaries)))
      ensures db != null ==> db.personas == old(db.personas)
    {
      var context, outputs := Gather(userId, conversationId, message, plan, userPlan, db, ext);
      r := Finish(userId, conversationId, message, persona, db, context, plan, outputs, complete);
    }

    /**
     * `handle_message`: load the persona, plan and filter by its tool policy, then respond. A
     * persona that fails to load stops it before anything changes.
     */
    method HandleMessage(userId: string, conversationId: string, message: string, personaId: string, userPlan: string,
                         db: Database?, ext: nat -> CallExternals, complete: seq<Json> -> Outcome<string>)
      returns (r: Outcome<Response>)
      modifies tools, memory.shortTerm, db
      ensures old(LoadedPersona(userId, personaId, memory, db)).Raised? ==>
                && r == Raised(old(LoadedPersona(userId, personaId, memory, db)).error)
                && memory.shortTerm.items == old(memory.shortTerm.items) && tools.history == old(tools.history)
                && (db != null ==> db.summaries == old(db.summaries))
      ensures old(LoadedPersona(userId, personaId, memory, db)).Returned? ==>
                var persona := old(LoadedPersona(userId, personaId, memory, db)).value;
                var plan := FilterPlan(RuleBasedPlan(message), persona.toolPolicy);
                var withUser := Pushed(old(memory.shortTerm.items), memory.fmt.dumps(MessageJson("user", message)));
                var ctx := ContextOf(withUser, memory.personaMemory, memory.fmt, old(StoredSummary(db, conversationId)),
                                     userId, message, conversationId);
                var outputs := PlanOutputs(plan, userPlan, env, ext);
                var composed := ComposeWithLlm(persona, message, ctx, outputs, env.settings, memory.fmt, complete);
                && tools.history == old(tools.history) + Logged(PlanExecutions(plan, userPlan, env, ext))
                && (composed.Raised? ==> r == Raised(composed.error) && memory.shortTerm.items == withUser)
                && (composed.Returned? ==>
                      && r == Returned(Response(composed.value, persona.personaId, persona.name, PlanEntries(plan),
                                                OutputRecords(outputs), ctx.contextTokensEstimate))
                      && memory.shortTerm.items == Pushed(withUser, memory.fmt.dumps(MessageJson("assistant", composed.value))))
                && (db != null ==>
                      db.summaries == (if r.Returned? then SummariesAfter(old(db.summaries), db.reachable, conversationId, ctx, r.value.reply)
                                       else old(db.summaries)))
      ensures db != null ==> db.personas == old(db.personas)
    {
      var loaded := Persona.LoadPersona(userId, personaId, memory, db, memory.fmt);
      if loaded.Raised? {
        return Raised(loaded.error);
      }
      var plan := FilterPlan(RuleBasedPlan(message), loaded.value.toolPolicy);
      r := Respond(userId, conversationId, message, loaded.value, plan, userPlan, db, ext, complete);
    }
  }
}
