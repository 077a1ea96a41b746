/**
 * The mobile chat client: the HTML escaping of message text, the request it sends to an
 * OpenAI-compatible `/chat/completions` endpoint, and the message list it keeps, changed in
 * place as a message is sent, answered and cleared.
 */
module ChatClient {
  import opened Wrappers
  import opened Text

  // ---------------- escaping ----------------

  /** The five characters `escapeHtml` replaces. */
  predicate IsSpecial(c: char)
  {
    c == '&' || c == '<' || c == '>' || c == '"' || c == '\''
  }

  /** What `escapeHtml` puts in place of one character: its entity, or the character itself. */
  function Entity(c: char): (e: string)
    ensures IsSpecial(c) <==> e != [c]
    ensures IsSpecial(c) ==> |e| >= 4 && e[0] == '&' && e[|e| - 1] == ';'
    ensures '<' !in e && '>' !in e && '"' !in e && '\'' !in e
  {
    if c == '&' then "&amp;"
    else if c == '<' then "&lt;"
    else if c == '>' then "&gt;"
    else if c == '"' then "&quot;"
    else if c == '\'' then "&#39;"
    else [c]
  }

  /** `escapeHtml`: every character replaced by its entity, left to right. */
  function EscapeHtml(s: string): (r: string)
    ensures '<' !in r && '>' !in r && '"' !in r && '\'' !in r
    ensures |r| >= |s|
  {
    if s == [] then [] else Entity(s[0]) + EscapeHtml(s[1..])
  }

  /** Escaping is a character map: it escapes a concatenation piece by piece. */
  lemma {:induction false} EscapeConcat(a: string, b: string)
    ensures EscapeHtml(a + b) == EscapeHtml(a) + EscapeHtml(b)
  {
    if a != [] {
      assert (a + b)[1..] == a[1..] + b;
      EscapeConcat(a[1..], b);
    } else {
      assert a + b == b;
    }
  }

  /** Text without any of the five characters is left as it is. */
  lemma {:induction false} EscapePlain(s: string)
    requires forall i :: 0 <= i < |s| ==> !IsSpecial(s[i])
    ensures EscapeHtml(s) == s
  {
    if s != [] {
      EscapePlain(s[1..]);
    }
  }

  /** The character an entity at the start of `s` stands for, and the entity's length. */
  function EntityAt(s: string): (r: Option<(char, nat)>)
    ensures r.Some? ==> 1 <= r.value.1 <= |s|
  {
    if |s| < 2 || s[0] != '&' then None
    else if s[1] == 'a' && |s| >= 5 && s[..5] == "&amp;" then Some(('&', 5))
    else if s[1] == 'l' && |s| >= 4 && s[..4] == "&lt;" then Some(('<', 4))
    else if s[1] == 'g' && |s| >= 4 && s[..4] == "&gt;" then Some(('>', 4))
    else if s[1] == 'q' && |s| >= 6 && s[..6] == "&quot;" then Some(('"', 6))
    else if s[1] == '#' && |s| >= 5 && s[..5] == "&#39;" then Some(('\'', 5))
    else None
  }

  /** An HTML reader's decoding of the five entities `escapeHtml` writes; other text is kept. */
  function Unescape(s: string): string
    decreases |s|
  {
    if s == [] then []
    else match EntityAt(s)
      case Some((c, n)) => [c] + Unescape(s[n..])
      case None => [s[0]] + Unescape(s[1..])
  }

  /** Decoding reads one character back from its entity. */
  lemma UnescapeEntity(c: char, t: string)
    ensures Unescape(Entity(c) + t) == [c] + Unescape(t)
  {
    var e := Entity(c);
    var s := e + t;
    assert s[..|e|] == e && s[|e|..] == t;
    if !IsSpecial(c) {
      assert s[0] == c;
      assert s[1..] == t;
    } else {
      assert s[0] == '&' && s[1] == e[1];
      assert EntityAt(s) == Some((c, |e|));
    }
  }

  /** The page shows exactly the text that was escaped: decoding undoes `escapeHtml`. */
  lemma {:induction false} EscapeRoundTrip(s: string)
    ensures Unescape(EscapeHtml(s)) == s
  {
    if s != [] {
      UnescapeEntity(s[0], EscapeHtml(s[1..]));
      EscapeRoundTrip(s[1..]);
      assert [s[0]] + s[1..] == s;
    }
  }

  // ---------------- messages and requests ----------------

  /** An entry of `state.messages`. */
  datatype Message = Message(role: string, content: string, time: string)

  /** An entry of the request's `messages`. */
  datatype Outgoing = Outgoing(role: string, content: string)

  /** The `fetch` call `sendMessage` makes: URL, optional bearer header, model, messages (`stream` is always false). */
  datatype Request = Request(url: string, authorization: Option<string>, model: string, messages: seq<Outgoing>)

  /**
   * How the request ended: `Failed` when `fetch` rejects, the status is not OK or the body is
   * not JSON; otherwise `Answered` with `choices[0].message.content` when there is one.
   */
  datatype FetchOutcome = Failed | Answered(content: Option<string>)

  const PLACEHOLDER := "… جارٍ المعالجة …"
  const NO_REPLY := "لم يصل رد من النموذج."
  const FAILURE_REPLY := "تعذر الحصول على رد. تحقق من OpenRouter / المفتاح / النموذج."
  const SETTINGS_TOAST := "ضبط الإعدادات أولاً: API Base و Model"
  const CLEARED_TOAST := "تم مسح المحادثة"
  const SAVED_TOAST := "تم الحفظ"
  const DEFAULT_API_BASE := "https://openrouter.ai/api/v1"
  const DEFAULT_MODEL := "qwen/qwen-2.5-72b-instruct"

  /** `parts.filter(Boolean)` for strings: the non-empty ones, in order. */
  function NonEmpty(parts: seq<string>): (r: seq<string>)
    ensures forall i :: 0 <= i < |r| ==> r[i] != []
    ensures |r| <= |parts|
  {
    if parts == [] then []
    else (if parts[0] != [] then [parts[0]] else []) + NonEmpty(parts[1..])
  }

  /** `[text, extra].filter(Boolean).join("\n\n")`: the message the user sends. */
  function FinalUser(text: string, extra: string): (r: string)
  {
    Join("\n\n", NonEmpty([text, extra]))
  }

  /** The user message is empty only when both parts are, and otherwise joins the non-empty ones. */
  lemma FinalUserParts(text: string, extra: string)
    ensures FinalUser(text, extra) == [] <==> text == [] && extra == []
    ensures text == [] ==> FinalUser(text, extra) == extra
    ensures extra == [] ==> FinalUser(text, extra) == text
    ensures text != [] && extra != [] ==> FinalUser(text, extra) == text + "\n\n" + extra
  {
    assert [text, extra][1..] == [extra];
    assert NonEmpty([extra]) == (if extra != [] then [extra] else []) + NonEmpty([]);
    if text != [] && extra != [] {
      var both := [text, extra];
      assert NonEmpty([text, extra]) == both;
      assert both[1..] == [extra];
      assert Join("\n\n", both) == text + "\n\n" + Join("\n\n", [extra]);
    }
  }

  /** The stored messages a request carries: every one not from the assistant, as role and content. */
  function History(messages: seq<Message>): (r: seq<Outgoing>)
    ensures |r| <= |messages|
    ensures forall i :: 0 <= i < |r| ==> r[i].role != "assistant"
  {
    if messages == [] then []
    else
      var m := messages[|messages| - 1];
      History(messages[..|messages| - 1]) + (if m.role != "assistant" then [Outgoing(m.role, m.content)] else [])
  }

  /** The history keeps the stored order: the messages before a given one come first. */
  lemma {:induction false} HistoryConcat(a: seq<Message>, b: seq<Message>)
    ensures History(a + b) == History(a) + History(b)
    decreases |b|
  {
    if b == [] {
      assert a + b == a;
    } else {
      var last := b[|b| - 1];
      assert (a + b)[..|a + b| - 1] == a + b[..|b| - 1];
      HistoryConcat(a, b[..|b| - 1]);
    }
  }

  /** The request's messages: the system prompt if there is one, the stored history, then the user message. */
  function RequestMessages(system: string, stored: seq<Message>, finalUser: string): (r: seq<Outgoing>)
    ensures |r| == (if system != "" then 1 else 0) + |History(stored)| + 1
    ensures r[|r| - 1] == Outgoing("user", finalUser)
    ensures system != "" ==> r[0] == Outgoing("system", system)
    ensures forall i :: 0 <= i < |r| ==> r[i].role != "assistant"
  {
    (if system != "" then [Outgoing("system", system)] else []) + History(stored) + [Outgoing("user", finalUser)]
  }

  /**
   * By the time the request is built the user message is already stored, so the request
   * carries it twice: once from the stored history and once more, last.
   */
  lemma UserMessageTwice(system: string, before: seq<Message>, finalUser: string, userTime: string)
    ensures var r := RequestMessages(system, before + [Message("user", finalUser, userTime)], finalUser);
      |r| >= 2 && r[|r| - 2] == r[|r| - 1] == Outgoing("user", finalUser) &&
      r == RequestMessages(system, before, finalUser) + [Outgoing("user", finalUser)]
  {
    var user := Message("user", finalUser, userTime);
    var stored := before + [user];
    assert stored[..|stored| - 1] == before;
  }

  /** The assistant placeholder stored while the reply is pending never reaches the request. */
  lemma PlaceholderNotSent(stored: seq<Message>, placeholderTime: string)
    ensures History(stored + [Message("assistant", PLACEHOLDER, placeholderTime)]) == History(stored)
  {
    var s := stored + [Message("assistant", PLACEHOLDER, placeholderTime)];
    assert s[..|s| - 1] == stored;
  }

  /** `apiBase.replace(/\/+$/, "") + "/chat/completions"`. */
  function Endpoint(apiBase: string): (url: string)
  {
    RStrip(apiBase, '/') + "/chat/completions"
  }

  /** Trailing slashes on the base do not change the endpoint. */
  lemma EndpointIgnoresSlashes(apiBase: string, k: nat)
    requires apiBase == [] || apiBase[|apiBase| - 1] != '/'
    ensures Endpoint(apiBase + Repeat('/', k)) == apiBase + "/chat/completions"
  {
    RStripAppended(apiBase, '/', k);
  }

  /** The assistant's reply: the model's content, or a fixed text when it is missing, empty or the request failed. */
  function ReplyText(outcome: FetchOutcome): (reply: string)
    ensures reply != []
    ensures outcome.Answered? && outcome.content.Some? && outcome.content.value != [] ==> reply == outcome.content.value
    ensures outcome.Answered? && (outcome.content.None? || outcome.content.value == []) ==> reply == NO_REPLY
    ensures outcome.Failed? ==> reply == FAILURE_REPLY
  {
    match outcome
    case Failed => FAILURE_REPLY
    case Answered(Some(content)) => if content != [] then content else NO_REPLY
    case Answered(None) => NO_REPLY
  }

  /** The settings a request is made with, trimmed. */
  datatype Config = Config(apiBase: string, apiKey: string, model: string, systemPrompt: string)

  /** The trimmed settings, or nothing when the base URL or the model is blank. */
  function Settings(apiBase: string, apiKey: string, model: string, systemPrompt: string): (c: Option<Config>)
    ensures c.Some? <==> Trim(apiBase) != [] && Trim(model) != []
    ensures c.Some? ==> c.value.apiBase != [] && c.value.model != []
  {
    var base, mdl := Trim(apiBase), Trim(model);
    if base == [] || mdl == [] then None else Some(Config(base, Trim(apiKey), mdl, Trim(systemPrompt)))
  }

  /** The user message to send for the input box and the extra text, or nothing when both are blank. */
  function UserText(input: string, extra: string): (u: Option<string>)
    ensures u.None? <==> Trim(input) == [] && extra == []
    ensures u.Some? ==> u.value != []
  {
    var text := Trim(input);
    if text == [] && extra == [] then None
    else
      FinalUserParts(text, extra);
      Some(FinalUser(text, extra))
  }

  /** The request for the stored conversation and the user message under the given settings. */
  function RequestFor(c: Config, stored: seq<Message>, finalUser: string): (r: Request)
    ensures r.url == Endpoint(c.apiBase) && r.model == c.model
    ensures r.authorization.Some? <==> c.apiKey != []
    ensures |r.messages| >= 1 && r.messages[|r.messages| - 1] == Outgoing("user", finalUser)
  {
    Request(Endpoint(c.apiBase), if c.apiKey != [] then Some("Bearer " + c.apiKey) else None, c.model,
            RequestMessages(c.systemPrompt, stored, finalUser))
  }

  /** The request built while the placeholder is stored is the one for the conversation without it. */
  lemma RequestSkipsPlaceholder(c: Config, stored: seq<Message>, placeholderTime: string, finalUser: string)
    ensures RequestFor(c, stored + [Message("assistant", PLACEHOLDER, placeholderTime)], finalUser) ==
            RequestFor(c, stored, finalUser)
  {
    PlaceholderNotSent(stored, placeholderTime);
  }

  /** A settings field as saved: trimmed, or the fallback when it is blank. */
  function WithDefault(field: string, fallback: string): (v: string)
    ensures Trim(field) != [] ==> v == Trim(field)
    ensures Trim(field) == [] ==> v == fallback
  {
    var t := Trim(field);
    if t != [] then t else fallback
  }

  /**
   * Saved settings are used as saved: a request made right after saving sees the trimmed
   * fields, with the default base URL and model in place of blank ones, unchanged.
   */
  lemma SavedSettingsUsed(baseField: string, keyField: string, modelField: string, promptField: string)
    ensures var base, key := WithDefault(baseField, DEFAULT_API_BASE), Trim(keyField);
      var mdl, prompt := WithDefault(modelField, DEFAULT_MODEL), Trim(promptField);
      Settings(base, key, mdl, prompt) == Some(Config(base, key, mdl, prompt))
  {
    var base, key := WithDefault(baseField, DEFAULT_API_BASE), Trim(keyField);
    var mdl, prompt := WithDefault(modelField, DEFAULT_MODEL), Trim(promptField);
    assert DEFAULT_API_BASE[0] == 'h' && DEFAULT_API_BASE[|DEFAULT_API_BASE| - 1] == '1';
    assert DEFAULT_MODEL[0] == 'q' && DEFAULT_MODEL[|DEFAULT_MODEL| - 1] == 't';
    TrimTrimmed(base);
    TrimTrimmed(key);
    TrimTrimmed(mdl);
    TrimTrimmed(prompt);
  }

  // ---------------- the client state ----------------

  /** The settings and messages of `state` (the pending file is not modelled). */
  class ChatState {
    var apiBase: string
    var apiKey: string
    var model: string
    var systemPrompt: string
    var messages: seq<Message>

    /** The initial `state`: no settings, no messages. */
    constructor ()
      ensures apiBase == "" && apiKey == "" && model == "" && systemPrompt == "" && messages == []
    {
      apiBase := "";
      apiKey := "";
      model := "";
      systemPrompt := "";
      messages := [];
    }

    /** `appendMessage` without `skipPush`: the message goes at the end of the list. */
    method AppendMessage(role: string, content: string, time: string)
      modifies this
      ensures messages == old(messages) + [Message(role, content, time)]
      ensures apiBase == old(apiBase) && apiKey == old(apiKey) && model == old(model) && systemPrompt == old(systemPrompt)
    {
      messages := messages + [Message(role, content, time)];
    }

    /**
     * `sendMessage(extra)` with the input box holding `input`: nothing happens when the trimmed
     * input and `extra` are both empty; otherwise the user message is stored, and when the
     * client is not configured a toast is all that follows. Otherwise a placeholder is stored,
     * the request built and sent, the placeholder popped and the reply (or the failure text)
     * stored. The three clock readings are parameters.
     */
    method SendMessage(input: string, extra: string, outcome: FetchOutcome,
                       userTime: string, placeholderTime: string, replyTime: string)
      returns (request: Option<Request>, toast: Option<string>)
      modifies this
      ensures apiBase == old(apiBase) && apiKey == old(apiKey) && model == old(model) && systemPrompt == old(systemPrompt)
      ensures UserText(input, extra).None? ==>
        messages == old(messages) && request.None? && toast.None?
      ensures UserText(input, extra).Some? && Settings(old(apiBase), old(apiKey), old(model), old(systemPrompt)).None? ==>
        messages == old(messages) + [Message("user", UserText(input, extra).value, userTime)] &&
        request.None? && toast == Some(SETTINGS_TOAST)
      ensures UserText(input, extra).Some? && Settings(old(apiBase), old(apiKey), old(model), old(systemPrompt)).Some? ==>
        messages == old(messages) + [Message("user", UserText(input, extra).value, userTime),
                                     Message("assistant", ReplyText(outcome), replyTime)] &&
        toast.None?
      ensures UserText(input, extra).Some? && Settings(old(apiBase), old(apiKey), old(model), old(systemPrompt)).Some? ==>
        request == Some(RequestFor(Settings(old(apiBase), old(apiKey), old(model), old(systemPrompt)).value,
                                   old(messages) + [Message("user", UserText(input, extra).value, userTime)],
                                   UserText(input, extra).value))
    {
      var finalUser := UserText(input, extra);
      if finalUser.None? {
        return None, None;
      }
      var config := Settings(apiBase, apiKey, model, systemPrompt);
      AppendMessage("user", finalUser.value, userTime);
      if config.None? {
        return None, Some(SETTINGS_TOAST);
      }
      var sent := Exchange(config.value, finalUser.value, outcome, placeholderTime, replyTime);
      request := Some(sent);
      toast := None;
    }

    /**
     * The exchange with the model once the user message is stored: a placeholder is shown while
     * the request is pending, then replaced by the reply or by the failure text.
     */
    method Exchange(config: Config, finalUser: string, outcome: FetchOutcome, placeholderTime: string, replyTime: string)
      returns (request: Request)
      modifies this
      ensures apiBase == old(apiBase) && apiKey == old(apiKey) && model == old(model) && systemPrompt == old(systemPrompt)
      ensures messages == old(messages) + [Message("assistant", ReplyText(outcome), replyTime)]
      ensures request == RequestFor(config, old(messages), finalUser)
    {
      AppendMessage("assistant", PLACEHOLDER, placeholderTime);
      RequestSkipsPlaceholder(config, old(messages), placeholderTime, finalUser);
      request := RequestFor(config, messages, finalUser);
      messages := messages[..|messages| - 1];
      assert messages == old(messages);
      AppendMessage("assistant", ReplyText(outcome), replyTime);
    }

    /** The clear button: the message list is emptied and the settings are kept. */
    method Clear() returns (toast: string)
      modifies this
      ensures messages == []
      ensures apiBase == old(apiBase) && apiKey == old(apiKey) && model == old(model) && systemPrompt == old(systemPrompt)
      ensures toast == CLEARED_TOAST
    {
      messages := [];
      toast := CLEARED_TOAST;
    }

    /**
     * The save button: the trimmed fields, with the default base URL and model for blank ones,
     * so the client is configured afterwards.
     */
    method SaveSettings(baseField: string, keyField: string, modelField: string, promptField: string)
      returns (toast: string)
      modifies this
      ensures apiBase == WithDefault(baseField, DEFAULT_API_BASE) && model == WithDefault(modelField, DEFAULT_MODEL)
      ensures apiKey == Trim(keyField) && systemPrompt == Trim(promptField)
      ensures messages == old(messages)
      ensures toast == SAVED_TOAST
    {
      apiBase := WithDefault(baseField, DEFAULT_API_BASE);
      apiKey := Trim(keyField);
      model := WithDefault(modelField, DEFAULT_MODEL);
      systemPrompt := Trim(promptField);
      toast := SAVED_TOAST;
    }
  }
}
