# A verified model of the agent backend and the mobile chat client

This project is a Dafny model of the core of the "AtheerGAI" agent. The agent is a Python backend plus a
browser/mobile chat client. The model covers:

- **Tools** (`Registry`, registry.dfy): the 16-tool catalogue and the plan ranking free < premium <
  enterprise. It models the binding of keyword arguments to each implementation, the mock and live
  implementations (the provider's answer is an input), and the gated entry point `execute_tool`. The
  gates are "unknown tool", then "plan too low", then "needs confirmation". The entry point also
  settles time and cost and keeps the execution history. `ToolManager` is a class whose `history`
  field `ExecuteTool` appends to.
- **Memory** (`Memory`, memory.dfy; `Store`, store.dfy): the in-process short-term list, a class with
  `LPush`, `LTrim` and `LRange`, and the 10-item window that `add_short_term` keeps. It also models
  the persona-preference dictionary under `prefs:{user}:{persona}` keys and the conversation-summary
  table. The summary table has "update the latest row or add one" semantics. `build_full_context`
  ties these together.
- **Personas** (`Persona`, persona.dfy): the default profile, the database override, and the merge
  of stored preferences (tone and blocked tools).
- **Orchestrator** (`Orchestrator`, orchestrator.dfy): the keyword planner and the persona's
  blocked-tool filter. It also models sequential plan execution, the two reply composers, the
  conversation summary, and `handle_message`, which runs these steps in a fixed order over the
  class `AgentOrchestrator`.
- **Authentication** (`Security`, security.dfy; `Base64Url`, base64url.dfy): PBKDF2 password hashes
  in the `pbkdf2$iterations$salt$key` format, and HS256-style tokens `header.body.signature`.
  Both use unpadded URL-safe Base64 (RFC 4648 section 5). The hash functions, UTF-8 and JSON are
  supplied as opaque functions.
- **Mobile client** (`ChatClient`, mobile.dfy): `escapeHtml` and an unescaping partner, and the
  chat state as a class with `messages` and four settings. `sendMessage` is modelled with its
  early returns, its placeholder, the request it sends and the reply or failure text that replaces
  the placeholder. Clearing the conversation and saving the settings are modelled too.

Shared support lives in three modules:

- `Wrappers`: `Option`, and `Outcome` for "returned a value or raised an exception".
- `Text`: Python and JavaScript string operations with their index clamping, `strip`, `split`,
  `split(sep, n)`, `join`, `lower` and decimal `int`/`str`.
- `Values`: JSON values, with dicts as ordered key/value lists, and `json.dumps`/`json.loads`/`str`
  as supplied functions.

Outside inputs become parameters: clocks, provider answers, the language-model call, `fetch`
results and time stamps.

## Model

| member | source | states |
|---|---|---|
| Registry.PlanRank | backend/app/tools/registry.py:42-46 | The rank is at most 2, and an unknown plan ranks as "free". |
| Registry.PlanAllowsMonotone | backend/app/tools/registry.py:45-46 | A plan ranked at least as high as one that is allowed is also allowed. |
| Registry.PlanOrder | backend/app/tools/registry.py:42-46 | free < premium < enterprise. An unknown plan behaves as free: enterprise allows it, and it allows only free tools. |
| Registry.FindIn | backend/app/tools/registry.py:521-523 | A found tool has the name asked for; on None, no tool in the list has that name. |
| Registry.NamesDistinct | backend/app/tools/registry.py:60-190 | There are 16 tools with pairwise distinct names. |
| Registry.ToolNamedExact | backend/app/tools/registry.py:521-523 | A name is not found exactly when no tool has it. |
| Registry.ToolNamedInverse | backend/app/tools/registry.py:60-190 | Looking up a tool's own name finds that tool. |
| Registry.FindInUnique | backend/app/tools/registry.py:60-190 | In a list with distinct names, searching for an element's name finds that element. |
| Registry.CatalogueFlags | backend/app/tools/registry.py:60-190 | Only code execution requires confirmation; every cost is positive; every required plan is a ranked plan. |
| Registry.ListTools | backend/app/tools/registry.py:192-203 | Every configuration is listed once, in catalogue order, and no name repeats. |
| Registry.Bind | backend/app/tools/registry.py:533 | Binding succeeds exactly when every keyword names a parameter other than `self`; on success the arguments follow the signature's order. |
| Registry.BadKeywordFound | backend/app/tools/registry.py:533 | No TypeError for a bad keyword exactly when all keywords are parameters and none is `self`. |
| Registry.MissingComplete | backend/app/tools/registry.py:533 | No parameter is reported missing exactly when every required parameter is given. |
| Registry.LiveResult | backend/app/tools/registry.py:239-245 | A live call succeeds exactly when the provider answered; a failure costs half. |
| Registry.MockHitsUpTo | backend/app/tools/registry.py:247-260 | The mock returns min(2, n) hits for n ≥ 0, and both hits for None. Slicing by a non-number raises. |
| Registry.MockTranslation | backend/app/tools/registry.py:363-369 | The mock translation of text is `[target] text`. |
| Registry.InvokeChargesPositiveCost | backend/app/tools/registry.py:207-510 | An implementation that returns always charges: the listed cost on success, half of it on failure. |
| Registry.RunChargesPositiveCost | backend/app/tools/registry.py:207-510 | The same, for the implementation body once the arguments are bound. |
| Registry.CoreToolsCharge | backend/app/tools/registry.py:207-369 | The same, for search, image generation, data analysis and translation. |
| Registry.SandboxToolsCharge | backend/app/tools/registry.py:371-389 | The same, for code execution and file processing. |
| Registry.WorkflowToolsCharge | backend/app/tools/registry.py:391-410 | The same, for voice processing and automation. |
| Registry.MediaToolsCharge | backend/app/tools/registry.py:412-430 | The same, for video generation and advanced analytics. |
| Registry.IntegrationToolsCharge | backend/app/tools/registry.py:432-470 | The same, for API calls and database queries. |
| Registry.OutreachToolsCharge | backend/app/tools/registry.py:472-510 | The same, for e-mail, calendar, social media and e-commerce. |
| Registry.MockSearchHits | backend/app/tools/registry.py:247-260 | Without live search, `num_results = n` yields the query and min(2, n) mock hits, at full cost. |
| Registry.MockTranslationText | backend/app/tools/registry.py:363-369 | Without a live translator, the result is `[target] text` at full cost. |
| Registry.Settle | backend/app/tools/registry.py:534-537 | Success, data and error are kept. A zero time becomes the outer time, and a zero cost becomes the listed cost. |
| Registry.UnknownToolRejected | backend/app/tools/registry.py:521-523 | An unknown name is refused with "not found", nothing is logged, and no cost is charged. |
| Registry.PlanGateFirst | backend/app/tools/registry.py:525-526 | If the plan is too low, the call is refused before confirmation or any work, and nothing is logged. |
| Registry.ConfirmationGate | backend/app/tools/registry.py:528-529 | An allowed tool that needs confirmation is refused without it. |
| Registry.GateIgnoresImplementation | backend/app/tools/registry.py:521-529 | A gated call's result depends on neither the arguments nor the outside world; it costs nothing and takes no time. |
| Registry.RaisedHalfCost | backend/app/tools/registry.py:548-554 | An implementation that raises gives a failed result carrying the error, at half cost, and is not logged. |
| Registry.LoggedIffReturned | backend/app/tools/registry.py:539-546 | The history grows by exactly one entry, describing the final result, exactly when a dispatched implementation returns. |
| Registry.AutomationNeedsPremium | backend/app/tools/registry.py:121 | A free caller cannot run automation, even with confirmation. |
| Registry.CodeExecutionNeedsConfirmation | backend/app/tools/registry.py:99 | Even an enterprise caller needs confirmation for code execution. |
| Registry.ToolManager.ExecuteTool | backend/app/tools/registry.py:514-554 | The result and the appended history are those of `Execute`, the gated specification. |
| Memory.Reverse | backend/app/memory/context_manager.py:42-43 | Element i of the result is element n-1-i of the input. |
| Memory.Dumped | backend/app/memory/context_manager.py:101 | Each message is serialised in place. |
| Memory.DecodeDumped | backend/app/memory/context_manager.py:113-117 | Decoding serialised messages gives them back, for any messages Python can hold. |
| Memory.Pushed | backend/app/memory/context_manager.py:99-107 | After a push the list holds the new item first, then the old items, at most 10 in all. |
| Memory.PushedAllWindow | backend/app/memory/context_manager.py:99-107 | After any number of pushes the list holds the 10 newest items, newest first. |
| Memory.ShortTermRecall | backend/app/memory/context_manager.py:109-118 | Reading back the last n messages gives the newest max(1, n) of them, up to 10, newest first, for any messages Python can hold. |
| Memory.InMemoryList.LPush | backend/app/memory/context_manager.py:42-43 | The value is inserted at the front. |
| Memory.InMemoryList.LTrim | backend/app/memory/context_manager.py:45-46 | The items become the slice from start to end, inclusive. |
| Memory.InMemoryList.LRange | backend/app/memory/context_manager.py:48-49 | A range from 0 is the first end+1 items. |
| Memory.SeparatedInjective | backend/app/memory/context_manager.py:154 | Two joins with a separator that the first parts lack agree only if the parts agree. |
| Memory.PrefKeyInjective | backend/app/memory/context_manager.py:154 | For user ids without ':', distinct (user, persona) pairs get distinct keys. |
| Memory.PrefKeyCollision | backend/app/memory/context_manager.py:154 | A user id containing ':' can share a key with another pair. |
| Memory.PrefLookup | backend/app/memory/context_manager.py:161-172 | An absent key gives None, and a value found is what loading the stored text gives. |
| Memory.PrefRoundTrip | backend/app/memory/context_manager.py:153-172 | Reading preferences back after setting them gives the same preferences, for any preferences Python can hold. |
| Memory.PrefIsolated | backend/app/memory/context_manager.py:153-172 | Setting one pair's preferences leaves every other pair's unchanged, for user ids without ':'. |
| Memory.ChosenSummary | backend/app/memory/context_manager.py:225-232 | A stored non-empty summary is used; otherwise the placeholder with the message count is used. It is never empty. |
| Memory.ContextOf | backend/app/memory/context_manager.py:220-240 | The recent messages are the decodable ones among the first five stored, so at most 5, and there is no relevant history. It holds the "aether" preferences and the chosen summary. The token estimate is the word count of `str(recent)` plus that of the query. |
| Memory.ContextRecall | backend/app/memory/context_manager.py:220-240 | The context's recent messages are the newest five recorded, newest first, for any messages Python can hold. |
| Memory.ContextualMemory.AddShortTerm | backend/app/memory/context_manager.py:99-107 | The list becomes the pushed and trimmed window. |
| Memory.ContextualMemory.GetShortTerm | backend/app/memory/context_manager.py:109-118 | The result is the decodable items among the first max(0, n-1)+1 items, so at most max(1, n) messages. |
| Memory.ContextualMemory.VectorSearch | backend/app/memory/context_manager.py:132-134 | The disabled vector store finds nothing. |
| Memory.ContextualMemory.SetPersonaPreference | backend/app/memory/context_manager.py:153-159 | The pair's key maps to the serialised preferences, and nothing else changes. |
| Memory.ContextualMemory.GetPersonaPreference | backend/app/memory/context_manager.py:161-172 | Reads the pair's stored preferences. |
| Memory.ContextualMemory.SaveConversationSummary | backend/app/memory/context_manager.py:176-205 | A reachable database gets the conversation's latest row updated, or a new row. An unreachable one raises and is left unchanged. |
| Memory.ContextualMemory.GetConversationSummary | backend/app/memory/context_manager.py:207-216 | The result is the latest row's text for the conversation, or a raise when the database is unreachable. |
| Memory.ContextualMemory.BuildFullContext | backend/app/memory/context_manager.py:220-240 | The result is the context of the current window, preferences and stored summary. |
| Store.LatestIndex | backend/app/memory/context_manager.py:187-192 | The chosen row is the last one for the conversation; None exactly when there is none. |
| Store.SaveThenGet | backend/app/memory/context_manager.py:176-216 | After a save, the conversation's summary is the text saved. |
| Store.LatestIsLast | backend/app/memory/context_manager.py:187-192 | The last matching row is the latest. |
| Store.SaveIsolated | backend/app/memory/context_manager.py:193-203 | Saving one conversation's summary leaves every other conversation's unchanged. |
| Store.SaveGrowsOnlyWhenNew | backend/app/memory/context_manager.py:193-203 | The table gains a row exactly when the conversation had none. |
| Store.SaveIdempotent | backend/app/memory/context_manager.py:193-203 | Saving the same summary twice is the same as saving it once. |
| Store.FirstPersona | backend/app/persona/manager.py:56-66 | The row found belongs to the user and has the name; None exactly when no row matches. |
| Store.Database.constructor | backend/app/memory/context_manager.py:176-216 | A database holding the given summary and persona rows. |
| Persona.DefaultProfile | backend/app/persona/manager.py:48-53 | The profile has the requested id, or "aether" for an empty one, with the default name, prompt and policy. |
| Persona.ApplyOverride | backend/app/persona/manager.py:67-69 | The name comes from the row. The description replaces the prompt only when it is non-empty. Id and policy are kept. |
| Persona.ApplyPreferences | backend/app/persona/manager.py:84-95 | It raises exactly for non-dict preferences. A tone is appended to the prompt, blocked tools replace the policy's list, and id and name are kept. |
| Persona.MergeDefault | backend/app/persona/manager.py:46-82 | Without a row or preferences, the result is the default profile. |
| Persona.MergeKeepsId | backend/app/persona/manager.py:46-82 | Loading never changes the persona id, and falsy preferences change nothing. |
| Persona.MergeRaisesOnlyForNonDict | backend/app/persona/manager.py:74-80 | Loading raises exactly for truthy, non-dict stored preferences. |
| Persona.LoadPersona | backend/app/persona/manager.py:46-82 | The result is the default, then the database override, then the preferences. |
| Persona.OverrideNameIsRequested | backend/app/persona/manager.py:56-66 | An override row is the user's row named after the requested persona. |
| Orchestrator.PlanFor | backend/app/agent/orchestrator.py:44-58 | At most three calls, in the order search, translation, analysis; each is present exactly when its group was found, and none is confirmed. |
| Orchestrator.RuleBasedPlan | backend/app/agent/orchestrator.py:41-58 | Each call is planned exactly when one of its keywords occurs in the stripped, lower-cased message; the order and bounds are those of PlanFor. |
| Orchestrator.NoKeywordNoPlan | backend/app/agent/orchestrator.py:41-58 | A message with no keyword gets an empty plan. |
| Orchestrator.PlanDependsOnNormalisedText | backend/app/agent/orchestrator.py:43 | Messages that normalise alike are planned for the same tools. |
| Orchestrator.PlanForNames | backend/app/agent/orchestrator.py:47-56 | The planned names depend only on which groups were found. |
| Orchestrator.Unblocked | backend/app/agent/orchestrator.py:172 | A call is kept exactly when it was planned and its name is not blocked. |
| Orchestrator.UnblockedKeepsOrder | backend/app/agent/orchestrator.py:172 | Filtering keeps the planner's order. |
| Orchestrator.FilterPlan | backend/app/agent/orchestrator.py:169-174 | Blocked names are dropped. An unhashable entry leaves the plan as it was, and so does an empty list. The order is kept. |
| Orchestrator.PlanExecutions | backend/app/agent/orchestrator.py:60-70 | There is one execution per planned call. |
| Orchestrator.PlanOutputs | backend/app/agent/orchestrator.py:60-70 | Each output is paired with its call, in plan order. |
| Orchestrator.LoggedStep | backend/app/agent/orchestrator.py:62-69 | Each further call appends its own history entries. |
| Orchestrator.PlanLogBound | backend/app/agent/orchestrator.py:60-70 | A plan logs at most one history entry per call. |
| Orchestrator.LoggedBound | backend/app/agent/orchestrator.py:60-70 | Executions that each log at most one entry log at most one per execution in all. |
| Orchestrator.Bullet | backend/app/agent/orchestrator.py:88-92 | A success reads `- name: data`. A failure starts `- name: خطأ: ` and is followed by its error text. Every line starts with "-". |
| Orchestrator.ReplyLines | backend/app/agent/orchestrator.py:74-98 | Greeting, message, then the results header and one bullet per output, in order, only when there are outputs. The count includes the note line. |
| Orchestrator.ReplyNoteIffRecent | backend/app/agent/orchestrator.py:94-96 | The reply ends with the memory note exactly when recent messages exist. |
| Orchestrator.Snippets | backend/app/agent/orchestrator.py:113-114 | There is one snippet per memory item when none raises. |
| Orchestrator.LlmMessages | backend/app/agent/orchestrator.py:119-129 | Four messages, opening with the persona prompt and ending with the user message. |
| Orchestrator.ComposeWithLlm | backend/app/agent/orchestrator.py:100-145 | Without the openai provider and a key, the deterministic reply. Otherwise the model's answer to the four messages. |
| Orchestrator.BriefOfMessage | backend/app/agent/orchestrator.py:191 | A stored message contributes `role:` and the first 80 characters of its content. |
| Orchestrator.BriefParts | backend/app/agent/orchestrator.py:190-191 | There is one part per recent message when none raises. |
| Orchestrator.PlanEntries | backend/app/agent/orchestrator.py:200 | There is one entry per planned call, with its name and parameters. |
| Orchestrator.OutputRecords | backend/app/agent/orchestrator.py:201-211 | There is one record per output, named after its call. |
| Orchestrator.AgentOrchestrator.constructor | backend/app/agent/orchestrator.py:34-37 | A fresh tool manager with empty history, and a fresh memory. |
| Orchestrator.AgentOrchestrator.ExecutePlan | backend/app/agent/orchestrator.py:60-70 | The outputs are PlanOutputs, and the history grows by the calls' entries, in order. |
| Orchestrator.AgentOrchestrator.RecordSummary | backend/app/agent/orchestrator.py:187-195 | The summary is saved when the database is reachable and the brief can be built. Otherwise the table is unchanged. |
| Orchestrator.AgentOrchestrator.Gather | backend/app/agent/orchestrator.py:162-181 | The user message is recorded, the context is built from the new window, and the plan is executed. |
| Orchestrator.AgentOrchestrator.Finish | backend/app/agent/orchestrator.py:183-215 | A failing composition stops before the reply is recorded, and the summary table is unchanged. Otherwise the reply is recorded, the response is built, and the summary table becomes SummariesAfter. |
| Orchestrator.AgentOrchestrator.Respond | backend/app/agent/orchestrator.py:162-215 | Gather then Finish, stated in terms of the starting state, including the summary table. |
| Orchestrator.AgentOrchestrator.HandleMessage | backend/app/agent/orchestrator.py:149-215 | A persona that fails to load changes nothing. Otherwise the filtered plan is executed and the user message is recorded. If composition fails, its error is returned, with the history grown and only the user message recorded. Otherwise the reply is composed over the context built after the user message. The response carries the reply, persona, plan and outputs, and the reply is recorded. The summary table becomes SummariesAfter. |
| Security.Pbkdf2 | backend/app/auth/security.py:36 | PBKDF2 returns exactly for 1 ≤ iterations ≤ INT_MAX. |
| Security.HashPassword | backend/app/auth/security.py:33-37 | The stored form holds the iteration count, the salt and the derived key; it raises exactly when PBKDF2 does. |
| Security.HashStringFields | backend/app/auth/security.py:37-42 | The stored form splits at its first three `$` back into scheme, count, salt and key. |
| Security.VerifyPassword | backend/app/auth/security.py:40-51 | Acceptance implies four fields, the pbkdf2 scheme and a valid count. It also implies that salt and key decode and that the derived key equals the stored one. |
| Security.VerifyReadFields | backend/app/auth/security.py:40-51 | For well-formed fields, acceptance means the derived key equals the stored key. |
| Security.VerifyFields | backend/app/auth/security.py:37-51 | Verifying against a stored form built from fields compares derived keys. |
| Security.HashThenVerify | backend/app/auth/security.py:33-51 | A fresh hash accepts exactly the passwords that derive the same key, in particular the original. |
| Security.TokenBody | backend/app/auth/security.py:57-59 | `exp` is now+ttl. An existing `iat` is kept, otherwise it is now. Other keys are copied. |
| Security.TokenExpiry | backend/app/auth/security.py:59 | The body's `exp` reads back as now+ttl. |
| Security.IntOf | backend/app/auth/security.py:77 | `int()` of a number is that number and of a string its decimal parse; lists, dicts and None fail. |
| Security.VerifyToken | backend/app/auth/security.py:69-81 | An accepted token has three segments and a matching signature. Its result is the decoded body, and its `exp` is not yet past. A body that does not decode to a dict gives None. A correctly signed token with such a body and an unexpired `exp` gives that body. |
| Security.BodyOf | backend/app/auth/security.py:76 | A body found is what loading the UTF-8 text of the decoded segment gives. |
| Security.TokenBodyWellFormed | backend/app/auth/security.py:57-59 | The token body made from a Python dict is a Python dict. |
| Security.TokenSegments | backend/app/auth/security.py:61-66 | A token splits back into header, body and signature segments. |
| Security.VerifyReadToken | backend/app/auth/security.py:69-81 | A token with a matching signature and an unexpired body is accepted. |
| Security.TokenDecodes | backend/app/auth/security.py:61-76 | The segments of a created token decode back to the encoded texts and the signature. |
| Security.CreateThenVerify | backend/app/auth/security.py:54-81 | For any payload dict, a created token verifies to its body until `exp` and is refused after it. |
| Security.OtherSecretRefused | backend/app/auth/security.py:64-75 | Another secret is accepted only if it gives the same HMAC. |
| Base64Url.CharOf | backend/app/auth/security.py:24-25 | Every 6-bit value maps to a URL-safe character. |
| Base64Url.ValueOf | backend/app/auth/security.py:28-30 | Exactly the URL-safe characters have a value, below 64. |
| Base64Url.ValueOfCharOf | backend/app/auth/security.py:24-30 | Decoding a character undoes encoding a value. |
| Base64Url.CharOfValueOf | backend/app/auth/security.py:24-30 | Encoding a value undoes decoding a character. |
| Base64Url.Quad | backend/app/auth/security.py:24-25 | Three bytes give four URL-safe characters. |
| Base64Url.Unpadded | backend/app/auth/security.py:24-25 | The output has ⌈4n/3⌉ URL-safe characters. |
| Base64Url.StdEncode | backend/app/auth/security.py:25 | The padded encoding is a multiple of four long. |
| Base64Url.EncodedLength | backend/app/auth/security.py:25-29 | The padding that was stripped is exactly what decoding adds back. |
| Base64Url.EncodeIsUnpadded | backend/app/auth/security.py:24-25 | The encoding has no `=`, `.` or `$`, so it is safe inside tokens and hash strings. |
| Base64Url.PadLength | backend/app/auth/security.py:29 | Decoding adds fewer than four `=` and reaches a multiple of four. |
| Base64Url.DecodeQuad | backend/app/auth/security.py:30 | A group gives one to three bytes, fewer only for the last group. |
| Base64Url.QuadRoundTrip | backend/app/auth/security.py:24-30 | A full group decodes back to its three bytes. |
| Base64Url.OneByteRoundTrip | backend/app/auth/security.py:24-30 | A one-byte tail decodes back. |
| Base64Url.TwoBytesRoundTrip | backend/app/auth/security.py:24-30 | A two-byte tail decodes back. |
| Base64Url.StdEncodeStep | backend/app/auth/security.py:25 | The encoding proceeds group by group. |
| Base64Url.PaddingPeriodic | backend/app/auth/security.py:25 | The padding depends only on the length modulo 3. |
| Base64Url.StdDecodeStep | backend/app/auth/security.py:30 | The decoding proceeds group by group. |
| Base64Url.ShortRoundTrip | backend/app/auth/security.py:24-30 | One or two bytes decode back. |
| Base64Url.GroupRoundTrip | backend/app/auth/security.py:24-30 | A leading full group keeps the round trip. |
| Base64Url.StdRoundTrip | backend/app/auth/security.py:24-30 | Padded decoding undoes padded encoding. |
| Base64Url.RoundTrip | backend/app/auth/security.py:24-30 | Decoding undoes encoding for every byte string. |
| ChatClient.Entity | lordos-mobile/js/mobile.js:64-66 | Exactly the five special characters change. Each becomes an `&…;` entity free of `< > " '`. |
| ChatClient.EscapeHtml | lordos-mobile/js/mobile.js:64-66 | The result has no `< > " '` and is at least as long as the input. |
| ChatClient.EscapeConcat | lordos-mobile/js/mobile.js:64-66 | Escaping works character by character. |
| ChatClient.EscapePlain | lordos-mobile/js/mobile.js:64-66 | Text without special characters is unchanged. |
| ChatClient.UnescapeEntity | lordos-mobile/js/mobile.js:65 | Each entity reads back as its character. |
| ChatClient.EscapeRoundTrip | lordos-mobile/js/mobile.js:64-66 | Unescaping undoes escaping, so no text is lost. |
| ChatClient.NonEmpty | lordos-mobile/js/mobile.js:71 | Only non-empty parts are kept. |
| ChatClient.FinalUserParts | lordos-mobile/js/mobile.js:71 | The final text is empty exactly when both parts are. Otherwise it is the non-empty part alone, or both joined by a blank line. |
| ChatClient.History | lordos-mobile/js/mobile.js:94-96 | Stored messages are sent without the assistant's. |
| ChatClient.HistoryConcat | lordos-mobile/js/mobile.js:94-96 | The filter works message by message. |
| ChatClient.RequestMessages | lordos-mobile/js/mobile.js:90-98 | An optional system message, the non-assistant history, then the final user text. |
| ChatClient.UserMessageTwice | lordos-mobile/js/mobile.js:74-98 | Since the user message is stored first, the request carries it twice at its end. |
| ChatClient.PlaceholderNotSent | lordos-mobile/js/mobile.js:87-96 | The placeholder does not reach the request. |
| ChatClient.EndpointIgnoresSlashes | lordos-mobile/js/mobile.js:102 | Trailing slashes of the base make no difference to the URL. |
| ChatClient.ReplyText | lordos-mobile/js/mobile.js:111-119 | The reply is never empty. It is the model's content when that is non-empty, the no-reply text when the content is missing or empty, and the failure text when the request failed. |
| ChatClient.Settings | lordos-mobile/js/mobile.js:77-85 | Sending goes ahead exactly when the trimmed base and model are non-empty. |
| ChatClient.UserText | lordos-mobile/js/mobile.js:69-72 | Nothing is sent exactly when the trimmed input and the extra are both empty; otherwise the text is non-empty. |
| ChatClient.RequestFor | lordos-mobile/js/mobile.js:90-108 | The endpoint URL and the model, an Authorization header exactly when there is a key, and the user text last. |
| ChatClient.RequestSkipsPlaceholder | lordos-mobile/js/mobile.js:87-98 | The request built after the placeholder equals the one built before it. |
| ChatClient.WithDefault | lordos-mobile/js/mobile.js:164-166 | The trimmed field, or the default when it is blank. |
| ChatClient.SavedSettingsUsed | lordos-mobile/js/mobile.js:77-85 | Saved settings always configure sending, and they are used as saved. |
| ChatClient.ChatState.constructor | lordos-mobile/js/mobile.js:20-27 | Empty settings and no messages. |
| ChatClient.ChatState.AppendMessage | lordos-mobile/js/mobile.js:54-62 | The message is pushed, and the settings are kept. |
| ChatClient.ChatState.SendMessage | lordos-mobile/js/mobile.js:68-121 | With no text nothing changes. Without settings, only the user message is stored and the settings toast is shown. Otherwise the user message and the reply are stored, and the request is sent from the history before the placeholder. |
| ChatClient.ChatState.Exchange | lordos-mobile/js/mobile.js:87-119 | The placeholder is replaced by the reply, and the request is built from the history before it. |
| ChatClient.ChatState.Clear | lordos-mobile/js/mobile.js:160 | No messages remain, and the settings are kept. |
| ChatClient.ChatState.SaveSettings | lordos-mobile/js/mobile.js:163-171 | Base and model are trimmed with defaults, key and prompt are trimmed, and messages are kept. |
| Text.Slice | backend/app/memory/context_manager.py:46 | Python slicing for any integer bounds. Each bound is first counted from the end when negative and clamped to the length (ClampIndex). The result is the elements between the two bounds, in order, and empty when they cross. |
| Text.SliceLast | backend/app/agent/orchestrator.py:190 | `s[-n:]` for n ≥ 1 is the last n elements, or all of s when it is shorter. |
| Text.Prefix | backend/app/agent/orchestrator.py:191 | `s[:n]`, clamped to the length. |
| Text.Lower | backend/app/agent/orchestrator.py:43 | ASCII capitals are lowered character by character, so no ASCII capital is left. |
| Text.Trim | backend/app/agent/orchestrator.py:43 | The part of s left after its leading and trailing white space: everything before and after it is white space, and it neither starts nor ends with white space. It is empty exactly for all-space text. |
| Text.TrimTrimmed | lordos-mobile/js/mobile.js:164-167 | Stripping text already stripped changes nothing. |
| Text.RStrip | lordos-mobile/js/mobile.js:102 | The longest prefix that does not end with the character. |
| Text.RStripAppended | lordos-mobile/js/mobile.js:102 | Stripping a run of the character appended to a word gives the word back. |
| Text.Contains | backend/app/agent/orchestrator.py:47-55 | Contains holds exactly when the keyword occurs at some position. |
| Text.Words | backend/app/agent/orchestrator.py:191 | `split()` is empty exactly for all-space text, and every element is a non-empty run without white space. |
| Text.WordsCons | backend/app/agent/orchestrator.py:191 | A word followed by white space or the end is split off whole, as the first element. |
| Text.WordsAfterSpace | backend/app/agent/orchestrator.py:191 | White space before the first word does not change `split()`. |
| Text.WordsJoin | backend/app/agent/orchestrator.py:191 | `" ".join(ws).split()` gives back ws for any list of words. |
| Text.IndexOf | backend/app/auth/security.py:42 | The first occurrence of the character. |
| Text.SplitNCons | backend/app/auth/security.py:42 | Splitting at the first separator peels off the first field. |
| Text.SplitThree | backend/app/auth/security.py:71 | Three separated fields split back. |
| Text.SplitFour | backend/app/auth/security.py:42 | Four separated fields split back. |
| Text.SplitNNoSeparator | backend/app/auth/security.py:42 | Text without the separator is a single field. |
| Text.NatToString | backend/app/auth/security.py:37 | The decimal text has at least one digit and only digits. |
| Text.IntToString | backend/app/auth/security.py:37 | `%d` gives non-empty text without `.` or `$`. |
| Text.ParseInt | backend/app/auth/security.py:45 | Empty text is no number, and digits read as their value. |
| Text.DigitsRoundTrip | backend/app/auth/security.py:37-45 | Digits read back as the number written. |
| Text.ParseIntRoundTrip | backend/app/auth/security.py:37-45 | `int(str(i)) == i` for every integer. |
| Values.Keys | backend/app/auth/security.py:57 | Dict keys, in insertion order. |
| Values.Get | backend/app/auth/security.py:77 | A key is present exactly when it is among the keys, and its value is its entry. |
| Values.Put | backend/app/auth/security.py:59 | The key maps to the value, and every other key is unchanged. |
| Values.PutKeys | backend/app/auth/security.py:59 | Assigning an existing key keeps the key order, and a new key goes last. |
| Values.PutWellFormed | backend/app/auth/security.py:59 | Assigning a key in a Python dict gives a Python dict, with no key repeated. |
| Values.SetDefault | backend/app/auth/security.py:58 | A present key is kept as it is; an absent one is added. |
| Values.Len | backend/app/persona/manager.py:90-93 | `len` returns exactly for strings, lists and dicts. |
| Values.Str | backend/app/agent/orchestrator.py:90 | `str` of a string is the string itself. |

## Left out

- The Redis and Chroma back ends are left out. Memory is the in-process fallback: a list, a dict and
  a disabled vector store. `expire` does nothing. Only one short-term list exists per memory, so the
  `st:{user}` key is not modelled.
- Network calls are left out: live tool providers, the language-model HTTP call and the client's
  `fetch`. They are inputs (`LiveResponse`, `complete`, `FetchOutcome`), so timeouts and status codes
  are not modelled apart from success and failure.
- Clocks and randomness are inputs: `time.time()`, `perf_counter` in milliseconds, the 16-byte
  salt and the client's time stamps.
- PBKDF2, HMAC-SHA256, UTF-8 and JSON are opaque functions. The round-trip lemmas assume that
  loading what was dumped gives back any value Python can hold (`Values.RoundTrips`,
  `Security.Sound`). Such a value has no dict that repeats a key (`Values.WellFormed`). A `Json`
  dict that repeats a key has no Python counterpart, so WellFormed excludes no value a Python dict
  can become. `compare_digest` is modelled as plain equality
  (timing is not modelled). The hash function's own security is not modelled.
- Values.Json has no float case, although `json.loads` returns floats for text such as `1.5`, `1e9`
  or `NaN`. The model's JSON numbers are integers only, which covers the token times `iat` and
  `exp` that the core reads back.
- Base64Url.Decode is stricter than Python's decoder, which drops non-alphabet characters and also
  accepts `+` and `/`. A malformed string the model refuses may be accepted by the source.
- Text.IsSpace covers ASCII white space only. Python's `strip`/`split` and JavaScript's `trim` also
  treat Unicode spaces as white space.
- Text.Lower lowers ASCII letters only. Python's `str.lower()` also lowers other cased letters.
  All planner keywords are Arabic or lower-case ASCII, so no keyword match depends on the difference.
- Text.ParseInt reads an optional sign and digits only. Python's `int()` also accepts surrounding
  white space, underscores and non-ASCII decimal digits such as the Arabic-Indic "١٢٠".
- Costs are exact `real` numbers, not floating point.
- Concurrency and async interleaving are left out. The client's placeholder pop assumes no other
  message was appended while the request was pending.
- The browser is left out: the DOM and rendering, `localStorage` (`loadState`/`saveState`),
  toasts' timing and clearing the input box. File attachment (`handleFileSelect`, `processFile`,
  `fileToBase64`) and the service worker are also left out; an attachment reaches the model only as
  the `extra` text of `SendMessage`.
- ChatClient.FetchOutcome: a reply whose `content` is not a string is not modelled, and neither is a
  fetch error's text.
- The dead check at mobile.js line 72 is not modelled. The empty case is already excluded at line 70.
- Orchestrator.AgentOrchestrator.HandleMessage computes the plan before recording the user message.
  The planner is pure, so the order makes no difference.
- Serialisation failures are not modelled: `json.dumps` of unserialisable values, and encoding
  errors for lone surrogates.
- Security.VerifyToken ignores the header segment, as the source does; the header's algorithm is
  never checked.
- Store.LatestIndex takes "latest" to mean the last inserted row. Creation times are assumed to
  increase with insertion.
- The server's HTTP layer is not part of this model: routes, a new orchestrator per request,
  authentication middleware and billing.
- Text.SplitN is not proved a left inverse of Text.Join for general inputs. Only the three- and
  four-field cases used by tokens and hashes are proved.
