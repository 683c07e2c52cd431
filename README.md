# Telegram LLM client backend, modelled in Dafny

This project models the core of a Telegram bot backend. The bot lets the members of a group talk to
several "roles" (personas bound to a model of a language-model provider). The modelled core is:

- **the protocol adapter** (`LlmRouter`): it picks a provider from a `provider:model` reference and
  gates session operations on declared capabilities. It renders request templates holding
  `[[[field]]]` user-field and `{{ctx}}` context placeholders, extracts dot-paths from replies,
  redacts secrets before logging, and collects streamed answers. It sends a message and stores the
  two turns of the exchange;
- **the session resolver** (`SessionResolver`): for a (user, group, role) it reuses a stored session,
  mints a local one, or creates, names and primes one at the provider;
- **the debounce buffer** (`MessageBuffer`): a window of messages per (chat, user) and the set of
  keys whose flush is scheduled;
- **the retry wrapper** (`LlmExecutor`);
- **provider descriptors** (`Providers`): parsing one decoded provider document and building the
  registry from a directory's documents;
- **prompt assembly and model selection** (`PromptBuilder`);
- **mention routing** (`MentionRouter`), **message splitting and mention extraction** (`Utils`) and
  **token cleaning** (`Auth`);
- **the three storage tables** the core depends on (`Storage`): sessions per (user, group, role),
  conversation history and per-user provider values;
- **the Markdown-answers plugin's shortening** (`MarkdownAnswers`) and the **post-processing
  pipeline** (`Plugins`);
- **the tool registry** (`ToolRegistry`), the **bash tool's rules** (`BashTool`), its **result
  rendering** (`ToolExec`) and **HTML formatting** (`Formatting`).

Supporting modules:

- `Base` holds `Option` and `Result`.
- `Text` models the ASCII behaviour of Python's `strip`, `lower`, `find`, `replace`, `split`,
  `join`, `startswith` and `endswith`.
- `Json` models a decoded JSON value as the tagged variant Str | Int | Bool | Null | List | Map.
  A dict is an ordered list of fields, as Python dicts are ordered. `Json` also models Python
  truthiness and `str()`.
- `Tools` holds the datatypes of tools, their context and their result.

Input and output are parameters of the model:

- The HTTP transport is a function from a request to a reply.
- `json.loads` of a streamed line is a function from a string to an optional JSON value.
- `uuid4` is a fresh-id argument, and clocks are integer arguments.
- `shlex.split`, directory resolution and the shell run are oracles of the bash tool.
- `store_text` and the URL building of the Markdown-answers plugin are oracles.
- The matches of `split_message`'s code-fence pattern are an argument: a list of `(start, end)`
  spans (see "## Left out").

Two behaviours of the code shape the session and retry paths:

- The code has no path that recovers a stale session.
- The retry loop retries on every exception, a "not found" failure included.

## Model

| member | source | states |
|---|---|---|
| LlmRouter.SplitModel | app/llm_router.py:35-43 | An empty or absent reference gives the default provider and no model. A reference without a colon gives `(id, None)` for a registered id, else `(default, ref)`. A colon splits at its first occurrence, and an empty model part becomes None. |
| LlmRouter.SplitFullId | app/llm_router.py:35-43 | A registered model's composite `provider:model` id splits back into that provider and model. |
| LlmRouter.GetProvider | app/llm_router.py:45-49 | Succeeds exactly for a registered provider, returning its configuration. Otherwise it is a not-registered fault. |
| LlmRouter.EnsureCapability | app/llm_router.py:57-62 | Succeeds exactly when the provider is registered, uses the `generic` adapter and declares the capability as true. An unregistered provider is a not-registered fault. |
| LlmRouter.Supports | app/llm_router.py:68-71 | An unregistered provider is a failure. Otherwise the result is the declared capability value, false where it is undeclared. The adapter kind is not consulted. |
| LlmRouter.ResolveUserField | app/llm_router.py:191-201 | Fails only with one of the two field faults: an unknown key or a missing field. |
| LlmRouter.ResolveUserFieldSpec | app/llm_router.py:191-201 | An unknown key fails, and a role-scoped field without a role id is a missing field. Otherwise the result is the stored value for the provider, key and scoped role id, or a missing field carrying that role id. |
| LlmRouter.ProviderScopeIgnoresRole | app/llm_router.py:191-201 | A provider-scoped field reads the NULL-role row whatever role id is passed. |
| LlmRouter.CloseFrom | app/llm_router.py:146 | A close that is found is a `]]]` at or after the consumed text, with no newline in between. |
| LlmRouter.FieldKeys | app/llm_router.py:146 | Every captured key is non-empty, holds no newline and occurs in the string as `[[[key]]]`. |
| LlmRouter.SubstituteFields | app/llm_router.py:145-148 | The field loop fails only with a field fault. |
| LlmRouter.SubstituteFieldsOk | app/llm_router.py:145-148 | The field loop succeeds exactly when every trimmed key resolves. |
| LlmRouter.SubstituteField | app/llm_router.py:145-148 | One key succeeds exactly when nothing failed before and the trimmed key resolves. An earlier failure is kept. |
| LlmRouter.SubstituteFieldsStep | app/llm_router.py:145-148 | The loop over one more key is one more turn of the loop body. |
| LlmRouter.SubstituteFieldsErrSticks | app/llm_router.py:145-148 | Once a prefix of the keys fails, the whole loop fails with the same fault. |
| LlmRouter.SubstituteFieldsTurn | app/llm_router.py:145-148 | A failing key ends the loop with its fault, and a resolving one has its placeholder replaced. |
| LlmRouter.SubstituteContextAbsent | app/llm_router.py:149-151 | When no `{{k}}` of a str/int context value occurs, the context loop leaves the string as it is, so an unknown `{{x}}` stays verbatim. |
| LlmRouter.RenderStr | app/llm_router.py:136-152 | The string branch fails only with a field fault. Its results are stated by `RenderWholeField`, `RenderWholeContext`, `RenderInlineField` and `RenderInlineContext`. |
| LlmRouter.RenderInline | app/llm_router.py:144-152 | A mixed string fails only with a field fault. What it becomes is stated by `RenderInlineField` and `RenderInlineContext`. |
| LlmRouter.AllOk | app/llm_router.py:153-156 | Succeeds exactly when every value rendered, with the values in order. A failure is one of the values' failures. |
| LlmRouter.Render | app/llm_router.py:129-157 | None, bools and ints are returned unchanged. A list keeps its length and a dict its keys, each element rendered. Failures are field faults only. |
| LlmRouter.RenderWholeField | app/llm_router.py:137-139 | A whole-string `[[[k]]]` renders to the stored value of the trimmed `k`. |
| LlmRouter.RenderWholeContext | app/llm_router.py:140-143 | A whole-string `{{k}}` whose trimmed key is in the context renders to that context value itself, even a list or a dict. |
| LlmRouter.ContextShape | app/llm_router.py:140-143 | `{{k}}` is a whole-string context placeholder for the trimmed `k` and cannot be a field placeholder. |
| LlmRouter.RenderVerbatim | app/llm_router.py:144-152 | A string with no `[[[` and no placeholder of a scalar context value renders to itself. |
| LlmRouter.FieldKeysSingle | app/llm_router.py:146 | `findall` on a string holding one `[[[k]]]`, with no `]` or newline in `k` and no other `[[[`, captures exactly `k`. |
| LlmRouter.SubstituteFieldSingle | app/llm_router.py:145-148 | The field loop over that one key replaces `[[[k]]]` by the resolved value and keeps the text around it. |
| LlmRouter.SubstituteContextNoOpen | app/llm_router.py:149-151 | A string with no `{{` leaves the context loop unchanged. |
| LlmRouter.RenderMixed | app/llm_router.py:136-152 | A string that is neither a whole `[[[k]]]` nor a whole `{{k}}` takes the mixed-string path. |
| LlmRouter.RenderInlineField | app/llm_router.py:144-152 | In a mixed string (text on at least one side), an inline `[[[k]]]` is replaced by the stored value of the trimmed `k`, and the text before and after it is kept, when that text holds no other placeholder and `k` holds no `]` or newline. |
| LlmRouter.SubstituteContextSingle | app/llm_router.py:149-151 | The context loop on a string holding one `{{k}}` of a str or int value replaces it by `str()` of the value and keeps the text around it. |
| LlmRouter.RenderInlineContext | app/llm_router.py:144-152 | In a mixed string, an inline `{{k}}` of a str or int context value becomes `str()` of the value, and the text before and after it is kept, when that text holds no other placeholder and no context key holds `}`. |
| LlmRouter.RenderString | app/llm_router.py:136-152 | The method with its two loops computes the string branch. |
| LlmRouter.RenderInlineString | app/llm_router.py:144-152 | The method with its two loops computes the mixed-string case: field placeholders first, then context placeholders. |
| LlmRouter.ReplaceFields | app/llm_router.py:145-148 | The `findall` loop computes the field substitution. |
| LlmRouter.ReplaceContext | app/llm_router.py:149-151 | The context loop computes the context substitution, whose single-placeholder result is stated by `SubstituteContextSingle`. |
| Text.ReplaceSingle | app/llm_router.py:148-151 | `str.replace` on `a + pat + b`, where the pattern first occurs right after `a` and never inside `b`, gives `a + rep + b`. |
| LlmRouter.Mask | app/llm_router.py:159-164 | A string longer than 8 keeps its first and last four characters around `…`. Anything else becomes `***`. |
| LlmRouter.MaskIdempotent | app/llm_router.py:159-164 | Masking a masked value changes nothing. |
| LlmRouter.Redacted | app/llm_router.py:166-178 | The keys are kept in order. A sensitive key's value is masked, and any other scalar value is kept. |
| LlmRouter.RedactedHidesSecrets | app/llm_router.py:166-178 | No string longer than a mask survives under a sensitive key or in a list, at any depth. |
| LlmRouter.RedactedIdempotent | app/llm_router.py:166-178 | Redacting twice is redacting once. |
| LlmRouter.RedactDict | app/llm_router.py:166-178 | The method with its entry loop computes the redaction. |
| LlmRouter.ExtractPathOf | app/llm_router.py:180-189 | A None path gives None. The dotted and single-key behaviour is stated by `ExtractPathDotted` and `ExtractPathKey`. |
| LlmRouter.ExtractPath | app/llm_router.py:180-189 | The loop over the parts computes `ExtractPathOf`. |
| LlmRouter.WalkAppend | app/llm_router.py:180-189 | Walking two key lists one after the other is walking their concatenation. |
| LlmRouter.ExtractPathDotted | app/llm_router.py:180-189 | `a.b` is extracting `b` from what `a` gives. |
| LlmRouter.ExtractPathKey | app/llm_router.py:180-189 | An undotted path reads one key of a dict, and gives None on anything else. |
| LlmRouter.PathArg | app/llm_router.py:225 | Null gives no path and a string gives that path. Any other value is a failure. |
| LlmRouter.PathOr | app/llm_router.py:225 | A falsy path gives the fallback, and a non-empty string path gives the extraction. A failure is a truthy non-string path. |
| LlmRouter.OrEmpty | app/llm_router.py:204 | `x or {}`: a falsy value becomes the empty dict. |
| LlmRouter.EndpointOf | app/llm_router.py:204 | A dict endpoint is returned and a falsy one reads as empty. Any failure is a malformed configuration. |
| LlmRouter.SectionOf | app/llm_router.py:209 | A missing section reads as empty. Any failure is a malformed configuration. |
| LlmRouter.PathOf | app/llm_router.py:205-207 | A falsy path is a path-not-configured error. Otherwise the path is the configured non-empty string. |
| LlmRouter.FormatPathPlain | app/llm_router.py:299 | A path without `{session_id}` is used as it is. |
| LlmRouter.HeadersArg | app/llm_router.py:219 | Headers are passed exactly when they are truthy. |
| LlmRouter.Raised | app/llm_router.py:220-221 | There is no fault exactly for an answered reply. Otherwise the fault is an HTTP status or a transport fault. |
| LlmRouter.ReplyBody | app/llm_router.py:220-221 | Succeeds exactly for an answered reply whose body is JSON, giving that body. |
| LlmRouter.SessionIdsOf | app/llm_router.py:228-236 | The listing fails only for a truthy id path that is not a string. |
| LlmRouter.SessionIdStep | app/llm_router.py:228-236 | An earlier failure is kept. A new one comes only from a truthy non-string id path. |
| LlmRouter.SessionIdsPlain | app/llm_router.py:228-236 | Without an id path, every item is listed by its string form, in order. |
| LlmRouter.SessionIdsFound | app/llm_router.py:228-236 | With an id path, each listed id is the string form of a value found at that path in some item. |
| LlmRouter.IdsAtSnoc | app/llm_router.py:228-236 | One more item at the back adds its id, if it holds one at the path, at the back. |
| LlmRouter.SessionIdsAt | app/llm_router.py:228-236 | With a non-empty id path, the listing is exactly `IdsAt`: the string form of each non-null value found at the path, in item order. |
| LlmRouter.SessionIdsErrSticks | app/llm_router.py:228-236 | Once a prefix of the items fails, the whole listing fails the same way. |
| LlmRouter.CollectSessionIds | app/llm_router.py:228-236 | The loop computes the listing. |
| LlmRouter.ListSessionsGeneric | app/llm_router.py:203-236 | Succeeds only for a provider with an HTTP client. |
| LlmRouter.ListedIds | app/llm_router.py:221-236 | The items are the value at `list_path`, or the reply itself when that is falsy. A non-list gives a not-a-list error, a list gives the ids of its items, and a truthy non-string `list_path` is malformed. |
| LlmRouter.ListSessionsReads | app/llm_router.py:203-236 | Once the request is answered with a JSON body, the listing equals `ListedIds` of that body. |
| LlmRouter.CreateSessionGeneric | app/llm_router.py:238-265 | A created id is non-empty and comes only from a provider with an HTTP client. |
| LlmRouter.CreatedId | app/llm_router.py:258-264 | The id is the string form of the value at `session_id_path`, or at `response_session_id_field` when that path is falsy. A falsy value, or no path at all, is a missing-session-id error, and an id is never empty. |
| LlmRouter.CreateSessionReads | app/llm_router.py:238-264 | Once the request is answered with a JSON body, the created id equals `CreatedId` of that body. |
| LlmRouter.RenameSessionGeneric | app/llm_router.py:267-303 | Succeeds only for a provider with an HTTP client. |
| LlmRouter.StreamParts | app/llm_router.py:356-372 | The collected parts extend those already collected, and every part added is non-empty. Any failure is a malformed setting. |
| LlmRouter.StreamSkipsLine | app/llm_router.py:356-372 | An empty or unparsable line, other than the done value, can be dropped from anywhere without changing the result. |
| LlmRouter.StreamStopsAtDone | app/llm_router.py:356-372 | Nothing after a line equal to the done value is read. |
| LlmRouter.StreamDataLine | app/llm_router.py:360-372 | A JSON line that is not the done value adds its chunk exactly when the chunk is truthy, and ends the stream exactly when its done flag is truthy. |
| LlmRouter.CollectStream | app/llm_router.py:356-372 | The stream loop computes the collected parts. |
| LlmRouter.StreamAnswer | app/llm_router.py:348-381 | The answer is the stripped concatenation of the streamed parts, and an empty one is an empty-stream error. A non-answered reply raises its status or transport failure, and a malformed line raises its error. The answer is non-empty and stripped. |
| LlmRouter.PlainAnswer | app/llm_router.py:390-402 | The answer is non-empty. With a non-empty `content_path`, the answer is the string form of the value at that path, and a falsy value is a missing-content error. Without one, the same holds for the whole body. A truthy non-string path is malformed, a missing body is a bad response, and a non-answered reply raises its status or transport failure. |
| LlmRouter.SendContext | app/llm_router.py:318-327 | The context keys are `session_id`, `content`, `model` and `messages`, in that order, with `content` the new text. |
| LlmRouter.SendRequest | app/llm_router.py:314-334 | Fails only on a field fault, a malformed configuration or a missing path. A request carries a payload, and it streams exactly when the response section says so. |
| LlmRouter.SendGeneric | app/llm_router.py:305-408 | The answer is non-empty, and every failure is a send fault: transport, configuration, field or reply. |
| LlmRouter.Answer | app/llm_router.py:335-402 | The answer is non-empty. Otherwise the result is a transport, reply, content or empty-stream failure. |
| LlmRouter.SendTarget | app/llm_router.py:117-123 | Succeeds exactly for a registered provider with an HTTP client. The model id is the split's model, or dropped when `model_select` is not declared. No capability gates the send. |
| LlmRouter.SendOutcome | app/llm_router.py:109-127 | The answer is non-empty. Every failure is a send fault or an unregistered provider or missing client, never a capability or adapter check. |
| LlmRouter.SendMessage | app/llm_router.py:109-127 | On success the history gains exactly the user's text and then the answer. On failure nothing is stored. |
| LlmRouter.AuthModeForModel | app/llm_router.py:73-76 | The provider's auth mode, with `none` for an empty one. |
| LlmRouter.ListSessions | app/llm_router.py:78-82 | Succeeds only when the provider is generic and declares `list_sessions`. Otherwise that check's failure is the result. |
| LlmRouter.CreateSession | app/llm_router.py:84-94 | Succeeds only when the provider is generic and declares `create_session`. Otherwise that check's failure is the result. |
| LlmRouter.RenameSession | app/llm_router.py:96-107 | Succeeds only when the provider is generic and declares `rename_session`. Otherwise that check's failure is the result. |
| SessionResolver.OrElse | app/session_resolver.py:36 | Python's `a or b` on optional strings: None and "" fall back to `b`. |
| SessionResolver.LocalPrompt | app/session_resolver.py:35-39 | There is no system turn when the base prompt and the extra instruction are both empty, and a system turn is never blank. |
| SessionResolver.LocalPromptTrimmed | app/session_resolver.py:37 | The local system turn has no surrounding whitespace. |
| SessionResolver.RemotePrompt | app/session_resolver.py:72-77 | The priming prompt is trimmed. |
| SessionResolver.RemotePromptEmptyOverride | app/session_resolver.py:72-73 | An override set to "" hides the base prompt, so only the trimmed extra instruction is sent. |
| SessionResolver.ChatName | app/session_resolver.py:88-90 | With a non-empty group title the name is `title / @role`, otherwise `@role`. It is never empty, so the rename is never skipped for it. |
| SessionResolver.RenameAttempt | app/session_resolver.py:86-104 | `rename_session` is called exactly when the session was created in a known group and the provider supports renaming. It gets the created id and `ChatName`. |
| SessionResolver.Primed | app/session_resolver.py:107-115 | Priming is `send_message`: on success the two turns are appended, and on failure the history is unchanged. |
| SessionResolver.PrimeStep | app/session_resolver.py:106-139 | A blank prompt sends nothing, and any other prompt is sent. |
| SessionResolver.PrimeRef | app/session_resolver.py:111 | Priming uses the caller's model reference, else the group role's override, else the role's model, each only when non-empty. |
| SessionResolver.CreateSpec | app/session_resolver.py:63-147 | On success the created id is stored for the key. On failure the state is unchanged. On success the history is `PrimeStep`'s: nothing for a blank prompt, otherwise the `user` turn with the prompt and the `assistant` turn with the answer when priming answered, and nothing when it failed with an HTTP status. |
| SessionResolver.EnsureSpec | app/session_resolver.py:18-51 | On success, the returned id is the one stored for the key. |
| SessionResolver.LocalReuse | app/session_resolver.py:27-32 | Without `create_session`, a stored session is touched and returned, with no provider call. |
| SessionResolver.LocalMint | app/session_resolver.py:33-46 | Without `create_session` and no stored session, the fresh id is saved and returned. At most the one system turn is added. |
| SessionResolver.LocalIgnoresTransport | app/session_resolver.py:27-46 | The local path's outcome does not depend on the transport. |
| SessionResolver.RemoteReuse | app/session_resolver.py:47-51 | With `create_session`, the stored id is reused (touched) exactly when there is no list of live ids or the list holds it. Otherwise a session is created. |
| SessionResolver.EnsureStable | app/session_resolver.py:18-51 | Resolving again returns the same id and creates nothing. |
| SessionResolver.PrimingFailure | app/session_resolver.py:107-140 | A priming error other than an HTTP status leaves no mapping and no change. A priming HTTP status error still stores the session. |
| SessionResolver.EnsureSession | app/session_resolver.py:18-51 | The method against the store computes `EnsureSpec`'s outcome and new tables. |
| SessionResolver.Resolve | app/session_resolver.py:53-61 | Equals `ensure_session` with no list of live ids. |
| SessionResolver.CreateRemoteSession | app/session_resolver.py:63-147 | The method against the store computes `CreateSpec`'s outcome and new tables. It reports the rename it attempted, which is `RenameAttempt`'s. |
| SessionResolver.PrimeSession | app/session_resolver.py:107-115 | Only the history changes, as `PrimeStep` says. |
| MessageBuffer.Added | app/message_buffer.py:24-55 | Returns true exactly when `start` holds and there is no live window. Every other key is untouched. |
| MessageBuffer.Collected | app/message_buffer.py:57-63 | Returns the key's window, or []. Removes the window and its flag, and leaves every other key untouched. |
| MessageBuffer.Marked | app/message_buffer.py:69-75 | True exactly when the key was not marked. Afterwards it is marked, and the windows are unchanged. |
| MessageBuffer.AddedValid | app/message_buffer.py:24-55 | `add` keeps every window non-empty and within the window of its first message. |
| MessageBuffer.CollectedValid | app/message_buffer.py:57-63 | `collect` keeps the windows well formed. |
| MessageBuffer.AddOpens | app/message_buffer.py:51-55 | With `start` and no window, a one-message window opens and the result is true. |
| MessageBuffer.AddJoins | app/message_buffer.py:42-47 | A message within a live window is appended and the result is false, whatever `start` is. |
| MessageBuffer.AddAfterExpiry | app/message_buffer.py:48-55 | An expired window is dropped with its flag. A new window opens only with `start`. |
| MessageBuffer.AddIgnored | app/message_buffer.py:51-52 | Without `start` and without a window, nothing changes and the result is false. |
| MessageBuffer.MarkOnce | app/message_buffer.py:62 | Marking succeeds once, then fails until `collect` clears the flag. |
| MessageBuffer.CollectTwice | app/message_buffer.py:57-63 | A second collect returns []. |
| MessageBuffer.ArrivalOrder | app/message_buffer.py:42-63 | Two messages within the window come out in arrival order. |
| MessageBuffer.Buffer.constructor | app/message_buffer.py:18-22 | The buffer starts with no windows and no scheduled keys. |
| MessageBuffer.Buffer.Add | app/message_buffer.py:24-55 | The result and the new state are those of `Added`. |
| MessageBuffer.Buffer.Collect | app/message_buffer.py:57-67 | The items and the new state are those of `Collected`; `wait_and_collect` after its sleep is the same. |
| MessageBuffer.Buffer.MarkScheduled | app/message_buffer.py:69-75 | The result and the new state are those of `Marked`. |
| LlmExecutor.SendWithRetries | app/llm_executor.py:15-42 | A negative retry count makes no attempt and fails. Otherwise: there are 1 to `retries + 1` attempts; every attempt before the last failed; success is the last attempt's answer; total failure re-raises attempt `retries`'s error. Each call passes `model_override or llm_model` and the role id. The pause before attempt n+1 is n half-seconds, with none after the last. |
| Providers.ScopeOf | app/llm_providers.py:81-84 | The scope is `role` exactly when the stripped `scope` is `role`. Anything else, blank included, is `provider`. |
| Providers.FieldFor | app/llm_providers.py:80-87 | A stored field carries the entry's key, its stripped prompt and its scope. |
| Providers.AddUserField | app/llm_providers.py:77-87 | A non-dict value or a blank prompt changes nothing. A usable entry is stored under its key as `FieldFor` of it. Every other key keeps its presence and its field. |
| Providers.UserFieldsOf | app/llm_providers.py:75-87 | Every stored field has a non-empty prompt, is keyed by its own key, and comes from an entry of the section. |
| Providers.UserFieldsOfComplete | app/llm_providers.py:77-87 | Each usable entry that no later entry overrides is stored, as `FieldFor` of it. |
| Providers.UserFieldsOfSound | app/llm_providers.py:77-87 | Each stored field is `FieldFor` of a usable entry with its key. |
| Providers.ModelFor | app/llm_providers.py:98-103 | A model carries the provider id and the stripped id. Its label defaults to the id, and a string label is kept as given. |
| Providers.ModelsOf | app/llm_providers.py:96-103 | Every collected model carries the provider id and a non-empty model id. None stands for an entry that crashes the parser. |
| Providers.KeptModelsSnoc | app/llm_providers.py:96-103 | One more entry at the back of the list adds its model, if it is a dict with a non-blank id, at the back. |
| Providers.ModelsOfPrefixCrash | app/llm_providers.py:96-103 | The loop over any prefix crashes exactly when a non-dict entry is in that prefix. |
| Providers.ModelsOfPrefixKept | app/llm_providers.py:96-103 | Over a prefix of dicts, the loop keeps one model per entry with a non-blank id, in order. |
| Providers.ModelsOfKept | app/llm_providers.py:96-103 | The models loop crashes exactly on a non-dict entry. Otherwise it gives `KeptModels`: one model per entry with a non-blank id, front to back. |
| Providers.CapabilitiesOf | app/llm_providers.py:111 | The keys are exactly the section's keys. |
| Providers.CapabilitiesOfValues | app/llm_providers.py:111 | Each key's value is `bool()` of the entry that no later entry overrides. |
| Providers.HistoryLimitOf | app/llm_providers.py:90-95 | A missing key gives no limit. A present value gives what `int()` makes of it, and no limit where `int()` fails. An integer is kept. |
| Providers.Assemble | app/llm_providers.py:105-118 | The configuration carries the given id, base URL, models and user fields. |
| Providers.SectionsOf | app/llm_providers.py:65-75 | Every section is readable only when it is a dict or falsy, and `models` only when it is a list or falsy. A dict is read as its entries and a falsy value as empty. |
| Providers.ProviderOf | app/llm_providers.py:48-118 | An unreadable file is a skip. A dict whose stripped `id` or stripped `base_url` is empty is a skip too, never a crash, and these are the only skips. |
| Providers.ParsedWellFormed | app/llm_providers.py:48-118 | A parsed configuration has a stripped non-empty id and base URL, so a blank one is never parsed. Its models are its own, with non-empty ids, and its user fields have prompts. |
| Providers.ParseProviderFile | app/llm_providers.py:48-118 | The loops compute `ProviderOf`. |
| Providers.CollectUserFields | app/llm_providers.py:77-87 | The loop computes `UserFieldsOf`. |
| Providers.CollectModels | app/llm_providers.py:96-103 | The loop computes `ModelsOf`. |
| Providers.ModelsOfStep | app/llm_providers.py:96-103 | One more entry extends the models of the prefix. |
| Providers.ModelsOfCrashSticks | app/llm_providers.py:96-103 | Once an entry crashes, every longer prefix crashes. |
| Providers.ParseAll | app/llm_providers.py:121-141 | There is one outcome per file, in order. |
| Providers.ParseAllWellFormed | app/llm_providers.py:121-141 | Every outcome is well formed. |
| Providers.LoadProviderRegistry | app/llm_providers.py:121-141 | A missing directory gives an empty registry. Otherwise the loop computes the registry of the parse outcomes. |
| Providers.RegistryExtend | app/llm_providers.py:121-141 | One more outcome is one registration step, or a failure when it crashes. |
| Providers.RegistryCrashSticks | app/llm_providers.py:121-141 | Once a prefix of the files fails, the whole load fails. |
| Providers.RegistryCrash | app/llm_providers.py:121-141 | Any crashing file makes the whole load fail. |
| Providers.RegistryOf | app/llm_providers.py:129-137 | The load succeeds exactly when no file crashes. |
| Providers.RegistrySkipped | app/llm_providers.py:130-132 | A skipped file leaves the load as it was. |
| Providers.RegistryConsistent | app/llm_providers.py:121-141 | Each provider is registered under its own id. Every collected model belongs to the registered configuration's own models, so a duplicate's models are not added. |
| Providers.RegistryFirstWins | app/llm_providers.py:134-137 | For a duplicate id, the first file in sorted order keeps its configuration. |
| Providers.RegistryAbsent | app/llm_providers.py:121-141 | An id that no file carries is not registered. |
| Providers.DefaultSections | app/llm_providers.py:55-118 | A document with only an id and a base URL has empty sections. |
| Providers.ParseDefaults | app/llm_providers.py:55-118 | Such a document parses with the defaults: label = id, auth `none`, adapter `generic`, no capabilities, models or user fields, and no history limit. |
| Providers.ProviderOfParsed | app/llm_providers.py:55-118 | With a non-blank id and base URL and readable sections, the outcome is the assembled configuration. |
| Providers.AssembleDefaults | app/llm_providers.py:105-118 | Assembling from empty sections gives label = id, auth `none`, adapter `generic`, and no capabilities, fields or history limit. |
| Providers.ModelLabel | app/llm_providers.py:144-147 | The result is the provider's non-empty label, then ` / ` and the model label. Without such a label it is `label_full`. |
| PromptBuilder.ProviderIdFromModel | app/services/prompt_builder.py:11-22 | A reference with a colon gives the text before its first colon. |
| PromptBuilder.ProviderIdMatchesRouter | app/services/prompt_builder.py:11-22 | Picks the same provider as the first component of the router's split. |
| PromptBuilder.RoleRequiresAuth | app/services/prompt_builder.py:25-34 | An unknown provider requires auth. |
| PromptBuilder.RequiresAuthMatchesRouter | app/services/prompt_builder.py:25-34 | For a registered provider with a non-empty mode, auth is required exactly when the router's auth mode is not `none`. |
| PromptBuilder.ResolveProviderModel | app/services/prompt_builder.py:37-51 | A selection that is a model key or provider id is returned. Otherwise the first model's full id is returned, or, with no model, an error. |
| PromptBuilder.PreambleSpec | app/services/prompt_builder.py:66-76 | The preamble is empty exactly when nothing is given. The general section comes first and the replied text last. |
| PromptBuilder.NonEmpty | app/services/prompt_builder.py:79 | The filter keeps only non-empty parts and never adds any. |
| PromptBuilder.NonEmptyMembers | app/services/prompt_builder.py:79 | The filter keeps exactly the non-empty parts. |
| PromptBuilder.NonEmptyAppend | app/services/prompt_builder.py:79 | Filtering distributes over concatenation. |
| PromptBuilder.AppendContext | app/services/prompt_builder.py:70-76 | The context section is appended to the parts. |
| PromptBuilder.BuildLlmContent | app/services/prompt_builder.py:54-79 | The user text is unchanged when suffix, prefix and reply are all falsy. Otherwise the result is the non-empty sections joined by blank lines and stripped. |
| PromptBuilder.ContentKept | app/services/prompt_builder.py:66-79 | For a non-empty user text, the `#USER_REQUEST` header and the text survive the filter, last. |
| PromptBuilder.PreambleHead | app/services/prompt_builder.py:66-76 | The kept preamble opens with a section header. |
| PromptBuilder.JoinedShape | app/services/prompt_builder.py:66-79 | The joined text has no surrounding whitespace, opens with `#` and ends with the header and the user text. |
| PromptBuilder.ContentLayout | app/services/prompt_builder.py:66-79 | With any instruction or context, the text opens with a section header and ends with `#USER_REQUEST` and the user text. |
| MentionRouter.RoleMapKeys | app/router.py:32 | The keys are the lower-cased names, and each maps to a role of that name. |
| MentionRouter.RoleMap | app/router.py:32 | Each key is the lower-cased name of the role it maps to, and there are at most as many keys as roles. `RoleMapKeys` and `RoleMapLastWins` state the rest. |
| MentionRouter.RoleMapLastWins | app/router.py:32 | A later role wins a shared name. |
| MentionRouter.FirstMentionKey | app/router.py:40-42 | The first mention is a lower-case key of the role map. |
| MentionRouter.RouteMessage | app/router.py:17-47 | A non-owner author, or a required but missing bot mention, gives no route. Routed roles come from the input. `is_all` holds exactly when the cleaned text mentions `@all`, and then all roles are routed; otherwise exactly one is. |
| MentionRouter.RouteChoosesLongest | app/router.py:40-44 | A single routed role is mentioned, no mentioned role's name is longer, and the content is the cleaned text, stripped, without that role's first `@name`. |
| MentionRouter.RouteNeedsMention | app/router.py:46-47 | Without `@all` and without any mentioned role, there is no route. |
| Utils.SlicesFrom | app/utils.py:34-35 | The slices concatenate to the rest of the string. Each is non-empty and within the limit, and all but the last are exactly `limit` long. |
| Utils.FlushFits | app/utils.py:37-38 | The final non-empty chunk is emitted, and every piece stays within the limit. |
| Utils.ParaFoldStep | app/utils.py:20-35 | The fold over one more paragraph is one more step. |
| Utils.ParaStepFits | app/utils.py:20-35 | A paragraph step keeps every piece within the limit and non-empty. |
| Utils.ParaFoldFits | app/utils.py:18-38 | The paragraph path keeps every piece within the limit. |
| Utils.ParaStepJoins | app/utils.py:21-32 | A non-empty paragraph that fits extends the blank-line join of the chunks by one more paragraph, and leaves a chunk open. |
| Utils.ParaFoldJoins | app/utils.py:18-38 | When every paragraph fits, the emitted chunks joined with a blank line are the paragraphs joined with a blank line, and a chunk stays open exactly when there were paragraphs. |
| Utils.ParaFoldOversized | app/utils.py:20-35 | A paragraph longer than the limit flushes the open chunk, is emitted as its `limit`-long slices in place, and leaves no chunk open. |
| Utils.GapAndMatch | app/utils.py:41-49 | Appending the gap before a match and the match gives the text up to the match's end. |
| Utils.SegmentFoldConcat | app/utils.py:41-49 | The segments so far are the text up to the cursor. |
| Utils.SegmentsConcat | app/utils.py:41-49 | Gaps and code blocks put together are the text. |
| Utils.SegmentStepFits | app/utils.py:52-69 | A segment step keeps the pieces within the limit. |
| Utils.SegmentStepConcat | app/utils.py:52-69 | A segment step loses no character and adds none. |
| Utils.SegmentChunksKeep | app/utils.py:51-72 | The chunks of the segments concatenate to the segments' text. |
| Utils.SplitJoinsParagraphs | app/utils.py:10-39 | On the paragraph path, when every paragraph fits, the messages joined with a blank line are the input. |
| Utils.SplitSpec | app/utils.py:10-72 | A text that fits is exactly `[text]`. A longer one gives non-empty messages within the limit, on both paths. |
| Utils.SplitKeepsText | app/utils.py:41-72 | On the code-fence path, the messages concatenate to the input. |
| Utils.AppendSlices | app/utils.py:34-35 | The slicing loop appends `SlicesFrom`. |
| Utils.SplitMessage | app/utils.py:10-72 | The generator's loops compute the split. |
| Utils.AddParagraph | app/utils.py:20-35 | One turn of the paragraph loop. |
| Utils.ChunkParagraphs | app/utils.py:18-39 | The paragraph loop computes the fold whose content is stated by `ParaFoldJoins` and `ParaFoldOversized`. |
| Utils.CutSegments | app/utils.py:41-49 | The segments loop. |
| Utils.ChunkSegments | app/utils.py:51-72 | The chunk loop of the code-fence path. |
| Utils.StripBotMention | app/utils.py:75-77 | The result has no whitespace at either end and is never longer than the text. `StripBotMentionAbsent` and `StripBotMentionDrops` state what is removed. |
| Utils.StripBotMentionAbsent | app/utils.py:75-77 | Without a mention, only the ends are stripped. |
| Utils.StripBotMentionDrops | app/utils.py:75-77 | A mention in any case is removed, along with every later one. The text around it is kept, then stripped. |
| Utils.MentionedExactly | app/utils.py:81-85 | The filter keeps exactly the roles whose `@name`, lower-cased, occurs in the lower-cased text. |
| Utils.InsertByLengthAdds | app/utils.py:86 | Insertion adds exactly one name, as a multiset. |
| Utils.Mentioned | app/utils.py:81-85 | Every listed role is mentioned, and at most all roles are listed. `MentionedExactly` states the converse. |
| Utils.InsertByLength | app/utils.py:86 | One name longer, and the head is at least as long as the inserted name. `InsertByLengthAdds` and `InsertByLengthSorted` state the multiset and the order. |
| Utils.InsertByLengthSorted | app/utils.py:86 | Insertion keeps a longest-first list longest first. |
| Utils.SortByLengthSorted | app/utils.py:86 | The sort is a permutation of its input, longest first. |
| Utils.InsertAt | app/utils.py:86 | The insertion point found by the stable sort is the one the model uses. |
| Utils.ExtractRoleMentions | app/utils.py:80-87 | The method computes the mentions. |
| Utils.SortHitsByLength | app/utils.py:86 | The insertion loop yields the mentioned roles ordered by `SortByLength`, whose order and permutation are stated by `SortByLengthSorted`. |
| Utils.RoleMentionsExactly | app/utils.py:80-87 | The result holds exactly the role names mentioned in the text, longest first. |
| Auth.After | app/auth.py:92 | What follows the first separator is a proper suffix of the value. |
| Auth.Before | app/auth.py:97 | What precedes the first `;`: a prefix with no `;`. |
| Auth.CutAttributes | app/auth.py:96-97 | What is left after cutting at the first `;` holds no `;`. A value without `;` is kept. |
| Auth.NormalizeToken | app/auth.py:88-98 | The normalised token never contains `;`. `StripFirst`, `CookieRemoved`, `SessionIdRemoved`, `CookieThenSessionId` and `PlainTokenKept` state the rest of its contract. |
| Auth.StripFirst | app/auth.py:89 | Surrounding whitespace is removed before anything else. |
| Auth.CookieRemoved | app/auth.py:91-93 | A leading `cookie:` in any case is removed and the rest stripped. |
| Auth.SessionIdRemoved | app/auth.py:94-95 | A leading `sessionid=` in any case is removed and the rest stripped. |
| Auth.CookieThenSessionId | app/auth.py:88-98 | Both prefixes are removed in order, then everything from the `;`. |
| Auth.PlainTokenKept | app/auth.py:88-98 | A trimmed token with neither prefix and no `;` comes back unchanged. |
| Storage.SessionsSaved | app/storage.py:847-860 | After an upsert the key holds the new id and time, `created_at` survives from an existing row, and other keys are unchanged. |
| Storage.SessionsTouched | app/storage.py:862-873 | Only `last_used_at` changes. A missing row stays missing. |
| Storage.SessionsDeleted | app/storage.py:734-743 | Only that key is removed. |
| Storage.TouchKeepsBinding | app/storage.py:862-873 | Touching keeps the session id and `created_at`. |
| Storage.SessionHistory | app/storage.py:385-396 | Every message of the session, drawn from its turns. |
| Storage.History | app/storage.py:385-411 | Without a limit, or with a negative one (as SQLite reads it), the result is the whole history. With limit n it is the last n messages, in ascending order. |
| Storage.HistoryAfterAppend | app/storage.py:373-383 | An append extends its own session's history by that message and leaves every other session's history unchanged. |
| Storage.UserValueOfSpec | app/storage.py:413-424 | None exactly when no row matches (NULL matching NULL); otherwise a matching row's value. |
| Storage.UserValueOf | app/storage.py:413-424 | A value is found exactly when some row matches, and a matching first row wins, as `fetchone` does. |
| Storage.Overwrite | app/storage.py:426-439 | The UPDATE half of the upsert changes exactly the matching rows' values. |
| Storage.UserValuesSetAsWritten | app/storage.py:426-439 | As written, a NULL role id always appends a new row, so the read-back is the earlier value when a NULL-role row already matched and the new value otherwise. A role-scoped write is an upsert and is read back. No other (provider, key, role) read changes. |
| Storage.AppendRead | app/storage.py:413-439 | After appending a row, a read that found a row finds the same one, and a read that found nothing finds the new row exactly when it matches. |
| Storage.StaleProviderScopedValue | app/storage.py:426-439 | As written, setting a provider-scoped value twice leaves the first value as what is read. |
| Storage.UserValuesSet | app/storage.py:426-439 | As intended, a write is read back for its (provider, key, role), NULL included, and no other key's read changes. |
| Storage.OverwriteReads | app/storage.py:426-439 | Overwriting an existing key reads back the new value and changes no other read. |
| Storage.AppendReads | app/storage.py:426-439 | Appending a new key reads back its value and changes no other read. |
| Storage.UserValuesDeleted | app/storage.py:441-450 | After a delete the key reads None, and no other read changes. |
| Storage.Store.constructor | app/storage.py:825-845 | All three tables start empty. |
| Storage.Store.GetUserRoleSession | app/storage.py:825-845 | The row of the key exactly when one is stored. |
| Storage.Store.SaveUserRoleSession | app/storage.py:847-860 | The sessions table becomes `SessionsSaved`. The other tables are unchanged. |
| Storage.Store.TouchUserRoleSession | app/storage.py:862-873 | The sessions table becomes `SessionsTouched`. The other tables are unchanged. |
| Storage.Store.DeleteUserRoleSession | app/storage.py:734-743 | The sessions table becomes `SessionsDeleted`. The other tables are unchanged. |
| Storage.Store.AddConversationMessage | app/storage.py:373-383 | The turn is appended. The other tables are unchanged. |
| Storage.Store.ListConversationMessages | app/storage.py:385-411 | The result is `History` of the stored turns. |
| Storage.Store.GetProviderUserValue | app/storage.py:413-424 | The result is `UserValueOf` of the stored rows. |
| Storage.Store.SetProviderUserValue | app/storage.py:426-439 | The rows become `UserValuesSetAsWritten`, NULL-role append included. The other tables are unchanged. |
| Storage.Store.DeleteProviderUserValue | app/storage.py:441-450 | The rows become `UserValuesDeleted`. The other tables are unchanged. |
| MarkdownAnswers.NextBlock | plugins/markdown_answers.py:34-48 | A found block starts at or after `i`, holds two fences and ends within the text. |
| MarkdownAnswers.NextBlockSpec | plugins/markdown_answers.py:34-48 | A found block is a fenced block opening at the first fence. |
| MarkdownAnswers.BlocksFromStep | plugins/markdown_answers.py:34-48 | The blocks from `i` are the next block and those after its end. |
| MarkdownAnswers.FindCodeBlocks | plugins/markdown_answers.py:34-48 | The scanning loop computes the blocks. |
| MarkdownAnswers.BlocksAfter | plugins/markdown_answers.py:34-48 | The blocks start at or after `i`. |
| MarkdownAnswers.BlocksOrdered | plugins/markdown_answers.py:34-48 | The blocks are strictly increasing and do not overlap. |
| MarkdownAnswers.BlocksFenced | plugins/markdown_answers.py:34-48 | Every block opens and closes with three backticks. |
| MarkdownAnswers.BlocksChained | plugins/markdown_answers.py:34-48 | Each block opens at the first fence after the previous block, so an unmatched trailing fence is no block. |
| MarkdownAnswers.BlocksComplete | plugins/markdown_answers.py:38-48 | The scan misses no block: when it stops, no fence followed by a later fence is left after the last block (or anywhere, when it found none). |
| MarkdownAnswers.CodeBlocksSpec | plugins/markdown_answers.py:34-48 | The text's blocks are fenced, ordered and found one after the other, and no fenced pair is left after the last one, so none is missed; a trailing unmatched fence gives no block. |
| MarkdownAnswers.Straddled | plugins/markdown_answers.py:54-57 | Finds a block exactly when `cut` lies strictly inside one, and returns that block's start. |
| MarkdownAnswers.SafeCutIndex | plugins/markdown_answers.py:51-58 | The method computes the safe cut. |
| MarkdownAnswers.CutIndexAmong | plugins/markdown_answers.py:54-58 | The block loop computes the cut among the blocks. |
| MarkdownAnswers.SafeCutBound | plugins/markdown_answers.py:51-58 | A text that fits gives its length. Otherwise the cut is at most the limit, and equals the limit exactly when the limit lies inside no block. |
| MarkdownAnswers.SafeCut | plugins/markdown_answers.py:51-58 | A text that fits gives its length. A longer text is cut somewhere other than the limit only when the limit falls inside a code block. |
| MarkdownAnswers.SafeCutSafe | plugins/markdown_answers.py:51-58 | The cut of a long text never falls strictly inside a block. |
| MarkdownAnswers.CutAmongOutside | plugins/markdown_answers.py:54-58 | Among ordered blocks, the cut is inside none of them. |
| MarkdownAnswers.MiniAppUrl | plugins/markdown_answers.py:10-31 | A URL is built exactly when the id is non-empty and the web-app URL is http or https. |
| MarkdownAnswers.Limits | plugins/markdown_answers.py:72-80 | The limits are read exactly when `int()` accepts both settings, the defaults included. The maximum is the configured one. The minimum is the configured one, lowered to the maximum when it exceeds it. |
| MarkdownAnswers.LimitsDefaults | plugins/markdown_answers.py:72-73 | Without either setting the limits are 3500 and 1200. |
| MarkdownAnswers.TextUrlFails | plugins/markdown_answers.py:114-117 | The URL cannot be built for an empty id or a web-app URL that is not http(s). |
| MarkdownAnswers.ButtonFields | plugins/markdown_answers.py:124-132 | The button is a web-app button with the button text and the URL. |
| MarkdownAnswers.ShortenedFields | plugins/markdown_answers.py:124-132 | The shortened payload holds the first part, keeps `parse_mode`, and carries the button. |
| MarkdownAnswers.Shortened | plugins/markdown_answers.py:124-132 | The new payload holds only `text`, `parse_mode` and `reply_markup`. |
| MarkdownAnswers.OnLlmResponse | plugins/markdown_answers.py:61-132 | An empty text or a blank web-app URL leaves the payload unchanged, so the hook can fail only past those checks. An unreadable limit fails it with the `int()` error. `OnLlmResponseSkips` and `OnLlmResponseLimits` state the rest. |
| MarkdownAnswers.Shorten | plugins/markdown_answers.py:82-132 | A text within the inline maximum, or no `store_text`, leaves the payload unchanged. A changed payload holds the first part as its text. A failure needs a long text, a long enough first part and a store. `ShortenKeeps` and `ShortenChanges` state the rest. |
| MarkdownAnswers.Attach | plugins/markdown_answers.py:114-132 | It fails exactly when the URL cannot be built. Otherwise the payload holds the first part, the old `parse_mode` and the button with the URL. |
| MarkdownAnswers.OnLlmResponseSkips | plugins/markdown_answers.py:63-70 | An empty text or a blank web-app URL leaves the payload unchanged. |
| MarkdownAnswers.OnLlmResponseLimits | plugins/markdown_answers.py:72-80 | Past those checks, an unreadable limit fails the hook. |
| MarkdownAnswers.ShortenKeeps | plugins/markdown_answers.py:82-112 | The payload is unchanged for a text within the inline maximum, a first part below the minimum, or a missing or failing store. |
| MarkdownAnswers.ShortenChanges | plugins/markdown_answers.py:104-132 | Otherwise the full text is stored, and the payload is shortened to the first part with the stored text's button, or the hook fails on a bad URL. |
| MarkdownAnswers.ShortenBounds | plugins/markdown_answers.py:90-95 | A first part is at most the inline maximum long. |
| MarkdownAnswers.FirstPartSpec | plugins/markdown_answers.py:90-95 | A cut of at most 0 becomes `min(limit, len)`. The first part is a prefix of the text without trailing whitespace, ending where the safe cut does. |
| MarkdownAnswers.CutIndex | plugins/markdown_answers.py:90-93 | A positive safe cut is used as it is. For a positive limit and a non-empty text the index is positive. |
| MarkdownAnswers.FirstPart | plugins/markdown_answers.py:95 | The first part is a prefix of the text without trailing whitespace. |
| Plugins.ApplyPostprocess | app/plugins.py:31-63 | The loop computes `Postprocessed`: the plugins in list order, each seeing the previous accepted payload. |
| Plugins.StepSkips | app/plugins.py:34-38 | A plugin of another type, or one without the hook, changes nothing. |
| Plugins.StepOutcome | app/plugins.py:39-62 | A raise, None, a non-dict or a dict without `text` changes nothing. An accepted result replaces the payload wholesale. |
| Plugins.NothingApplicable | app/plugins.py:32-63 | With no applicable plugin, the payload comes back as given. |
| Plugins.PostprocessConcat | app/plugins.py:33-62 | Running two plugin lists in turn is running their concatenation. |
| Plugins.SkippedPlugin | app/plugins.py:34-38 | A non-applicable plugin can be dropped from the list. |
| Plugins.Step | app/plugins.py:34-62 | A plugin that does not apply changes nothing. The result is the payload itself or an accepted result, which holds `text`. `StepSkips` and `StepOutcome` state each case. |
| Plugins.Postprocessed | app/plugins.py:31-63 | The result is the payload itself or holds `text`. A payload holding `text` keeps it through any plugins. |
| ToolRegistry.NameKeyIdempotent | app/tools/registry.py:14 | A normalised name normalises to itself. |
| ToolRegistry.NameKey | app/tools/registry.py:14 | The key is no longer than the name and has no upper-case ASCII letter. |
| ToolRegistry.NameKeyVariants | app/tools/registry.py:22 | Surrounding whitespace and letter case do not change the normalised name. |
| ToolRegistry.Registered | app/tools/registry.py:13-19 | A registration fails exactly for an empty or taken normalised name. On success the tool is under that name, and every other key keeps its presence and its tool. |
| ToolRegistry.Found | app/tools/registry.py:21-26 | A lookup succeeds exactly when the normalised name is a key, with the tool under it. The error quotes the name as given. |
| ToolRegistry.Listed | app/tools/registry.py:28-39 | There is one entry per tool. `ListedSorted` states the order. |
| ToolRegistry.Executed | app/tools/registry.py:41-43 | A registered name runs its tool's `execute`. An unknown name gives the not-registered error. |
| ToolRegistry.RegisterRefuses | app/tools/registry.py:13-19 | A registration fails exactly for an empty or taken normalised name, leaving the registry unchanged. |
| ToolRegistry.RegisterThenGet | app/tools/registry.py:13-26 | After a registration, any variant of the name, and the normalised name itself, finds the tool. Other names find what they found before. |
| ToolRegistry.RegisterTwice | app/tools/registry.py:17-18 | A second registration under the same normalised name is refused. |
| ToolRegistry.RegisterKeepsKeysNormal | app/tools/registry.py:13-19 | Registration keeps every key normalised and non-empty. |
| ToolRegistry.LeastExists | app/tools/registry.py:30 | A non-empty set of names has a least one. |
| ToolRegistry.SortedNamesSpec | app/tools/registry.py:30 | `sorted(names)` holds each member once, in increasing order. |
| ToolRegistry.SortedUnique | app/tools/registry.py:30 | Two increasing sequences with the same members are equal. |
| ToolRegistry.ListedSorted | app/tools/registry.py:28-39 | One listing entry per tool, and the i-th entry is the tool under the i-th key in increasing order. |
| ToolRegistry.ExecuteDelegates | app/tools/registry.py:41-43 | A registered tool runs under any variant of its name. An unknown name is refused before anything runs. |
| ToolRegistry.Registry.constructor | app/tools/registry.py:10-11 | The registry starts empty. |
| ToolRegistry.Registry.Register | app/tools/registry.py:13-19 | On success the dictionary becomes `Registered`'s. On refusal it is unchanged and the error is returned. |
| ToolRegistry.Registry.ListTools | app/tools/registry.py:28-39 | The loop computes the sorted listing. |
| BashTool.SafeSetSpec | app/tools/bash_tool.py:25 | The safe set holds exactly the normalised non-blank names, each non-empty, stripped and lower case. |
| BashTool.MakeConfig | app/tools/bash_tool.py:14-27 | At least one directory is always allowed, and a non-empty list is taken as given. The safe set is built from the given names. |
| BashTool.Truncate | app/tools/bash_tool.py:180-185 | The text is flagged exactly when it is longer than the limit, and text that is not flagged is kept. `TruncateSpec` states the cut. |
| BashTool.TruncateSpec | app/tools/bash_tool.py:180-185 | Text that fits is kept and not flagged. Longer text becomes its first `max(0, max - 15)` characters and the marker, and is flagged. For a limit of at least 15 the result is within the limit. |
| BashTool.ResolveTimeout | app/tools/bash_tool.py:166-178 | An accepted timeout is at most the maximum, and a given one is at least 1. `TimeoutContextWins`, `TimeoutRange` and `TimeoutFromString` state the rest. |
| BashTool.TimeoutChecked | app/tools/bash_tool.py:170-178 | A number is accepted exactly when it is in `[1, max]`. |
| BashTool.TimeoutOf | app/tools/bash_tool.py:168-178 | A given value is accepted exactly when `int()` reads it as a number in `[1, max]`, and then that number is the timeout. `TimeoutRange` states the default. |
| BashTool.TimeoutContextWins | app/tools/bash_tool.py:167 | The context's timeout makes the input's irrelevant, and it is accepted exactly when it is in `[1, max]`. |
| BashTool.TimeoutRange | app/tools/bash_tool.py:166-178 | A missing timeout is `min(15, max)`, and an accepted one lies in `[1, max]`. |
| BashTool.TimeoutFromString | app/tools/bash_tool.py:171 | A decimal string is treated as its number. |
| BashTool.LastSegment | app/tools/bash_tool.py:150 | Holds no `/`, and is the whole string when there is no `/`. |
| BashTool.BaseNameSpec | app/tools/bash_tool.py:150 | No base name holds `/`. A plain name is its own base name, and so is the last component of a path. |
| BashTool.CommandSecurity | app/tools/bash_tool.py:137-164 | Only an empty command is refused, and a password is needed exactly for a privileged one. `SecuritySpec` states which commands are safe. |
| BashTool.SecuritySpec | app/tools/bash_tool.py:137-164 | Only a lower-cased base name in the safe set runs without a password. An unparsable command is privileged, and an empty one is refused. |
| BashTool.Parents | app/tools/bash_tool.py:212 | A path has one proper ancestor per component. |
| BashTool.IsWithinPrefix | app/tools/bash_tool.py:208-212 | Within holds exactly when the base is a prefix of the path's components, that is, equal or a proper ancestor. |
| BashTool.IsWithinTransitive | app/tools/bash_tool.py:208-212 | Within is reflexive and transitive. |
| BashTool.CheckedDir | app/tools/bash_tool.py:131-135 | Accepted exactly when the directory exists and is allowed. |
| BashTool.ResolveCwd | app/tools/bash_tool.py:120-135 | A resolved directory is the default or an allowed one. |
| BashTool.ResolveCdTarget | app/tools/bash_tool.py:193-206 | A `cd` target is allowed, and `cd` takes at most one argument. |
| BashTool.PrepareRun | app/tools/bash_tool.py:49-61 | A plan keeps the command and its classification. Its directory is the default or allowed, its timeout is the resolved one, and its tokens are the parse of the command. |
| BashTool.Prepare | app/tools/bash_tool.py:50-61 | An empty command is refused first. A plan carries the non-empty stripped command and its classification, its password demand is met, and its tokens are the parse of the command. |
| BashTool.AsTool | app/tools/bash_tool.py:29-47 | The registered tool is named `bash`. |
| BashTool.ExecuteGuards | app/tools/bash_tool.py:50-56 | An empty command, and a password-needing command without `trusted`, are refused, whatever the directory resolver and the shell do. |
| BashTool.PlanChecked | app/tools/bash_tool.py:49-61 | A command that runs is non-blank, its password demand is met, its directory is allowed, and its timeout is in range or the default. |
| BashTool.CdDoesNotRun | app/tools/bash_tool.py:62-80 | The result of a `cd` is the same whatever running a command would do. |
| BashTool.ChangeDir | app/tools/bash_tool.py:62-80 | A `cd` succeeds exactly when its target resolves, and fails with the target's error otherwise. A success is `ok` with exit code 0 and no output. |
| BashTool.FinishSpec | app/tools/bash_tool.py:82-118 | A run has a result exactly when it finished. The result is `ok` exactly for exit status 0, which it reports, and for a limit of at least 15 its output is within the limit. |
| BashTool.Finish | app/tools/bash_tool.py:82-118 | A timed-out run is a timeout error. A finished run reports its output cut by `_truncate`. |
| BashTool.Execute | app/tools/bash_tool.py:49-118 | A failed preparation is returned as it is, and a result is `ok` exactly for exit status 0. `ExecuteGuards`, `PlanChecked`, `CdDoesNotRun` and `ExecuteResult` state the rest. |
| BashTool.ExecuteResult | app/tools/bash_tool.py:49-118 | Every successful result is `ok` exactly for status 0, with output within the limit for a limit of at least 15. |
| Formatting.EscapeChar | app/services/formatting.py:13 | An escaped character holds no `<` or `>`. A special character becomes an entity and any other stays. |
| Formatting.Escape | app/services/formatting.py:13 | Escaped text holds no `<` or `>` and is never shorter. |
| Formatting.EscapeRoundTrip | app/services/formatting.py:13 | Unescaping the escaped text gives the text back. |
| Formatting.EscapeConcat | app/services/formatting.py:13 | Escaping distributes over concatenation. |
| Formatting.EscapePlain | app/services/formatting.py:13 | Text without special characters is unchanged. |
| Formatting.HeaderBlockSpec | app/services/formatting.py:14 | The header block is `<b>` and the escaped header, which holds no tag and reads back, then `</b>` and a blank line. |
| Formatting.FormatWithHeader | app/services/formatting.py:11-14 | The result ends with the escaped text, and holds no tag when there is no header. `FormatWithHeaderSpec` states the header block and the read-back. |
| Formatting.FormatWithHeaderRaw | app/services/formatting.py:17-20 | The result ends with the text as given, and is the text when there is no header. |
| Formatting.FormatWithHeaderSpec | app/services/formatting.py:11-14 | With no header, the text is escaped, with no tag, and reads back. With one, the header block comes first and the escaped text after it. |
| Formatting.FormatWithHeaderRawSpec | app/services/formatting.py:17-20 | With no header the text is unchanged. With one, only the header is escaped. |
| Formatting.RenderLlmText | app/services/formatting.py:57-62 | Markdown mode passes the text through. Without raw HTML the result holds no tag. `RenderLlmTextSpec` states the rest. |
| Formatting.RenderLlmTextSpec | app/services/formatting.py:57-62 | Markdown mode passes the text through. Without raw HTML the text is escaped, so it holds no tag and reads back. Otherwise the result is the converter's output. |
| ToolExec.Rendered | app/services/tool_exec.py:13-34 | The rendering closes with the STDERR section when the stripped stderr is non-empty, and with the STDOUT section otherwise. `RenderedStart` states how it opens. |
| ToolExec.RenderBashResult | app/services/tool_exec.py:13-34 | The method computes the rendering. |
| ToolExec.HeaderLinesFixed | app/services/tool_exec.py:17-23 | The command line comes first, then the role, cwd, exit code and duration lines, in that order. |
| ToolExec.HeaderLines | app/services/tool_exec.py:17-27 | There are five to seven header lines, and the first is `$ ` followed by the command. |
| ToolExec.HeaderLinesFlags | app/services/tool_exec.py:24-27 | A `truncated` line appears for each flag exactly when it is truthy. |
| ToolExec.LinesStart | app/services/tool_exec.py:28 | The stripped header keeps its first lines. |
| ToolExec.RenderedStart | app/services/tool_exec.py:17-28 | The rendering opens with `$ cmd` on its own line, then the role, cwd and exit-code lines, then the start of the duration line. |
| ToolExec.StdoutShown | app/services/tool_exec.py:29-31 | A blank stdout is shown as `<empty>`, and any other is stripped. |
| ToolExec.BodySections | app/services/tool_exec.py:31-34 | The STDOUT section follows the header. The STDERR section closes the body exactly when stderr is non-blank after stripping. |

## Left out

- HTTP and `json.loads`: the transport is a function from a request to a reply, and the parser of
  streamed lines is a function from a line to an optional JSON value.
- Asynchrony: the `asyncio` lock of the buffer and the sleeps of the retry wrapper are not modelled.
  Buffer operations are single atomic state changes. The retry wrapper returns its pauses, in
  half-second units, instead of sleeping.
- `uuid4` is a fresh-id argument of the resolver. Clocks are integer arguments, and stored
  timestamps are integers.
- SQLite: only the three tables' map semantics are modelled. The schema, migrations and the other
  tables are left out.
- Logging, and the `logger` calls inside the resolver and the adapter.
- Unicode: `lower`, `strip` and case-insensitive matching are ASCII only, and `str()` of a list
  or dict is a simplified repr without Python's quoting.
- `int()` accepts an optional sign and ASCII digits with surrounding whitespace. Underscores
  between digits are not accepted.
- Float values in JSON: a context value of type float is not substituted by `{{key}}`, because
  there are no floats in the model.
- `path.format(...)` is modelled for paths whose only placeholder is `{session_id}`.
- For `list_sessions`, the order in which a malformed configuration value and a malformed reply are
  noticed is not modelled; both are failures.
- `shlex.split`, directory resolution (`expanduser`, `resolve`, `exists`, `is_dir`) and the
  subprocess run of the bash tool are oracles.
- `_markdown_to_html_simple` is a converter argument.
- `split_message`'s code-fence regex (app/utils.py:15-16) is not modelled. `Utils.SplitMessage`
  and `Utils.SplitSpec` take its matches as in-bounds, ordered, non-overlapping `(start, end)`
  spans (`Utils.SpansOk`), and their properties hold for every such list. So the model does not
  decide which path runs for a given text, and it does not fix the segment boundaries. The regex
  is not the fence scan of `MarkdownAnswers.FindCodeBlocks`: its greedy `[^\n]*` can run past a
  fence that closes on the opening line. For example, it matches "```x``` t\n```y```" as one span.
- `store_text` and the `urllib` URL building of the Markdown-answers plugin are oracles.
- The plugin context is abstract, and hooks are partial functions. A hook entry that is neither
  callable nor absent is not modelled.
- The body of `store_text`, as opposed to its argument and result, is not modelled.
- `apply_postprocess` hands each hook copies (`dict(payload)` and `dict(current)`, app/plugins.py:32
  and :40), so a hook cannot change the caller's payload. Dafny values are immutable, so these
  copies have no counterpart in the model.
- Repeated keys in a JSON object: `json.loads` keeps the last value of a repeated key, while
  `Json.Get` reads the first entry with the key. The model reads documents with distinct keys
  correctly and does not check that their keys are distinct.
- `set` iteration order in `extract_role_mentions` is unspecified in Python, so the model takes
  the role names in a given order.
- Plugin loading, the tool service and the MCP adapter are outside the core and not modelled.
- LlmRouter.SubstituteFields: its own contract says only that failures are field faults. That
  the loop succeeds exactly when every trimmed key resolves is stated by
  `LlmRouter.SubstituteFieldsOk`.
- LlmRouter.SendOutcome: its own contract bounds the failures. The two appended turns are stated
  by `LlmRouter.SendMessage`.
- SessionResolver.LocalPrompt: its own contract states when a turn exists. That the turn is
  trimmed is stated by `SessionResolver.LocalPromptTrimmed`.
- ToolRegistry.Registry.Get and ToolRegistry.Registry.Execute carry no contract of their own. Their
  meaning is stated by `ToolRegistry.Found` and `ToolRegistry.Executed`, the functions they
  return, and by `ToolRegistry.RegisterThenGet` and `ToolRegistry.ExecuteDelegates`.

## Findings

| source | as written | input that shows it | evidently intended | confidence | as-written member | corrected member |
|---|---|---|---|---|---|---|
| app/storage.py:426-439 | `INSERT ... ON CONFLICT(provider_id, key, role_id) DO UPDATE`, with `role_id` NULL for a provider-scoped value | two `set_provider_user_value("p", "auth_token", None, …)` calls: SQLite treats NULLs in a key as distinct, so the second call inserts a new row and the read still returns the first value | a second write replaces the provider-scoped value | medium, not executed | Storage.StaleProviderScopedValue | Storage.UserValuesSet |

`Storage.Store.SetProviderUserValue` follows the code as written, through
`Storage.UserValuesSetAsWritten`. `Storage.UserValuesSet` is the intended upsert, with its
read-back proved.
