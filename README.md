# JGP.DotNetGPT chat core in Dafny

This project models the conversation core of JGP.DotNetGPT, a .NET client for the OpenAI and
Azure OpenAI chat-completion APIs, and proves what it guarantees.

- **`ChatContext`** (`chat_context.dfy`) keeps a history of shared, mutable `Message` objects,
  to which its own methods only ever append (`DumpContext` hands the list itself out, see
  "Left out"). `GetSafeContext` scans that history from the newest message backwards and
  returns the newest messages it takes. It stops once the running total reaches the model's
  budget, before a message that would overflow it, and at a message that `Message.Equals` finds
  already taken. A scanned message whose token count is zero
  or larger than the whole budget gets its content overwritten in place with
  `"Truncated message"`. An empty window becomes a single system message announcing a reset.
  - The method keeps the source's `while` loop and writes through the shared references.
  - It is proved against pure functions (`Taken`, `Probed`, `DataAfterScan`) over a snapshot of
    the history (`Entry`: the message object and its fields when the scan starts).
  - Lemmas state what the window guarantees: a contiguous newest suffix, within budget, no
    duplicates, maximal while budget remains, reset exactly when the newest message does not
    fit, and stable under re-submission.
- **`ChatClient`** (`chat_client.dfy`) holds a registry of functions. Entries added through
  `AppendFunction` are at most three and de-duplicated case-insensitively. It also fixes the order in which each submission appends
  prompt, system, re-submitted and reply messages to its context. The HTTP exchange is a
  parameter: each submission takes the response it would have received.
- **Request models** (`request_models.dfy`, `core_models.dfy`, `legacy_models.dfy`) model the
  lazily created function list and the `function_call` mode shared by both namespaces. They also
  model the Core namespace's `Message` class, whose `Equals` drives the window's de-duplication.
- **`FunctionHandlerFactory`** (`function_handlers.dfy`) is a name-to-handler map with exact,
  case-sensitive lookup. A duplicate registration throws, and so does a missing handler.
- **`RequestBuilder`** (`request_builder.dfy`) picks the key header by deployment type and
  builds the POST request.
- **Response predicates** (`responses.dfy`, `whisper_responses.dfy`) model `IsSuccess`,
  `IsFunctionCall` and `HasFunctionCall`.

External behaviour the model takes as parameters:
- the `cl100k_base` token count of a message's JSON is the uninterpreted `tokens`;
- `StringComparison.OrdinalIgnoreCase` is the case-folding function `fold`;
- `FunctionCall.Equals` is `fcEquals`;
- handler delegates are plain function values.

Some behaviours of the code are kept as written:
- `SubmitAsync(prompt, systemMessage)` never passes `systemMessage` on.
- `SubmitAsync(RequestModel)` appends every message of the request to the history again before
  it recomputes the window.
- A zero-cost message is truncated but still taken.
- Messages without a function call are equal only to themselves, so de-duplication of plain
  chat turns is by reference.

## Model

| member | source | states |
|---|---|---|
| ChatContexts.GetContextLimit | JGP.DotNetGPT/ChatContext.cs:150-164 | The budget is 7500 exactly for gpt-4 and gpt-4-0613, 15500 exactly for the two 16k gpt-3.5 models, 31050 exactly for gpt-4-32k and 31500 exactly for gpt-4-32k-0613. Every other id, known or not, gets 3500, so the limit is always between 3500 and 31500 |
| ChatContexts.ChatContext.constructor | JGP.DotNetGPT/ChatContext.cs:65-68 | The history starts empty and the budget is the model's context limit |
| ChatContexts.ChatContext.AppendMessage | JGP.DotNetGPT/ChatContext.cs:86-90 | A null message leaves the history unchanged; any other message is added at the end and nothing else changes |
| ChatContexts.ChatContext.DumpContext | JGP.DotNetGPT/ChatContext.cs:128-131 | Returns the whole history in append order, including messages no window takes any more |
| ChatContexts.ChatContext.MessageExists | JGP.DotNetGPT/ChatContext.cs:188-191 | A message already in the window is always found, because `Equals` is reflexive |
| ChatContexts.ChatContext.HandleEmptyContext | JGP.DotNetGPT/ChatContext.cs:170-180 | A non-empty window is returned unchanged. An empty one becomes exactly one new system message whose content is the reset notice |
| ChatContexts.ChatContext.GetSafeContext | JGP.DotNetGPT/ChatContext.cs:96-121 | The result is the reset message when nothing is taken, and otherwise the newest `Taken` messages of the history in chronological order. Every history message is left with the fields the scan gives it: truncated exactly when it was probed and cost zero or more than the budget |
| ChatContexts.ChatContext.ScanHistory | JGP.DotNetGPT/ChatContext.cs:98-115 | The loop returns exactly the newest `Taken` messages and leaves every history slot as `DataAfterScan` says |
| ChatContexts.ChatContext.ScanStep | JGP.DotNetGPT/ChatContext.cs:104-114 | One turn either stops with the final window, on a repeat, a full budget or an overflow, or prepends the next older message and adds its cost to the running total |
| ChatContexts.ChatContext.Probe | JGP.DotNetGPT/ChatContext.cs:107-108 | The length is the token count of the message's fields before the call. A zero or oversized count replaces the content with "Truncated message" in place, and nothing else changes |
| ChatContexts.ChatContext.ExistsIsDuplicate | JGP.DotNetGPT/ChatContext.cs:105 | Mid-scan, `MessageExists` on the next older message holds exactly when that slot duplicates a newer taken one by the newer message's `Equals` |
| ChatContexts.ChatContext.ScanEnds | JGP.DotNetGPT/ChatContext.cs:102-115 | When the loop exits, the window is the newest `Taken` messages and the history holds the scan's overwrites |
| ChatContexts.TakenIsFirstHalt | JGP.DotNetGPT/ChatContext.cs:102-115 | The number of messages taken is the first point at which the scan must stop |
| ChatContexts.FirstHaltIsTaken | JGP.DotNetGPT/ChatContext.cs:102-115 | Conversely, any first stopping point is the number taken |
| ChatContexts.ScanEndsAt | JGP.DotNetGPT/ChatContext.cs:102 | A used-up history or a reached budget ends the scan there, with nothing further probed |
| ChatContexts.ScanEndsOnRepeat | JGP.DotNetGPT/ChatContext.cs:105 | A repeated message ends the scan before its token count is taken |
| ChatContexts.ScanEndsOnOverflow | JGP.DotNetGPT/ChatContext.cs:110 | A message that would overflow the budget ends the scan after it has been probed, and possibly truncated |
| ChatContexts.ScanTakesNext | JGP.DotNetGPT/ChatContext.cs:110-114 | Otherwise the message is taken and the running total grows by its cost |
| ChatContexts.WindowWithinBudget | JGP.DotNetGPT/ChatContext.cs:110-113 | The taken messages' costs sum to at most the limit, and so each single cost is at most the limit |
| ChatContexts.OversizedNeverTaken | JGP.DotNetGPT/ChatContext.cs:107-110 | A message costing more than the whole budget is never in the window |
| ChatContexts.WindowHasNoDuplicates | JGP.DotNetGPT/ChatContext.cs:105 | No taken message equals an older taken one by `Message.Equals` as it stood during the scan, and no message object appears twice in the window |
| ChatContexts.SettledWindowHasNoDuplicates | JGP.DotNetGPT/ChatContext.cs:104-111 | With no zero-cost message in the window, no two window messages are equal, judged on the fields they keep after the scan |
| ChatContexts.WindowIsMaximal | JGP.DotNetGPT/ChatContext.cs:102-110 | When the scan stops early with budget to spare, the next older message is a duplicate or would overflow the budget |
| ChatContexts.ResetExactlyWhenNewestDoesNotFit | JGP.DotNetGPT/ChatContext.cs:100-118 | The reset message is returned exactly when the history is empty or its newest message alone exceeds the budget |
| ChatContexts.PlainHistoryDuplicatesAreAliases | JGP.DotNetGPT/ChatContext.cs:188-191 | In a history without function calls, a slot is a duplicate exactly when the same object sits in a newer slot |
| ChatContexts.WindowSurvivesScan | JGP.DotNetGPT/ChatContext.cs:107-108 | Without zero-cost messages in the window, the scan overwrites no window message |
| ChatContexts.AppendedWindowIsStable | JGP.DotNetGPT/Clients/ChatClient.cs:299-304 | Appending the window to a history whose window slots are unchanged makes the next scan take exactly the appended copies and probe no further |
| ChatContexts.ReappendedWindowIsStable | JGP.DotNetGPT/Clients/ChatClient.cs:299-304 | After a scan without zero-cost window messages, re-appending the window makes the next scan take as many messages as the first one did |
| ChatContexts.ReappendedScanReturnsWindow | JGP.DotNetGPT/Clients/ChatClient.cs:299-304 | That next scan returns the very same message objects |
| ChatContexts.ResubmissionSnapshot | JGP.DotNetGPT/Clients/ChatClient.cs:299-302 | The scanned history followed by its re-sent window is recorded as the post-scan history followed by the window's slots |
| ChatContexts.ResubmittedSnapshot | JGP.DotNetGPT/Clients/ChatClient.cs:299-302 | The scanned history followed by the window `GetSafeContext` returned is recorded as the post-scan slots followed by the window's newest slots, or by the reset message with its notice |
| ChatContexts.WindowSlotKeepsData | JGP.DotNetGPT/ChatContext.cs:107-108 | A taken message whose token count is neither zero nor over the budget keeps its fields through the scan |
| ChatContexts.WindowIsResent | JGP.DotNetGPT/Clients/ChatClient.cs:299-304 | Re-sending a window to the context that produced it yields that same window |
| ChatContexts.RepeatIsDuplicate | JGP.DotNetGPT/ChatContext.cs:105 | Some window message says it equals the next older message exactly when that slot is a duplicate |
| ChatContexts.TakeNext | JGP.DotNetGPT/ChatContext.cs:111-114 | Prepending the next older message and adding its cost keeps the loop invariant |
| CoreModels.Message.constructor | JGP.DotNetGPT/Core/Models/RequestModel.cs:70-98 | A new message has exactly the given role, content, name and function call, and the `Message` runtime type |
| CoreModels.Message.Equals | JGP.DotNetGPT/Core/Models/RequestModel.cs:112-123 | Never equal to null and always equal to itself. Never equal to another runtime type, nor to another object when this message has no function call. Another object is equal exactly when it has the same runtime type, equal role, content and name, this message has a function call, and `FunctionCall.Equals` holds between that call and the other's (both directions) |
| CoreModels.Message.HasFunctionCall | JGP.DotNetGPT/Core/Models/RequestModel.cs:105 | Whether the message carries a function call; its body (`functionCall.Some?`, i.e. `FunctionCall != null`) is the definition, and `HasFunctionCallFollowsField` states that property |
| CoreModels.HasFunctionCallFollowsField | JGP.DotNetGPT/Core/Models/RequestModel.cs:105 | `HasFunctionCall` holds exactly when the function call is not null |
| CoreModels.PlainMessagesEqualOnlyThemselves | JGP.DotNetGPT/Core/Models/RequestModel.cs:118-122 | A message without a function call equals another exactly when they are the same object |
| RequestModels.RequestModel.constructor | JGP.DotNetGPT/Core/Models/RequestModel.cs:15-36 | The model defaults to gpt-3.5-turbo-0613, the messages to empty, and the function list and call mode to null. JGP.DotNetGPT/Models/RequestModel.cs lines 15-36 hold the same code |
| RequestModels.RequestModel.AppendFunction | JGP.DotNetGPT/Core/Models/RequestModel.cs:43-50 | A null function changes nothing. Otherwise the function goes after the old list, or after an empty one when the list is null; the call mode becomes the given value ("auto" by default); model and messages are kept. JGP.DotNetGPT/Models/RequestModel.cs lines 43-50 hold the same code |
| RequestModels.RequestModel.AppendFunctions | JGP.DotNetGPT/Core/Models/RequestModel.cs:57-64 | A null or empty list changes nothing. Otherwise the functions follow the old (or empty) list in order, and the call mode is set. JGP.DotNetGPT/Models/RequestModel.cs lines 57-64 hold the same code |
| ChatClients.ChatClient.constructor | JGP.DotNetGPT/Clients/ChatClient.cs:114-127 | A null or empty model becomes gpt-3.5-turbo-16k. The new context is empty and has that model's budget. No function is registered |
| ChatClients.ChatClient.CreateDirectDeployment | JGP.DotNetGPT/Clients/ChatClient.cs:165-168 | A new client for the OpenAI endpoint with the Direct deployment and no functions. Its new, empty context has the token limit of the chosen model (the default when null or empty), the given tokenizer and function-call equality, and the client keeps the given case folding |
| ChatClients.ChatClient.CreateAzureDeployment | JGP.DotNetGPT/Clients/ChatClient.cs:177-180 | A new client for the given URL with the Azure deployment and no functions. Its context and case folding are as for `CreateDirectDeployment` |
| ChatClients.ChatClient.AppendTurn | JGP.DotNetGPT/Clients/ChatClient.cs:342-349 | The `new Message { ... }` then `Context.AppendMessage` step, also used at lines 148-154 and 209-225: exactly one fresh message of the `Message` runtime type joins the end of the history, with the given role, content and name and no function call, and every older message keeps its fields |
| ChatClients.ChatClient.AppendSystemMessage | JGP.DotNetGPT/Clients/ChatClient.cs:146-157 | Exactly one new system message with the given content is added, after the unchanged old history |
| ChatClients.NoneMatch | JGP.DotNetGPT/Clients/ChatClient.cs:253 | True exactly when every entry is named and none matches case-insensitively. False exactly when a match comes before any nameless entry. Otherwise the check throws a null reference |
| ChatClients.ChatClient.AppendFunction | JGP.DotNetGPT/Clients/ChatClient.cs:249-259 | The registry becomes `RegistryAfterAppend`, or the exception is returned and the registry is kept |
| ChatClients.RegistryAfterAppend | JGP.DotNetGPT/Clients/ChatClient.cs:251-256 | The registry `AppendFunction` leaves, or the exception it throws: unchanged at three or more functions, otherwise extended exactly when the `TrueForAll` scan (`NoneMatch`) finds no entry named alike. The body is the definition; `AppendAddsOnlyNewNames` and `AppendKeepsRegistryValid` state its properties |
| ChatClients.AppendAddsOnlyNewNames | JGP.DotNetGPT/Clients/ChatClient.cs:251-256 | The function is appended exactly when fewer than three are registered, all named, none named alike. Otherwise the registry is unchanged, and the call throws exactly when a nameless entry is met first |
| ChatClients.AppendKeepsRegistryValid | JGP.DotNetGPT/Clients/ChatClient.cs:249-259 | Appending keeps at most three entries, no two named alike |
| ChatClients.AppendNamedIsIdempotent | JGP.DotNetGPT/Clients/ChatClient.cs:253-256 | Appending the same named function twice is the same as appending it once |
| ChatClients.NamelessAppendedTwiceThrows | JGP.DotNetGPT/Clients/ChatClient.cs:253 | A nameless function is registered once, and appending it again throws |
| ChatClients.Survivors | JGP.DotNetGPT/Clients/ChatClient.cs:270 | The result holds exactly the entries not named like `name`, and is no longer than the registry |
| ChatClients.SurvivorsKeepOrder | JGP.DotNetGPT/Clients/ChatClient.cs:270 | Removal distributes over concatenation, so the survivors keep their order |
| ChatClients.SurvivorsIdentityAndIdempotent | JGP.DotNetGPT/Clients/ChatClient.cs:270 | Removing a name nobody has changes nothing, and removing twice is removing once |
| ChatClients.SurvivorsKeepRegistryValid | JGP.DotNetGPT/Clients/ChatClient.cs:266-273 | Removal keeps the registry valid |
| ChatClients.RegistryAfterRemove | JGP.DotNetGPT/Clients/ChatClient.cs:268-270 | The registry `RemoveFunction` leaves, or the exception it throws: unchanged when empty, a `NullReferenceException` when some entry is nameless, otherwise the `Survivors`. The body is the definition; `RemoveDropsExactlyTheName` states its property |
| ChatClients.RemoveDropsExactlyTheName | JGP.DotNetGPT/Clients/ChatClient.cs:266-273 | `RemoveFunction` throws exactly when some entry is nameless. Otherwise an entry stays exactly when it is not named like `name`, and the registry stays valid |
| ChatClients.ChatClient.RemoveFunction | JGP.DotNetGPT/Clients/ChatClient.cs:266-273 | The registry becomes `RegistryAfterRemove` (unchanged when empty), or the exception is returned |
| ChatClients.ChatClient.ClearFunctions | JGP.DotNetGPT/Clients/ChatClient.cs:279-284 | No function remains registered |
| ChatClients.Turns | JGP.DotNetGPT/Clients/ChatClient.cs:207-227 | At most two turns are appended, and each has content that is not null or white space |
| ChatClients.ChatClient.BuildRequest | JGP.DotNetGPT/Clients/ChatClient.cs:205-238 | The prompt turn, then the system turn, join the history as new messages. The request is fresh, for this client's model, and its messages are the window of the history including them, each either from the old history or new. The registered functions are attached with "auto" only when there are any |
| ChatClients.ChatClient.AppendTurns | JGP.DotNetGPT/Clients/ChatClient.cs:207-227 | Exactly the `Turns` messages join the history, in order, as new objects, and older messages keep their fields |
| ChatClients.ChatClient.NewRequest | JGP.DotNetGPT/Clients/ChatClient.cs:229-235 | A fresh request with the client's model and the window, offering the functions only when some are registered |
| ChatClients.WindowComesFromHistory | JGP.DotNetGPT/Clients/ChatClient.cs:229-233 | A window that is not the reset message holds only messages of the history |
| ChatClients.Reply | JGP.DotNetGPT/Clients/ChatClient.cs:314-317 | At most one reply is appended, and there is one exactly when the response has a first choice with a message |
| ChatClients.ChatClient.SubmitRequest | JGP.DotNetGPT/Clients/ChatClient.cs:295-320 | The request's messages join the history in order, then the reply. The request's messages become the window of the history with them appended, and the response is returned. The request's model, functions and call mode, which are serialized and sent with it, are unchanged |
| ChatClients.ChatClient.AppendAll | JGP.DotNetGPT/Clients/ChatClient.cs:299-302 | The loop appends the messages in order and changes no message's fields |
| ChatClients.ChatClient.AppendReply | JGP.DotNetGPT/Clients/ChatClient.cs:314-317 | The history grows by exactly `Reply(response)` |
| ChatClients.ChatClient.SubmitWindow | JGP.DotNetGPT/Clients/ChatClient.cs:299-304 | Re-submitting a freshly built window sends the window of the history `Resubmitted` describes (the scanned slots, then the window or the reset notice) and leaves that history as its scan settles it. A window without zero-cost messages is sent unchanged. The request's model, functions and call mode are unchanged |
| ChatClients.ChatClient.BuildAndSubmit | JGP.DotNetGPT/Clients/ChatClient.cs:330-331 | The history ends with the new turns, the built window sent back, and the reply. The built window is the taken suffix, or one fresh message. The request goes out with the window of the second scan over `Resubmitted`, which leaves the history up to the reply as that scan settles it. That window is the built one whenever the built one was cut from the history and has no zero-cost message. The request sent (`outgoing`) is fresh, carries that window, names the client's model, and offers the registered functions with "auto" exactly when there are any (`Offers`) |
| ChatClients.ChatClient.SubmitContext | JGP.DotNetGPT/Clients/ChatClient.cs:351-353 | With no prompt, nothing joins the history before the window is sent back and answered. What is sent, and how the history is left, is as for `BuildAndSubmit` over the history as it stood, and so is the request sent |
| ChatClients.ChatClient.SubmitPrompt | JGP.DotNetGPT/Clients/ChatClient.cs:328-332 | The history ends with the prompt (unless white space), the window sent back, and the reply; `systemMessage` is ignored. What is sent (window, model and functions), and how the history is left, is as for `BuildAndSubmit` |
| ChatClients.ChatClient.SubmitFunctionResponse | JGP.DotNetGPT/Clients/ChatClient.cs:340-354 | One new function-role message, carrying the name and the content, joins the history, then the window sent back and the reply. What is sent (window, model and functions), and how the history is left, is as for `BuildAndSubmit` over the history with that message |
| FunctionHandlers.AddHandler | JGP.DotNetGPT/FunctionHandlerFactory.cs:37 | Fails with the duplicate-key error exactly when the name is present. Otherwise the name maps to the handler and every other entry is kept |
| FunctionHandlers.Dispatch | JGP.DotNetGPT/FunctionHandlerFactory.cs:50-55 | Succeeds exactly when the name is registered, with that handler applied to the parameter. Otherwise it fails with "No handler found for function: " and the name |
| FunctionHandlers.FunctionHandlerFactory.constructor | JGP.DotNetGPT/FunctionHandlerFactory.cs:16-18 | The handler map starts empty |
| FunctionHandlers.FunctionHandlerFactory.Create | JGP.DotNetGPT/FunctionHandlerFactory.cs:24-27 | A new factory with no handlers |
| FunctionHandlers.FunctionHandlerFactory.AddFunctionHandler | JGP.DotNetGPT/FunctionHandlerFactory.cs:35-39 | The map becomes `AddHandler`'s result, or the error is returned and the map is kept |
| FunctionHandlers.FunctionHandlerFactory.ExecuteFunctionHandler | JGP.DotNetGPT/FunctionHandlerFactory.cs:48-56 | The result is `Dispatch` on the current map |
| FunctionHandlers.DispatchAfterAdd | JGP.DotNetGPT/FunctionHandlerFactory.cs:35-53 | After a registration, the new name runs the new handler and every other name behaves as before |
| FunctionHandlers.SecondAddFails | JGP.DotNetGPT/FunctionHandlerFactory.cs:37 | Registering a name twice fails the second time and keeps the first handler |
| FunctionHandlers.LookupIsExact | JGP.DotNetGPT/FunctionHandlerFactory.cs:50 | A handler is not found under any other spelling, including one that differs only in case |
| RequestBuilders.BuildApiKeyHeader | JGP.DotNetGPT/Builders/RequestBuilder.cs:40-45 | The header value ends with the key. The header is named "Authorization" exactly for the Direct deployment, and for Azure it is `api-key` holding the bare key |
| RequestBuilders.HeaderDependsOnDeploymentAndKey | JGP.DotNetGPT/Builders/RequestBuilder.cs:42-44 | The header name depends on the deployment only: `Authorization` with "Bearer " plus the key for Direct, `api-key` with the bare key for Azure. Values are equal exactly when the keys are |
| RequestBuilders.BuildChatRequest | JGP.DotNetGPT/Builders/RequestBuilder.cs:19-31 | A POST to the chat URL with one header and the given body as UTF-8 application/json |
| RequestBuilders.RequestCarriesKeyHeader | JGP.DotNetGPT/Builders/RequestBuilder.cs:27-30 | The one header is the key header |
| Responses.ResponseModel.IsFunctionCall | JGP.DotNetGPT/Models/ResponseModel.cs:64-67 | Whether there is at least one choice and the first choice's message has a function call; callable only when that first message is present, since the source dereferences it. The body is the definition; `NoChoicesIsNoFunctionCall` and `FunctionCallIsDecidedByFirstChoice` state its properties |
| Responses.NoChoicesIsNoFunctionCall | JGP.DotNetGPT/Models/ResponseModel.cs:64-67 | With null or empty choices, the response is never a function call |
| Responses.FunctionCallIsDecidedByFirstChoice | JGP.DotNetGPT/Models/ResponseModel.cs:66 | With at least one choice, `IsFunctionCall` is the first message's `HasFunctionCall`, and later choices are ignored |
| Responses.ResponseModel.IsSuccess | JGP.DotNetGPT/Models/ResponseModel.cs:73-76 | Whether the response carries no error object. The body is the definition; `SuccessIsAbsenceOfError` states its property |
| Responses.SuccessIsAbsenceOfError | JGP.DotNetGPT/Models/ResponseModel.cs:73-76 | The response succeeds without an error and fails with any error, whatever else it holds |
| Responses.ResponseMessage.HasFunctionCall | JGP.DotNetGPT/Models/ResponseModel.cs:123 | Whether the reply message's function call is set. The body is the definition; `FunctionCallFlagFollowsField` states its property |
| Responses.FunctionCallFlagFollowsField | JGP.DotNetGPT/Models/ResponseModel.cs:123 | A reply message asks for a function exactly when its own function call is set |
| WhisperResponses.WhisperResponseModel.IsSuccess | JGP.DotNetGPT/Models/WhisperResponseModel.cs:29 | Whether the transcription text is neither null nor empty. The body is the definition; `SuccessIsNonEmptyText` states its property |
| WhisperResponses.SuccessIsNonEmptyText | JGP.DotNetGPT/Models/WhisperResponseModel.cs:29 | Success holds exactly for a non-empty text: a null or empty text fails, and the error plays no part |

## Left out

- HTTP and async: `HttpClient`, `SendAsync`, reading the body, `SetClientTimeout`, and `Task`/`await` are not modelled. Each submission takes the deserialized response (or null) as a parameter and returns it.
- JSON serialization and the SharpToken tokenizer are not modelled. A message's token count is the uninterpreted `tokens` of its fields.
- `ChatContext.Length` is left out. It tokenizes the serialized whole history, which is not a function of per-message counts.
- `FunctionCall.Equals` and the Core namespace's `FunctionCall` and response classes are not part of this model. Equality is the parameter `fcEquals`, and a response is reduced to its choices' messages.
- `FunctionCall.ToFunctionParameters` is left out: it is a JSON deserialization into a caller-chosen type.
- `RemoveAll` is left out on a registry holding a nameless entry. It throws, and the model leaves the registry unchanged, whereas .NET may already have compacted part of the list.
- `ChatClients.ChatClient.SubmitRequest`: a null entry in a request's message list, and a request list that is the history list itself, are not modelled; messages are non-null references.
- The client's `Functions` is a public, mutable list in the source (JGP.DotNetGPT/Clients/ChatClient.cs:139). A caller can add, remove or reorder entries directly, bypassing the cap of three and the case-insensitive de-duplication. The model keeps the registry private to the client's methods, so such direct writes are not modelled. The registry properties (`AppendKeepsRegistryValid`, `SurvivorsKeepRegistryValid`) hold only for registries built through `AppendFunction`, `RemoveFunction` and `ClearFunctions`.
- `FunctionHandlers.AddHandler`: a null function name (an `ArgumentNullException` in .NET) is not modelled, because names are non-null strings.
- The older namespace's `Message` is a value (`LegacyModels.Message`): nothing reads its identity.
- `DTO` classes with no behaviour (`Parameter`, `Property`, `Usage`, `Error`, `Choice`, `WhisperErrorModel`) appear only as datatype fields.
- ChatContexts.ChatContext.MessageExists: its own contract states only that a message already in the window is found. What it finds in general is stated by `ExistsIsDuplicate`.
- ChatContexts.ChatContext.DumpContext: returns the history's contents as a value. The source hands out the live history list itself, through which a caller can clear, reorder or grow the history behind the context's back. Passing that list as a request's messages would make the re-append loop of `SubmitAsync(RequestModel)` never end, because the loop appends to the list it walks.
- ChatContexts.ReappendedWindowIsStable: re-submission stability is proved only when no window message had a zero token count. Such a message is truncated in place and may then equal, or cost differently from, what was sent.
