# LocalAI core logic in Dafny

This project models four pieces of LocalAI's request-side logic and proves properties of them.

- **Chat-prompt assembly** (`pkg/model/template.go`). A list of chat messages becomes one prompt string. This covers:
  - the optional Jinja chat template;
  - role remapping for assistant function calls;
  - the per-message chat template, where blank output drops the message;
  - the message-level fallback with JSON-encoded function and tool calls;
  - the system-prompt suppression flag;
  - the join character;
  - the final chat or functions prompt template.

  Template selection (`EvaluateTemplateForPrompt`) picks a per-type configuration template over the model's own `<model>.tmpl` file. With neither, the input passes through unchanged.
- **The OpenAI model list** (`core/http/endpoints/openai/list.go`). Configured models come first, filtered by name. Loose model files follow, minus those a configuration already refers to (unless `excludeConfigured` is false). The list goes inside a `"list"` envelope.
- **The backend monitor** (`api/localai/backend_monitor.go`). A model name resolves to a backend key that always ends in `.bin`. That key's process is then sampled through a chain of fallible lookups, and the first error ends the call.
- **The web UI's gallery job bookkeeping** (`core/http/routes/ui.go`). This covers:
  - the table from gallery ID to job UID, with install, delete and job-done updates;
  - the task-type classifier;
  - the choice of progress view;
  - the sorted, duplicate-free tag list.

Calls into code that is not modelled become parameters or fields of function type (the UUID generator, called once, is a parameter holding its result), and each is left unconstrained. Those that can fail in Go, and whose error the handler acts on, return a `Result` (or an `Option` where Go returns nil or reports a missing entry). They are:
- the Go and Jinja template engines (`Result`);
- `ModelLoader.ListModels`, the loose files in the model directory (`Result`);
- `json.Marshal` (`Option`: no text on a marshalling error);
- `regexp.Compile` (`Result`);
- the configuration lookup (`Option`: no configuration for the name);
- the gRPC PID table (`Result`);
- the gopsutil process probes (`Result`);
- the gallery service's job status (`Option`: nil for an unknown job);
- UUID generation (`Result`).

The following outside calls are total:
- the model-directory file check (yes or no);
- `GetAllConfigs`, the loaded configurations (the `configs` sequence);
- the gallery search;
- `fmt.Sprint` on the job's float progress (`formatProgress`).

`gallery.AvailableGalleryModels` can fail in Go, but the models page discards its error (ui.go:75). So `GalleryUI.Browse` takes whatever list it returns as a plain sequence.

Files:
- `wrappers.dfy`: `Option`, `Result`.
- `strings.dfy`: the `strings` and `sort` behaviour used (`HasSuffix`, `Join`, one-character `Split`, string order, `sort.Strings`).
- `config.dfy`: the configuration fields that are read.
- `templates.dfy`, `listing.dfy`, `monitor.dfy`, `ui.dfy`: one per source file.

Go distinctions that matter here are kept:
- A nil slice differs from an empty one (`ToolCalls != nil` versus `len(ToolCalls) > 0`).
- A missing map key reads as `""`.
- `fmt.Sprint` on two strings concatenates them with no space.
- `int32(pid)` keeps only the low 32 bits.

## Model

| member | source | states |
|---|---|---|
| Templates.TemplateName | pkg/model/template.go:48-72 | A non-empty per-type configuration template (completion, edit, chat, functions) is chosen. Otherwise the model's `.tmpl` file is chosen when it exists. The name is always `""`, the model name or the override. |
| Templates.EvaluateTemplateForPrompt | pkg/model/template.go:47-83 | With no `.tmpl` file and no override, or with an empty model name and no override, the result is `in.Input` with no error. An error is only possible when some template was chosen. |
| Templates.ConfigTemplateOverridesModelFile | pkg/model/template.go:51-72 | A non-empty override is rendered whether or not the `.tmpl` file exists. The result does not depend on the file check. |
| Templates.ModelFileIsTheDefault | pkg/model/template.go:50-53 | Without an override, an existing `<model>.tmpl` is the template rendered. |
| Templates.ChatMessageTemplateHasNoOverride | pkg/model/template.go:55-72 | No template-configuration entry changes what the chat-message template type renders. |
| Templates.JinjaPromptSeesSystemPromptAndInputOnly | pkg/model/template.go:114-122 | `EvaluateJinjaTemplateForPrompt` hands the Jinja engine only the system prompt and the input: two prompt data that agree on those two fields give the same result. |
| Templates.EffectiveRole | pkg/model/template.go:157-167 | An assistant message with a function call or tool calls switches to `assistant_function_call` exactly when that role maps to a non-empty string. Otherwise it keeps its own role. |
| Templates.CallPayload | pkg/model/template.go:171-174 | Non-empty tool calls take precedence. Otherwise the payload is the function call when there is one; nil or empty tool calls never replace it. The payload is absent exactly when there is no function call and no non-empty tool calls. |
| Templates.FallbackMessageContent | pkg/model/template.go:202-245 | The fallback loop body computes exactly the fallback rendering `FallbackContent`. |
| Templates.TemplateMessage | pkg/model/template.go:155-252 | One pass of the message loop gives exactly `RenderMessage`. The message is skipped on blank template output. Otherwise it yields the template's text or the fallback, plus the suppression flag. |
| Templates.FallbackPlainMessage | pkg/model/template.go:223-238 | A message without calls renders as role text + content, as the content alone when the role text is empty, and as `""` without content. |
| Templates.FallbackFunctionCall | pkg/model/template.go:202-241 | A marshalled function call is added as `r + " " + json`, or as the bare json when `r` is empty. It follows a newline when the message has content and otherwise replaces the content. |
| Templates.FallbackToolCallsReplaceFunctionCall | pkg/model/template.go:207-244 | Without content, tool calls overwrite an earlier function call instead of being added after it. |
| Templates.BlankTemplatedMessageIsDropped | pkg/model/template.go:177-196 | A message is dropped exactly when a chat-message template is set and renders it to `""`. |
| Templates.MessageSuppressesIff | pkg/model/template.go:246-249 | A message flags the system prompt exactly when it is a `system` message with content that went through the fallback. |
| Templates.SystemPromptSuppressedIff | pkg/model/template.go:153-271 | The final template's `SuppressSystemPrompt` holds exactly when some system message with content took the fallback path. |
| Templates.FallbackRendersEveryMessage | pkg/model/template.go:155-253 | Without a chat-message template, no message is dropped. The i-th string is message i's fallback rendering. |
| Templates.RenderedMessagesBound | pkg/model/template.go:154-253 | At most one string is rendered per message. |
| Templates.JoinCharacter | pkg/model/template.go:255-258 | The separator is `"\n"` unless `JoinChatMessagesByCharacter` is set, in which case it is that value. |
| Templates.PromptTemplateFor | pkg/model/template.go:263-267 | The functions prompt template is chosen exactly when the configuration names one and `shouldUseFn` holds. Otherwise the chat prompt template is chosen. |
| Templates.JinjaMessageData | pkg/model/template.go:126-144 | There is one entry per message. `LastMessage` holds only for the last index, `MessageIndex` is the position and `RoleName` is the message's own role. |
| Templates.FailedPromptTemplateKeepsJoinedMessages | pkg/model/template.go:126-150 | When the Jinja chat template is off or fails, and the final prompt template fails, the joined message strings are returned as they are. |
| Templates.NoTemplateJoinsByNewline | pkg/model/template.go:126-282 | When the Jinja chat template is off or fails, with no override and either no `.tmpl` file or an empty model name, and no join character, the prompt is the rendered messages joined by newlines. |
| Templates.TemplateJinjaChat | pkg/model/template.go:89-112 | The Jinja chat template receives one entry per message, in order. This is the corrected list; see Findings. |
| Templates.TemplateJinjaChatAsWritten | pkg/model/template.go:89-112 | As written, the template receives `len(messageData)` nil entries followed by the real entries. |
| Templates.PaddedConversationHasNilPrefix | pkg/model/template.go:92-107 | For any non-empty conversation the list built as written is twice as long, starts with a nil entry, and differs from the intended list. |
| Templates.JinjaMessageList | pkg/model/template.go:126-144 | The first loop builds exactly `JinjaMessageData`: one entry per message with the fields listed above. |
| Templates.RenderAndJoinMessages | pkg/model/template.go:152-282 | The message loop, join and final prompt template compute exactly `PlainPrompt`. That is the joined rendered messages through the chosen prompt template, or the joined text itself if that template fails. |
| Templates.TemplateMessages | pkg/model/template.go:124-283 | The returned prompt is `TemplatedPrompt`. When Jinja is enabled and the Jinja chat template succeeds on the nil-padded list that templateJinjaChat builds, its output is returned. Otherwise the result is `PlainPrompt`. |
| Templates.TemplateMessagesCorrected | pkg/model/template.go:124-150 | The same procedure with the corrected Jinja list (one entry per message) returns `CorrectedTemplatedPrompt`. |
| Templates.PaddingMattersOnlyForJinjaChat | pkg/model/template.go:126-150 | With Jinja off, or with no messages, the prompt as written and the corrected prompt are equal. |
| ModelListing.FilterFn | core/http/endpoints/openai/list.go:22-37 | An empty filter accepts every name. A non-empty filter succeeds exactly when the regular expression compiles. On success it is the compiled expression's matcher; on failure it carries the compile error. |
| ModelListing.ListModels | core/http/endpoints/openai/list.go:12-69 | A model-listing failure or a compile failure is returned as the error, with no list. Otherwise the envelope is `"list"` around `Listing`: configured entries, then loose entries. Exclusion defaults to true. |
| ModelListing.ConfiguredEntriesExact | core/http/endpoints/openai/list.go:43-51 | Configured entries are exactly the configurations whose `Name` passes the filter. Each has object `"model"`. |
| ModelListing.LooseEntriesExact | core/http/endpoints/openai/list.go:54-59 | Loose entries are exactly the files that are not excluded and pass the filter. Each has object `"model"`. |
| ModelListing.ConfiguredEntriesComeFirst | core/http/endpoints/openai/list.go:42-59 | The configured entries form a prefix of the listing, in configuration order. Every entry after that prefix is a loose file. |
| ModelListing.ExcludedFilesNeverListed | core/http/endpoints/openai/list.go:39-46 | With exclusion on, no loose entry equals any configuration's `Model`. The filter tests `Name`, so this holds even when that configuration's name is filtered out. |
| ModelListing.EveryAcceptedFileListedWithoutExclusion | core/http/endpoints/openai/list.go:44-58 | With exclusion off, every loose file that passes the filter is listed. |
| ModelListing.ListingShape | core/http/endpoints/openai/list.go:49-57 | Every entry has object `"model"` and passes the filter. There are at most as many entries as configurations and files together. |
| BackendMonitoring.ToInt32 | api/localai/backend_monitor.go:60 | `int32(pid)` is the identity on the int32 range and agrees with the PID modulo 2^32. |
| BackendMonitoring.NormalizeBackendName | api/localai/backend_monitor.go:48-50 | The key always ends in `.bin`. A name already ending in `.bin` is unchanged. Otherwise `.bin` is appended to the name. |
| BackendMonitoring.NormalizeIdempotent | api/localai/backend_monitor.go:48-50 | Normalising twice is the same as normalising once. |
| BackendMonitoring.BackendName | api/localai/backend_monitor.go:39-50 | With a configuration for the name, the key is built from the configuration's `Model`. Otherwise it is built from the raw name. |
| BackendMonitoring.SampleBackend | api/localai/backend_monitor.go:38-91 | A PID lookup failure is returned as the error. A sample implies that both the PID lookup and the process lookup succeeded. |
| BackendMonitoring.PidFailureSkipsProbes | api/localai/backend_monitor.go:52-57 | After a PID failure the result does not depend on any process probe. |
| BackendMonitoring.SampleReportsFirstFailure | api/localai/backend_monitor.go:60-90 | A sample is returned exactly when the memory-info, memory-percent and CPU-percent probes all succeed, and it carries their values. Otherwise the first failure's error is returned. |
| GalleryUI.WithoutValue | core/http/routes/ui.go:233-238 | The table after job completion keeps exactly the keys whose value is not the job UID, with their values unchanged. |
| GalleryUI.ProcessingModels.constructor | core/http/routes/ui.go:33 | The table starts empty. |
| GalleryUI.ProcessingModels.Set | core/http/routes/ui.go:149 | Records one key, leaving the rest of the table as it was. |
| GalleryUI.ProcessingModels.Delete | core/http/routes/ui.go:236 | Removes one key, leaving the rest as it was. |
| GalleryUI.ProcessingModels.Get | core/http/routes/ui.go:234 | Reads a key's job UID. A missing key reads as `""`. |
| GalleryUI.ProcessingModels.Keys | core/http/routes/ui.go:233 | Every key, each once. |
| GalleryUI.TaskType | core/http/routes/ui.go:43-49 | `"Deletion"` exactly when a status exists and marks a deletion. `"Waiting"` exactly when there is no status. `"Installation"` exactly when a status exists for an install. |
| GalleryUI.ModelStatus | core/http/routes/ui.go:37-53 | Returns the table itself and a task-type map with exactly the table's keys. Each key gets the task type of its job's status. |
| GalleryUI.InstallModel | core/http/routes/ui.go:138-161 | If UUID generation fails, its error is returned and the table is unchanged. Otherwise the table gains `galleryID ↦ uid`, and the reply starts an "Installation" progress bar at `"0"` for an install job. |
| GalleryUI.GalleryName | core/http/routes/ui.go:168-174 | An ID without `@` is its own name. Otherwise the name is what follows the first `@`, up to the next `@` or the end. The name never contains `@`. |
| GalleryUI.SplitSecondPiece | core/http/routes/ui.go:173 | `Split(id, "@")[1]` exists when `@` occurs, and it is the text after the first `@` up to the next one. |
| GalleryUI.DeleteModel | core/http/routes/ui.go:165-200 | If UUID generation fails, its error is returned and the table is unchanged. Otherwise both the model name and the full ID map to the new UID. The reply starts a "Deletion" progress bar for a delete job on the model name. |
| GalleryUI.DeleteRecordsBothKeys | core/http/routes/ui.go:186-187 | After a delete, both keys are present and map to the job, and no other key is added. |
| GalleryUI.JobProgressView | core/http/routes/ui.go:205-223 | No status gives bar `"0"`. Full progress gives bar `"100"` with the done trigger, checked before any error. Otherwise an error gives the error view with its message and the job's gallery model name. Anything else gives the formatted current progress without the trigger. |
| GalleryUI.DoneViewFor | core/http/routes/ui.go:244-251 | A missing status is a nil dereference. Otherwise the view names the gallery ID and says "Deletion completed" for a delete job and "Installation completed" for an install job. It offers "delete" exactly for a finished install. |
| GalleryUI.RemoveJobEntries | core/http/routes/ui.go:232-238 | The key loop removes every entry whose value is the job UID and leaves all other entries untouched. The reported ID is a removed key when one matched, `""` otherwise. |
| GalleryUI.JobDone | core/http/routes/ui.go:227-252 | The table loses exactly the finished job's entries, with the reported ID as above. The view is `DoneViewFor` that ID and the job's status. |
| GalleryUI.InstallThenDone | core/http/routes/ui.go:232-238 | With a fresh UID, completing an install job removes exactly the key the install recorded. |
| GalleryUI.DeleteThenDone | core/http/routes/ui.go:183-238 | With a fresh UID, completing a delete job removes exactly the two keys the delete recorded. |
| GalleryUI.GatherTags | core/http/routes/ui.go:78-84 | The set of tags is the union of every model's tags. |
| GalleryUI.SetElements | core/http/routes/ui.go:85-87 | The list holds every tag of the set, each once. |
| GalleryUI.CollectTags | core/http/routes/ui.go:77-88 | The tag list is strictly ascending, so it is sorted with no duplicates. It holds exactly the union of all models' tags. |
| GalleryUI.Browse | core/http/routes/ui.go:72-92 | Tags are built from the unfiltered models. The models shown are the search result when a term is given, and all models otherwise. |
| GalleryUI.TagListIsDetermined | core/http/routes/ui.go:78-91 | Two tag lists meeting CollectTags's contract for the same models are equal. The list therefore depends on the models alone and not on the search term or the map's iteration order. |
| Strings.Split | core/http/routes/ui.go:173 | `strings.Split` always yields at least one piece. |
| Strings.SplitJoin | core/http/routes/ui.go:173 | Joining the pieces of a split with the separator gives the original string back. |
| Strings.JoinAppend | pkg/model/template.go:260 | `strings.Join` of no parts is `""`, of one part is that part, and one more part adds the separator and the part. So the result is the parts in order with one separator between consecutive ones. |
| Strings.HasSuffixIffConcat | api/localai/backend_monitor.go:48 | `strings.HasSuffix(s, suffix)` holds exactly when `s` is some string followed by `suffix`. |
| Strings.SortStrings | core/http/routes/ui.go:88 | `sort.Strings` rearranges its input: the same multiset of strings. |
| Strings.SortStringsSorted | core/http/routes/ui.go:88 | The output of `sort.Strings` is in ascending order. |

## Left out

- Concurrency. The handlers and the synchronised map are modelled as sequential. The goroutine sends to the gallery service's channel (ui.go:156-158 and 194-197) are reduced to the `GalleryOp` returned. The install op's gallery list (`Galleries`, ui.go:154) is not modelled, because the handler only copies it from the application configuration. `RemoveBackendConfig` is not modelled.
- HTML rendering, Fiber routing and the template data maps. Views are returned as the values the templates receive, and the welcome and P2P pages and the search POST route are not modelled. UUID generation and `fmt.Sprint` on a float are parameters.
- The template engines, Jinja evaluation, `json.Marshal` and regular expressions are uninterpreted functions that may fail. Their output is not modelled.
- The gopsutil probes and their float percentages. Percentages and job progress are exact reals.
- `ModelLoader.ListModels`, `GetAllConfigs`, `GetConfig` and `GetGRPCPID` are parameters. The backend registry, loading, eviction and process spawning are not part of this model.
- Log messages are not modelled.
- GalleryUI.ProcessingModels.Keys: the order of the keys is not modelled. The job-done handler reports one of the matching keys, whichever its iteration meets last.
- GalleryUI.DoneViewFor: the nil-status dereference is modelled as the `NilStatusPanic` outcome. What the web server does after the panic is not modelled. The table entries are removed before it happens, as in the source.
- Templates.EvaluateTemplateForChatMessage (pkg/model/template.go:85-87) is the text/template engine's call on chat-message variables. It is the `evaluateChatMessageTemplate` field of the model loader, which the message loop calls directly.
- Go compares and slices strings as UTF-8 bytes. Strings here are sequences of code points, so the model cannot represent invalid UTF-8. On valid UTF-8 the byte order and the code-point order agree.
- Templates.EvaluateTemplateForPrompt: the result of a chosen template is stated by Templates.ConfigTemplateOverridesModelFile and Templates.ModelFileIsTheDefault rather than in its own contract.

## Findings

| source | as written | input that shows it | evidently intended | confidence | as-written member | corrected member |
|---|---|---|---|---|---|---|
| pkg/model/template.go:92-107 | The `messages` slice is created with length `len(messageData)` and the message maps are then appended, so the Jinja template receives `len(messageData)` nil entries before the real messages. | Any non-empty message list, e.g. one user message: the template gets `[nil, {Role: …}]` instead of `[{Role: …}]`. | A list with one entry per message, in order (capacity, not length, `len(messageData)`). Templates.TemplateMessages passes the padded list, as the source does. Templates.TemplateMessagesCorrected passes the corrected one. | not executed | Templates.TemplateJinjaChatAsWritten | Templates.TemplateJinjaChat |
