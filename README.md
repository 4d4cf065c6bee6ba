# ellie-cli in Dafny

`ellie` is a command-line client for the Ellie planner's REST API. It is a
thin layer: it resolves an API key and a base URL from environment
variables, a key file or a YAML config file; it sends authenticated JSON
requests to fixed endpoints; and it prints the tasks, labels and
settings it gets back, either as text or as indented JSON (`--json`).

This project models that core and proves what it promises:

- **Configuration** (`config.dfy`, module `Config`). The key is resolved in
  priority order: `ELLIE_API_KEY` (trimmed), then the file named by
  `ELLIE_API_KEY_FILE` (trimmed), then the stored `api_key` setting. The
  base URL: `ELLIE_BASE_URL`, then the `base_url` setting with its default
  `https://api.ellieplanner.com`. viper's process-wide store is the class
  `Registry`. It has three map layers (explicit `Set` values, the config
  file and the defaults) and records the last file it wrote.
- **HTTP client** (`client.dfy`, `api.dfy`). The transport is a function
  from an outgoing `Request` to an `Exchange`. An exchange either could
  not be built, could not be sent, has a body that could not be read, or
  was received with a status and body bytes. Each endpoint fixes its
  method, its route and how identifiers are escaped into the path.
  `url.QueryEscape` and `url.PathEscape` are modelled byte for byte, so
  the route and query parameters of every path can be recovered and
  unescaped back to the identifier. Decoding a reply goes through a
  `Codec` of decoder functions.
- **Wire models** (`models.dfy`, `json.dfy`). Each data transfer object
  encodes to a JSON value that honours `omitempty` and pointer fields, and
  a reader recovers it from that value (round trips). A task's
  loosely-typed `date`/`start`/`due_date`/timestamp fields are kept as
  `Raw` members.
- **Errors** (`errors.dfy`). Every error the client and the commands
  return, and the exact bytes of its message.
- **Commands** (`cli.dfy`, `cmd_config.dfy`, `cmd_labels.dfy`,
  `task_flags.dfy`, `task_view.dfy`, `cmd_tasks.dfy`). These cover:
  - the order of the checks (required flags before the key lookup);
  - the request each command sends;
  - the lines it prints, each print call one `Output.Line`;
  - the error it returns.

  The task printer and the list printers are loops over the lines they
  emit.
- **Text helpers** (`text.dfy`, `output.dfy`, `wrappers.dfy`). These model
  Go's UTF-8 string-to-bytes conversion, `strings.TrimSpace`, `%d`
  formatting, and facts about printed lines.

## Model

| member | source | states |
|---|---|---|
| Config.Lookup | internal/config/config.go:85 | viper lookup order: an explicitly set value wins over the config file, which wins over a default; an unknown key reads as "" |
| Config.AllSettings | internal/config/config.go:102 | the settings map viper writes holds exactly the known keys, each with the value a lookup would return |
| Config.GetAPIKey | internal/config/config.go:69-90 | fails exactly when no source yields a key: no key variable, and either the key file is unreadable or there is no key file and no stored key; the error names the unreadable file's cause or is the "not configured" error |
| Config.EnvironmentKeyWins | internal/config/config.go:71-73 | a non-empty `ELLIE_API_KEY` decides the key, trimmed, whatever the key file and config file hold |
| Config.BlankEnvironmentKey | internal/config/config.go:71-73 | a whitespace-only `ELLIE_API_KEY` still wins and yields the empty key, with no fallback |
| Config.KeyFileTrimmed | internal/config/config.go:76-82 | with no key variable, a key file holding a key and a newline yields the key without the newline |
| Config.KeyFileFailureStops | internal/config/config.go:77-80 | an unreadable key file is an error whatever the config file holds, so there is no fallback to the stored key |
| Config.StoredKeyUntrimmed | internal/config/config.go:85-87 | the stored `api_key` is returned as stored, untrimmed |
| Config.KeyComesFromASource | internal/config/config.go:69-90 | any resolved key is the trimmed variable, the trimmed key file or the stored setting |
| Config.GetBaseURL | internal/config/config.go:110-115 | a non-empty `ELLIE_BASE_URL` wins; otherwise the `base_url` setting |
| Config.DefaultBaseURLApplies | internal/config/config.go:25 | with nothing set, the base URL is the default `https://api.ellieplanner.com` |
| Config.GetConfig | internal/config/config.go:135-141 | the configuration shows the resolved key, or "" when resolution fails (the error is dropped), and the resolved base URL |
| Config.OverrideChangesOnlyItsKey | internal/config/config.go:99 | `viper.Set` changes the lookup of its own key and no other |
| Config.SavedSettingsReload | internal/config/config.go:102-105 | reading back the written settings as the config file gives every known key its current value |
| Config.Registry.Snapshot | internal/config/config.go:53-60 | the registry's layers as a `Settings` value |
| Config.Registry.constructor | internal/config/config.go:37 | viper starts with no values, no file and no defaults |
| Config.Registry.Init | internal/config/config.go:37-63 | no config dir or a failed mkdir fails and changes nothing; otherwise the `base_url` default is set; a missing file is not an error, a parsed one becomes the file layer, an unreadable one is `failed to read config file` |
| Config.Registry.Store | internal/config/config.go:93-107 | no config dir changes nothing; otherwise the key is set; a failed write is `failed to write config file`; a successful one saves every setting |
| Config.Registry.SetAPIKey | internal/config/config.go:93-107 | `Store` on `api_key` |
| Config.Registry.SetBaseURL | internal/config/config.go:118-132 | `Store` on `base_url` |
| Config.StoredKeyResolves | internal/config/config.go:85-87 | a key set by `SetAPIKey` is the one resolved when neither key variable is set |
| Client.NewClient | internal/api/client.go:22-35 | fails exactly when key resolution fails, with that error; otherwise the client holds the resolved key and base URL |
| Client.BaseURLNeverFails | internal/api/client.go:29 | the base URL source never makes client construction fail |
| Client.Headers | internal/api/client.go:55-57 | every request carries exactly `X-Api-Key` (the client's key), `Content-Type` and `Accept`, both `application/json` |
| Client.UrlJoinsDirectly | internal/api/client.go:39 | the request URL is the base URL followed by the path, with no separator added |
| Client.KeyHeaderIsResolvedKey | internal/api/client.go:22-26 | the `X-Api-Key` header of every request is the key configuration resolved |
| Client.ReportsDetermines | internal/api/client.go:50-74 | the report relation between an exchange and its outcome is a function |
| Client.Classify | internal/api/client.go:50-74 | an unbuildable request, a send failure and an unreadable body become the three wrapped errors in that order; a received status outside 200–299 is an API error with the status and raw body; any 2xx returns the body |
| Client.DoRequest | internal/api/client.go:38-75 | the outcome is the report of the exchange for the request built from the client, method, path and body |
| Client.Get | internal/api/client.go:78-80 | a GET request with no body to base URL + path |
| Client.Post | internal/api/client.go:83-85 | a POST request carrying the given body to base URL + path |
| Client.ErrorStatusReported | internal/api/client.go:70-72 | a non-2xx reply fails with exactly its status and body |
| Api.Decode | internal/api/tasks.go:14-24 | a transport error passes through unchanged; a decoder failure becomes `failed to parse response`; otherwise the decoded value |
| Api.GetTaskPath | internal/api/tasks.go:13 | route `/v1/tasks/getTask` with the single parameter `taskId`, which unescapes to the id's UTF-8 bytes |
| Api.ByDatePath | internal/api/tasks.go:29-32 | route `/v1/tasks/byDate` with `date`, plus `timeZone` exactly when one is given, each unescaping to its value |
| Api.DateOnlyPath | internal/api/tasks.go:29 | the by-date route with the single parameter `date` |
| Api.DateAndZonePath | internal/api/tasks.go:29-32 | the by-date route with `date`, then `timeZone`, which unescapes to the time zone |
| Api.ByListPath | internal/api/tasks.go:49 | route `/v1/tasks/byList` with the single parameter `listId`, which unescapes to the id |
| Api.UpdateTaskPath | internal/api/tasks.go:96 | `/v1/tasks/updateTask/` followed by one last path segment with no `/` or query, which unescapes to the id |
| Api.MarkCompletePath | internal/api/tasks.go:112 | route `/v1/tasks/markTaskAsComplete` with the single parameter `taskId` |
| Api.GetTask | internal/api/tasks.go:12-25 | GETs the task path and decodes one task |
| Api.GetTasksByDate | internal/api/tasks.go:28-45 | GETs the by-date path and decodes a task list |
| Api.GetTasksByList | internal/api/tasks.go:48-62 | GETs the by-list path and decodes a task list |
| Api.GetBraindump | internal/api/tasks.go:65-77 | GETs `/v1/tasks/getBraindump` and decodes a task list |
| Api.CreateTask | internal/api/tasks.go:80-92 | POSTs the encoded create request to `/v1/tasks/createTask` and decodes one task |
| Api.UpdateTask | internal/api/tasks.go:95-108 | POSTs the encoded update request to the update path and decodes one task |
| Api.MarkTaskComplete | internal/api/tasks.go:111-124 | POSTs with no body to the mark-complete path and decodes one task |
| Api.DeleteTask | internal/api/tasks.go:127-131 | POSTs `{"taskId": id}` to `/v1/tasks/deleteTask`; only the error, if any, is returned |
| Api.DeleteIgnoresReplyBody | internal/api/tasks.go:129-130 | two successful deletes with different reply bodies have the same outcome |
| Api.SearchTasks | internal/api/tasks.go:134-147 | POSTs `{"query": q}` to `/v1/tasks/search` and decodes a task list |
| Api.GetCurrentUser | internal/api/users.go:11-23 | GETs `/v1/users/me` and decodes a user |
| Api.UserErrorStatus | internal/api/users.go:12-15 | a non-2xx reply to `/v1/users/me` is returned as the API error, never decoded |
| Api.GetAPIUsage | internal/api/users.go:26-38 | GETs `/v1/users/apiUsage` and decodes the usage record |
| Api.GetLabels | internal/api/labels.go:11-23 | GETs `/v1/labels/getLabels` and decodes a label list |
| Api.CreateLabel | internal/api/labels.go:26-38 | POSTs `{"name", "color"}` to `/v1/labels/createLabel` and decodes one label |
| Api.GetLists | internal/api/lists.go:11-23 | GETs `/v1/lists/getLists` and decodes a list of lists |
| Api.BodiesArriveIntact | internal/api/tasks.go:80-108 | the create and update bodies the client sends decode back to the requests |
| Url.HexDigit | internal/api/tasks.go:13 | an escape's hex digits are unreserved characters |
| Url.EscapeByteEmits | internal/api/tasks.go:13 | each escaped byte is emitted only as characters allowed in its mode |
| Url.Escape | internal/api/tasks.go:13 | every escaped character is one the mode allows |
| Url.QueryEscape | internal/api/tasks.go:13 | a query-escaped value contains no `&`, `=`, `?`, `#` or space, so it cannot break the query string |
| Url.PathEscape | internal/api/tasks.go:96 | a path-escaped value contains no `/`, `?`, `#` or space, so it stays one path segment |
| Url.EscapeRoundTrip | internal/api/tasks.go:13 | unescaping an escaped byte string gives it back, in both modes |
| Url.QueryEscapeRoundTrip | internal/api/tasks.go:13 | `QueryEscape` unescapes to the UTF-8 bytes of the value |
| Url.PathEscapeRoundTrip | internal/api/tasks.go:96 | `PathEscape` unescapes to the UTF-8 bytes of the value |
| Url.OneParam | internal/api/tasks.go:13 | a route plus one escaped parameter parses back to that route and parameter |
| Url.TwoParams | internal/api/tasks.go:29-32 | a route plus two escaped parameters parses back to both, in order |
| Url.EscapedSegment | internal/api/tasks.go:96 | a path-escaped id appended after `/` is the last path segment and adds no query |
| Models.RawOf | internal/models/models.go:9-21 | a loosely-typed member is absent, null, a string (kept), or another JSON value (kept) |
| Models.RawJsonOf | internal/models/models.go:9-21 | turning a member into `Raw` and back loses nothing |
| Models.RawOfJson | internal/models/models.go:9-21 | a canonical `Raw` turned to JSON and back is itself |
| Models.RawString | internal/models/models.go:25-46 | a string member reads as itself; absent, null and non-string members read as "" |
| Models.GetDateString | internal/models/models.go:25-34 | the date as a string when it is one, otherwise "" |
| Models.GetStartString | internal/models/models.go:37-46 | the start as a string when it is one, otherwise "" |
| Models.DateStringOfMember | internal/models/models.go:25-34 | the date string is the decoded JSON string member, or "" for any other member |
| Models.StartStringOfMember | internal/models/models.go:37-46 | same for the start |
| Models.EncodeTask | internal/models/models.go:6-22 | a task encodes to an object using only the task's JSON keys |
| Models.TaskAlwaysHas | internal/models/models.go:7-20 | `id`, `description`, `complete` and `recurring` are always present, with the task's values |
| Models.TaskRawMembers | internal/models/models.go:9-21 | each loosely-typed member is present exactly when it was present on decoding |
| Models.TaskPointerMembers | internal/models/models.go:12-19 | each `omitempty` pointer field is present exactly when set |
| Models.ReadTask | internal/models/models.go:6-22 | a task read from JSON is well formed |
| Models.TaskRoundTrip | internal/models/models.go:6-22 | a well-formed task encoded and read back is itself |
| Models.EncodeLabel | internal/models/models.go:57-61 | a label encodes to exactly `id`, `name` and `color` |
| Models.EncodeCreateTaskRequest | internal/models/models.go:100-108 | `description` always present; every other field present exactly when set |
| Models.CreateTaskRequestRoundTrip | internal/models/models.go:100-108 | a create request encoded and read back is itself |
| Models.EncodeUpdateTaskRequest | internal/models/models.go:111-120 | every field present exactly when set |
| Models.UpdateSendsZeroValues | internal/models/models.go:111-120 | a set `false`, `0` or `""` is still sent (pointer fields, not value fields) |
| Models.EmptyUpdateIsEmptyObject | internal/models/models.go:111-120 | an update request with nothing set encodes to `{}` |
| Models.UpdateTaskRequestRoundTrip | internal/models/models.go:111-120 | an update request encoded and read back is itself |
| Models.EncodeCreateLabelRequest | internal/models/models.go:123-126 | exactly `name` and `color` |
| Models.EncodeSearchRequest | internal/models/models.go:129-131 | exactly `query` |
| Models.EncodeDeleteTaskRequest | internal/models/models.go:134-136 | exactly `taskId` |
| Errors.NotConfiguredNamesEverySource | internal/config/config.go:89 | the "not configured" message names `ELLIE_API_KEY`, `ELLIE_API_KEY_FILE` and `ellie config set-api-key` |
| Errors.ApiErrorSplits | internal/api/client.go:71 | an API error's message is the status lead followed by the raw body bytes |
| Errors.ApiErrorShows | internal/api/client.go:71 | the message contains the decimal status and ends with the body |
| Errors.ApiErrorInjective | internal/api/client.go:71 | different statuses or bodies give different messages |
| Text.TrimSpace | internal/config/config.go:72 | the trimmed string is empty exactly when the input is all white space; otherwise it neither starts nor ends with white space |
| Text.TrimSpaceOnlyEdges | internal/config/config.go:72 | only leading and trailing white space is removed: the input is an all-white-space lead, then the result, then an all-white-space trail |
| Text.TrimSpaceInfix | internal/config/config.go:72 | the trimmed string is a contiguous part of the input |
| Text.TrimSpaceIdempotent | internal/cmd/config.go:21 | trimming twice is trimming once |
| Text.TrimSpaceDropsTrailingSpace | internal/config/config.go:81 | a trailing newline (or other space) does not change the trimmed key |
| Text.Decimal | internal/api/client.go:71 | `%d`: non-empty, a leading `-` exactly for negatives, otherwise digits |
| Text.DecimalRoundTrip | internal/api/client.go:71 | parsing the decimal text gives the number back |
| Text.DecimalInjective | internal/api/client.go:71 | different numbers print differently |
| Text.Utf8 | internal/cmd/config.go:89-94 | Go's string-to-bytes conversion; never shorter than the string |
| Text.Utf8Append | internal/cmd/config.go:89-94 | the conversion distributes over concatenation |
| Text.Utf8Ascii | internal/cmd/config.go:89-94 | an ASCII string converts one byte per character |
| CmdConfig.MaskAPIKey | internal/cmd/config.go:89-94 | same length as the key; a key of at most 12 bytes is all `*`; a longer one keeps the first 8 and last 4 bytes with `*` between |
| CmdConfig.MaskRevealsOnlyEnds | internal/cmd/config.go:89-94 | keys that agree in length, first 8 and last 4 bytes mask identically |
| CmdConfig.ShowLines | internal/cmd/config.go:40-58 | ten lines; the base URL line; the key line masked exactly when a key is set, otherwise "(not set)" |
| CmdConfig.ShowHidesKey | internal/cmd/config.go:45-51 | `config show` prints the same for keys that mask alike, so nothing but the ends of a long key is shown |
| CmdConfig.CheckedArgument | internal/cmd/config.go:21-24 | fails with "… cannot be empty" exactly for an all-white-space argument; otherwise the trimmed, non-empty argument |
| CmdConfig.CheckedArgumentStable | internal/cmd/config.go:21-24 | a checked argument passes the check again unchanged |
| CmdConfig.SetApiKeyCommand | internal/cmd/config.go:20-33 | empty argument: error, no change; otherwise the trimmed key is set; a failure is wrapped as `failed to save API key`; success prints where it was saved |
| CmdConfig.SetBaseUrlCommand | internal/cmd/config.go:68-80 | same for the base URL, printing the new URL |
| CmdLabels.LabelLines | internal/cmd/labels.go:111-114 | two lines per label: "• name (color)", then "  ID: id" |
| CmdLabels.EncodeLabels | internal/cmd/labels.go:91-98 | the JSON array of the labels, in order |
| CmdLabels.OutputLabels | internal/cmd/labels.go:90-109 | prints the labels as specified by `LabelsOutput` |
| CmdLabels.LabelsTextLayout | internal/cmd/labels.go:105-107 | 2n lines; label k's two lines come at lines 2k and 2k+1 |
| CmdLabels.LabelPrinted | internal/cmd/labels.go:105-114 | in a printed list, label k's bullet line starts with "• " and its name, and its second line is "  ID: " followed by exactly its id |
| CmdLabels.NoLabelsMessageIff | internal/cmd/labels.go:100-103 | "No labels found" is printed exactly in text mode for an empty list |
| CmdLabels.CreateLabelRequestFor | internal/cmd/labels.go:42-52 | `--name` is checked before `--color`; the request carries both |
| CmdLabels.RunListLabels | internal/cmd/labels.go:20-32 | no client: its error, nothing printed; a failed call: its error; success prints the labels |
| CmdLabels.RunCreateLabel | internal/cmd/labels.go:38-65 | flag errors come before the key lookup; success prints the created label |
| TaskView.PriorityString | internal/cmd/tasks.go:414-427 | 1–4 print Low, Medium, High, Urgent; anything else prints its decimal value |
| TaskView.PriorityStringInjective | internal/cmd/tasks.go:414-427 | different priorities print differently |
| TaskView.Detail | internal/cmd/tasks.go:386-411 | an optional line is printed exactly when its condition holds, as tag + value |
| TaskView.TaskLines | internal/cmd/tasks.go:377-412 | printTask's lines: the first is the status and description, the second always "    ID: " and the id |
| TaskView.PrintTask | internal/cmd/tasks.go:377-412 | prints the lines as specified by `TaskLines` |
| TaskView.StatusShowsCompletion | internal/cmd/tasks.go:378-383 | the first line starts `[x]` exactly for a completed task and ends with the description |
| TaskView.ShowsTaskLines | internal/cmd/tasks.go:377-412 | a date, estimate or priority tag appears in the output only through its own line |
| TaskView.ShowsMoreTaskLines | internal/cmd/tasks.go:377-412 | the same for the start, label and list tags |
| TaskView.EstimateShownIff | internal/cmd/tasks.go:394-399 | the estimate is printed exactly when it is at least 60 seconds, in whole minutes |
| TaskView.DateShownIff | internal/cmd/tasks.go:386-388 | the date is printed exactly when it is a non-empty string |
| TaskView.StartShownIff | internal/cmd/tasks.go:390-392 | the start is printed exactly when it is a non-empty string, and then as itself |
| TaskView.PriorityShownIff | internal/cmd/tasks.go:401-403 | the priority is printed exactly when it is set |
| TaskView.LabelShownIff | internal/cmd/tasks.go:405-407 | the label line is printed exactly when the task has a label, showing its id |
| TaskView.ListShownIff | internal/cmd/tasks.go:409-411 | the list line is printed exactly when the task belongs to a list, showing its id |
| TaskView.TaskLinesNotBlank | internal/cmd/tasks.go:377-412 | a printed task contains no blank line |
| TaskView.EncodeTasks | internal/cmd/tasks.go:354-361 | the JSON array of the tasks, in order |
| TaskView.OutputTask | internal/cmd/tasks.go:339-351 | one JSON document or the task's lines |
| TaskView.OutputTasks | internal/cmd/tasks.go:353-375 | prints the tasks as specified by `TasksOutput` |
| TaskView.TasksTextLength | internal/cmd/tasks.go:368-373 | at least two lines per task |
| TaskView.TasksSeparated | internal/cmd/tasks.go:368-373 | n tasks are separated by exactly n−1 blank lines |
| TaskView.NoTasksMessageIff | internal/cmd/tasks.go:363-366 | "No tasks found" is printed exactly in text mode for an empty list |
| TaskFlags.CreateRequestFor | internal/cmd/tasks.go:119-140 | the description is sent; every other field exactly when its flag is non-empty or positive, with the flag's value |
| TaskFlags.BuildCreateRequest | internal/cmd/tasks.go:119-140 | builds that request |
| TaskFlags.CreateSendsGivenFlags | internal/cmd/tasks.go:119-140 | the JSON sent has a key exactly for each given flag |
| TaskFlags.WireKey | internal/cmd/tasks.go:172-197 | each update flag maps to one of the update request's JSON keys |
| TaskFlags.UpdateRequestFor | internal/cmd/tasks.go:172-197 | a field is set exactly when its flag was changed on the command line, with the flag's value (zero values included) |
| TaskFlags.BuildUpdateRequest | internal/cmd/tasks.go:172-197 | builds that request |
| TaskFlags.UpdateSendsChangedFlags | internal/cmd/tasks.go:172-197 | the JSON sent has a flag's key exactly when that flag was changed |
| TaskFlags.NoFlagsSendsEmptyObject | internal/cmd/tasks.go:172-197 | with no flag changed the update sends `{}` |
| CmdTasks.RunGet | internal/cmd/tasks.go:21-33 | no client: its error; otherwise the call's error or the task's output |
| CmdTasks.RunList | internal/cmd/tasks.go:39-58 | a missing `--date` fails before the key lookup; otherwise as `get`, for a task list |
| CmdTasks.RunByList | internal/cmd/tasks.go:64-82 | a missing `--list-id` fails before the key lookup |
| CmdTasks.RunBraindump | internal/cmd/tasks.go:88-100 | client, then the braindump call, then the list output |
| CmdTasks.RunCreate | internal/cmd/tasks.go:106-153 | a missing `--desc` fails before the key lookup; the request is the one built from the flags |
| CmdTasks.RunUpdate | internal/cmd/tasks.go:160-210 | sends the request built from the changed flags |
| CmdTasks.RunComplete | internal/cmd/tasks.go:217-229 | marks the task complete and prints it |
| CmdTasks.RunDelete | internal/cmd/tasks.go:236-250 | on success prints "Task deleted successfully" in text mode and nothing in JSON mode |
| CmdTasks.RunSearch | internal/cmd/tasks.go:257-269 | searches and prints the task list |
| CmdTasks.RunAgenda | internal/cmd/tasks.go:276-294 | a missing `--date` fails before the key lookup; prints the tasks for the date |

## Left out

- The network: the transport is a function parameter. The client's 30-second timeout (`internal/api/client.go:32`) and HTTP header canonicalisation are not modelled; the key header is written in its canonical form `X-Api-Key`.
- The bytes of `json.Marshal`/`json.MarshalIndent`: request bodies and JSON output are `Json` values, without key order or indentation. Marshalling these DTOs cannot fail, so the "failed to marshal request body" branch (`internal/api/client.go:44-46`) has no counterpart.
- `json.Unmarshal`: decoding a reply is a `Codec` of decoder functions. Case-insensitive key matching and type coercion belong to it and are not modelled.
- YAML parsing and the config file path: a config file is `Missing`, `Parsed(values)` or `Unreadable(cause)`, and values are strings.
- `filepath.Join`: `CmdConfig.ConfigDir` is plain concatenation, without path cleaning.
- `os.UserConfigDir`, `os.MkdirAll`, `os.ReadFile`, `os.Getenv` and the config write: these are parameters (`userDir`, `mkdirFailure`, `fs`, `env`, `writeFailure`). `config set-*` is assumed to see the same config directory when it computes the path it prints.
- The root command (`root.go`): cobra's argument-count checks, flag registration and "Error:" printing are not modelled. The `--json` flag is the `json` parameter of `Cli.Context`.
- The `users` and `lists` commands (`cmd/users.go`, `cmd/lists.go`) are not part of this model. Their API calls (`Api.GetCurrentUser`, `Api.GetAPIUsage`, `Api.GetLists`) are modelled.
- `GetTasksForDate`, used by `tasks agenda`, is not part of this model. `CmdTasks.RunAgenda` takes that call as a parameter.
- Nil versus empty slices: an empty decoded list is not told apart from a missing one, so JSON mode's `null` for a nil list is not modelled.
- `Models.Subtask` is not used by any command and is not modelled.
- Strings are sequences of Unicode scalar values. Go strings holding invalid UTF-8 are not modelled.
- A description or name that contains a newline prints as one `Output.Line`, not as several terminal lines.
- CmdConfig.ShowConfig: has no contract of its own. Its content is stated by `CmdConfig.ShowLines` and `CmdConfig.ShowHidesKey`; a config directory that cannot be found prints as an empty path.
