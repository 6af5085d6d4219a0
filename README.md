# DingTalk notifier for Claude Code, modelled in Dafny

The repository has four parts:

- **DingTalk robot client.** It builds text, markdown and link messages and signs the webhook URL with HMAC-SHA256 when a secret is configured. It posts the JSON body and reports success exactly when the reply's `errcode` is 0.
- **MCP server.** It holds an optional client and lists a tool catalog. It dispatches each tool call by name to a handler that builds the message text from a template. It turns every thrown error into an `Error: …` reply.
- **Session-end script.** It scans a session log for conversation turns, tool calls, modified files, finished tasks and errors. It formats the elapsed time and a one-line summary, and lays the statistics out as a markdown report.
- **Quick-notify script.** It fills in a short report from its command line or from environment variables and posts it. Its `quickSend` first writes its arguments into the environment, then reads them back.

The model has nine modules:

| module | models |
|---|---|
| `Wrappers` | `Option` |
| `JsText` | the JavaScript string operations used: `trim`, `includes`, `split`, `join`, template interpolation, `||` on strings |
| `JsNumber` | integer rendering; `parseInt` with no radix, NaN included |
| `Host` | JSON values, the clock reading, the process (environment and argv), and the runtime services that are called but not implemented: fetch, HMAC, `encodeURIComponent` |
| `Markdown` | a document model, blocks separated by blank lines, that every notification is shown to render from |
| `DingTalk` | `src/dingtalk.ts` |
| `McpServer` | `src/index.ts` |
| `SessionNotifier` | `src/session-notifier.ts` |
| `QuickNotify` | `src/quick-notify.ts` |

Several members are classes with mutable state:

- the server's client field;
- the quick notifier's client;
- the runtime's list of fetches;
- the process environment that `quickSend` writes.

Those members are methods proved against the pure functions that describe each template, message and configuration.

Two things about the server are worth knowing before reading the model:

- **The declared required fields are never checked.** The tool catalog declares `required` lists (src/index.ts:82, 101, 124, 150). The router hands `arguments` to the handlers with an unchecked cast (src/index.ts:207-230), so a call with a missing "required" field still sends. `McpServer.LinkPassesThrough` states this for the link tool, and `McpServer.ConfigOfArgs` for configure.
- **A sixth tool is dispatched but not listed.** ListTools answers with five tools (src/index.ts:59-198). The switch also dispatches `dingtalk_notify_task_complete` (src/index.ts:229-236) (`McpServer.CatalogShape`).

## Model

| member | source | states |
|---|---|---|
| `DingTalk.TextMessage` | src/dingtalk.ts:69-75 | a well-shaped text message with the content unchanged; `isAtAll` is the given flag or false |
| `DingTalk.MarkdownMessage` | src/dingtalk.ts:77-83 | a well-shaped markdown message with title and text unchanged; `isAtAll` is the flag or false |
| `DingTalk.LinkMessage` | src/dingtalk.ts:85-90 | a well-shaped link message carrying the four fields unchanged and no mention directive |
| `DingTalk.StrArray` | src/dingtalk.ts:58 | a string list becomes a JSON array of the same strings, in order |
| `DingTalk.GetAppend` | src/dingtalk.ts:58 | looking a key up in two concatenated member lists finds the first list's member if there is one |
| `DingTalk.StringsOfStrArray` | src/dingtalk.ts:58 | an encoded string list reads back as the same list |
| `DingTalk.GetStrMember` | src/dingtalk.ts:58 | a defined string member is found under its key; an undefined one is left out, so the lookup reaches the rest; other keys look past it |
| `DingTalk.MarkdownRoundTrip` | src/dingtalk.ts:80 | title and text of the markdown payload read back from its JSON |
| `DingTalk.LinkRoundTrip` | src/dingtalk.ts:88 | the four link fields read back from their JSON, undefined ones as undefined |
| `DingTalk.AtRoundTrip` | src/dingtalk.ts:73 | the mention directive's three fields read back from its JSON |
| `DingTalk.MembersOfToJson` | src/dingtalk.ts:58 | each part of a message lands under its own key of the body, and absent parts are absent |
| `DingTalk.TextReadBack` | src/dingtalk.ts:58 | the text payload reads back from the body |
| `DingTalk.MarkdownReadBack` | src/dingtalk.ts:58 | the markdown payload reads back from the body |
| `DingTalk.LinkReadBack` | src/dingtalk.ts:58 | the link payload reads back from the body |
| `DingTalk.AtReadBack` | src/dingtalk.ts:58 | the mention directive reads back from the body |
| `DingTalk.DecodeEncode` | src/dingtalk.ts:58 | every message is read back exactly as built from its JSON body |
| `DingTalk.SignParams` | src/dingtalk.ts:34-44 | no signature iff the secret is undefined or empty; otherwise `timestamp=<ms>&sign=` and the URL-encoded base64 HMAC of "<ms>\n<secret>" under the secret |
| `DingTalk.RequestUrl` | src/dingtalk.ts:48-51 | the URL starts with the webhook; it is exactly the webhook iff there is no secret; otherwise the webhook, `&` and the signature |
| `DingTalk.DigitRunsBeforeSign` | src/dingtalk.ts:43 | two digit runs followed by `&sign=` after a common prefix are equal if the strings are |
| `DingTalk.SignedUrlsDifferByTimestamp` | src/dingtalk.ts:37-50 | with a secret, two different timestamps give two different URLs, whatever HMAC and encoder return |
| `DingTalk.DingTalkClient.constructor` | src/dingtalk.ts:32 | the client keeps the configuration it is given |
| `DingTalk.DingTalkClient.SendMessage` | src/dingtalk.ts:46-67 | exactly one fetch, to `RequestUrl` at the current time with the message's JSON body; true iff the reply's errcode is 0 |
| `DingTalk.DingTalkClient.SendText` | src/dingtalk.ts:69-75 | one fetch of `TextMessage`; result as `SendMessage` |
| `DingTalk.DingTalkClient.SendMarkdown` | src/dingtalk.ts:77-83 | one fetch of `MarkdownMessage`; result as `SendMessage` |
| `DingTalk.DingTalkClient.SendLink` | src/dingtalk.ts:85-90 | one fetch of `LinkMessage`; result as `SendMessage` |
| `McpServer.ToolNamed` | src/index.ts:205-239 | a recognised name selects the tool of that name; any other name matches no tool and reaches `default` |
| `McpServer.ToolNamedToolName` | src/index.ts:205-236 | every tool is selected by its own name, so no two tools share one |
| `McpServer.CatalogShape` | src/index.ts:59-198 | five tools with the required lists as declared; each required name is a declared property; every listed name is dispatched; the task tool is not listed |
| `McpServer.CatalogDefaultsAreHandlerDefaults` | src/index.ts:159-192 | the session tool's advertised defaults are the ones its handler applies (src/index.ts:339-344) |
| `McpServer.GitUsername` | src/index.ts:33-40 | never empty; the trimmed output when it is not blank, "Unknown User" when the command fails or prints only white space |
| `McpServer.EnvConfig` | src/index.ts:42-56 | a configuration iff DINGTALK_WEBHOOK is set and not empty, with webhook and secret taken from the environment; keywords iff DINGTALK_KEYWORDS is truthy |
| `McpServer.EnvKeywords` | src/index.ts:51 | the keywords are the comma-separated entries of DINGTALK_KEYWORDS, one per entry, each trimmed and free of commas |
| `McpServer.TrimDropsNothingInside` | src/index.ts:51 | trimming introduces no pattern the untrimmed text lacks |
| `McpServer.ConfigOfArgs` | src/index.ts:254-255 | `dingtalk_configure` builds its configuration from the arguments as they are |
| `McpServer.Bullets` | src/index.ts:363 | one list item per task: `- ` and the trimmed task |
| `McpServer.HandlerMessage` | src/index.ts:266-448 | every handler hands the client a well-shaped message |
| `McpServer.Dispatch` | src/index.ts:201-251 | configure always reconfigures with the unchecked arguments; an unknown name gives "Unknown tool: <name>"; a send tool fails with "not configured" without a client and otherwise delivers a well-shaped message |
| `McpServer.UnconfiguredSendsFail` | src/index.ts:267-269 | without a client, each send tool's reply is an `Error: DingTalk client not configured…` text |
| `McpServer.TextCarriesSender` | src/index.ts:266-274 | the text tool sends the content unchanged followed by the sender line, with the given `atAll` |
| `McpServer.MarkdownCarriesSender` | src/index.ts:287-295 | the markdown tool keeps the title and sends the text followed by the bold sender line |
| `McpServer.LinkPassesThrough` | src/index.ts:308-313 | the link tool passes its four fields through, adds no sender line and no mention, and sends even when a "required" field is missing |
| `McpServer.SessionEndDefaults` | src/index.ts:339-344 | each optional field falls back on its own: a falsy session type, duration or summary shows its default in the title, fact line or summary section, and a missing count shows 0, whatever the other fields are; with all of them falsy, the all-defaults notification with no task section |
| `McpServer.SessionEndTasks` | src/index.ts:359-364 | the task section is present iff the task list is non-empty, and lists every task trimmed after `- ` |
| `McpServer.HeadHasNoTasks` | src/index.ts:350-357 | the opening of a session notification has no task section |
| `McpServer.TailHasNoTasks` | src/index.ts:366-373 | the closing of a session notification has no task section |
| `McpServer.TaskTitleShape` | src/index.ts:433 | for the three known statuses, the title is emoji, name, " - ", status text |
| `McpServer.StatusTable` | src/index.ts:400-410 | among the table's own keys, only success, failed and warning have an emoji, and the same three have a text |
| `McpServer.TaskElapsedLine` | src/index.ts:422-424 | the elapsed-time line is present iff a non-empty duration is given, and shows it |
| `McpServer.TaskDetailsSection` | src/index.ts:426-428 | the details section is present iff non-empty details are given, and holds them verbatim |
| `McpServer.TaskEndsWithFooter` | src/index.ts:430 | a task notification always ends with the server footer |
| `McpServer.BuildSessionEndContent` | src/index.ts:339-373 | the text built step by step is the rendered session document |
| `McpServer.SessionEndSplice` | src/index.ts:350-373 | the session document is the opening, then the task section only when there are tasks, then the closing |
| `McpServer.SessionEndHeadText` | src/index.ts:350-357 | the opening renders to the template's heading, three fact lines and the summary section |
| `McpServer.SessionEndTailText` | src/index.ts:366-373 | the closing renders to the counters and the dated footer |
| `McpServer.BuildTaskCompleteContent` | src/index.ts:415-430 | the text built step by step is the rendered task document |
| `McpServer.TaskFactsText` | src/index.ts:415-420 | the four fixed fact lines: name, status, time, operator |
| `McpServer.TaskFactsDuration` | src/index.ts:422-424 | with a duration, the fact paragraph is the four lines and the elapsed line |
| `McpServer.TaskSplice` | src/index.ts:415-430 | the task document is heading and facts, the details section only when given, then the footer |
| `McpServer.HandleSend` | src/index.ts:266-448 | one post of `HandlerMessage` through the client; true iff errcode 0 |
| `McpServer.DingTalkMCPServer.constructor` | src/index.ts:16-31 | a client exists iff the environment configures one, and it holds `EnvConfig` |
| `McpServer.DingTalkMCPServer.CallTool` | src/index.ts:201-448 | performs `Dispatch`: a new client for configure; one fetch and the success or failure reply for a send with a client; the error text and no fetch otherwise |
| `SessionNotifier.InitialStats` | src/session-notifier.ts:33-45 | start and end are the same instant; nothing is counted; the duration text is that of zero minutes; the summary is the placeholder "待生成" |
| `SessionNotifier.LogLinesClean` | src/session-notifier.ts:56 | no log line is blank, and none contains the backslash-n it was cut at |
| `SessionNotifier.FilesOf` | src/session-notifier.ts:61-80 | the modified files have no duplicates |
| `SessionNotifier.ScanSnoc` | src/session-notifier.ts:65-94 | how each counter and list grows by one more line, which is one loop turn |
| `SessionNotifier.ScanAppend` | src/session-notifier.ts:65-94 | counts, tasks and errors of a log are those of its two halves put together |
| `SessionNotifier.CountsAppend` | src/session-notifier.ts:65-74 | the message and tool counters add up over two halves of a log |
| `SessionNotifier.ListsAppend` | src/session-notifier.ts:82-93 | the task and error lists concatenate over two halves of a log |
| `SessionNotifier.ScanOne` | src/session-notifier.ts:65-94 | a single line counts once for each kind of marker it holds |
| `SessionNotifier.FilesOfMembers` | src/session-notifier.ts:77-80 | a file is listed iff some line names it |
| `SessionNotifier.Take` | src/session-notifier.ts:107 | `slice(0, n)`: a prefix of at most n entries, the whole list when it is shorter |
| `SessionNotifier.ScanStats` | src/session-notifier.ts:96-109 | start kept, end now; the duration is the formatted rounded minutes since the start; the counters and the file and task lists are `MessageLines`, `ToolLines`, `FilesOf` and `TasksOf` of the lines; files unique; errors the first at most five error lines; summary of the counters |
| `SessionNotifier.RoundMinutes` | src/session-notifier.ts:118-119 | the nearest whole minute, halves rounded up |
| `SessionNotifier.ParseFormatDuration` | src/session-notifier.ts:117-128 | the duration text reads back as the exact number of minutes, negative ones included |
| `SessionNotifier.DurationBody` | src/session-notifier.ts:121-127 | every duration text ends in "分钟" |
| `SessionNotifier.ParseDurationBody` | src/session-notifier.ts:121-127 | the text before "分钟" reads back as the minutes |
| `SessionNotifier.ParseMinutesText` | src/session-notifier.ts:122 | a plain minutes text reads back |
| `SessionNotifier.ParseHoursText` | src/session-notifier.ts:124-126 | an hours-and-minutes text reads back as hours × 60 + minutes |
| `SessionNotifier.HoursMarkAfter` | src/session-notifier.ts:126 | the first "小时" sits right behind the rendered hours |
| `SessionNotifier.FormatDurationShape` | src/session-notifier.ts:121-127 | plain minutes under an hour; from an hour on, floor hours and the remainder below 60 |
| `SessionNotifier.SummaryPartPresence` | src/session-notifier.ts:130-136 | each counter's part is in the summary iff that counter is above zero (the order is fixed by `SummaryParts` and stated with `SplitSummary`) |
| `SessionNotifier.SummaryWhenIdle` | src/session-notifier.ts:138 | the summary is "会话已结束" iff nothing was counted |
| `SessionNotifier.SplitSummary` | src/session-notifier.ts:138 | when something was counted, splitting the summary at "，" gives back its parts |
| `SessionNotifier.Bullets` | src/session-notifier.ts:158 | one list item per entry, the entry unchanged |
| `SessionNotifier.GenerateNotificationContent` | src/session-notifier.ts:142-181 | the fixed title, and content that is the rendered report document |
| `SessionNotifier.ReportRendering` | src/session-notifier.ts:145-178 | the template text is exactly the rendered report document |
| `SessionNotifier.ListSection` | src/session-notifier.ts:156-172 | a list section is present iff its list is non-empty; it shows the first `limit` entries and an overflow line iff more were cut |
| `SessionNotifier.ReportSections` | src/session-notifier.ts:150-175 | files, tasks and errors each have a section iff non-empty, each cut at 10, 5 and 3 entries; the summary always has its section |
| `SessionNotifier.FindInReport` | src/session-notifier.ts:145-178 | where each heading other than the counters' is found in the report |
| `SessionNotifier.ScanLines` | src/session-notifier.ts:59-94 | the loop's counters and lists equal the specification functions of the lines |
| `SessionNotifier.ClaudeCodeSessionNotifier.constructor` | src/session-notifier.ts:28-31 | the log path is CLAUDE_SESSION_LOG when set and non-empty, else ./.claude-session.log; initial statistics |
| `SessionNotifier.ClaudeCodeSessionNotifier.ExtractSessionStats` | src/session-notifier.ts:48-115 | a missing or unreadable log gives the starting statistics; a readable one gives `ScanStats` of its lines |
| `SessionNotifier.ClaudeCodeSessionNotifier.Execute` | src/session-notifier.ts:246-278 | an outgoing notification iff DINGTALK_WEBHOOK is truthy; it is the report of the extracted statistics |
| `QuickNotify.QuickConfig` | src/quick-notify.ts:26-42 | a configuration iff DINGTALK_WEBHOOK is truthy, with webhook and secret from the environment; keywords iff DINGTALK_KEYWORDS is set at all |
| `QuickNotify.QuickConfigMatchesServer` | src/quick-notify.ts:38 | the same configuration as the server's (src/index.ts:42-56), except that an empty DINGTALK_KEYWORDS gives `[""]` here and none there |
| `QuickNotify.Resolve` | src/quick-notify.ts:49-54 | the command-line value if truthy, else the environment value if truthy, else the default |
| `QuickNotify.TaskList` | src/quick-notify.ts:51 | no task is blank or contains a comma |
| `QuickNotify.TaskListMembers` | src/quick-notify.ts:51 | a task is listed iff it is a comma-separated entry that is not blank |
| `QuickNotify.TaskListOfJoin` | src/quick-notify.ts:51 | non-blank, comma-free tasks joined with commas are listed back as they were |
| `QuickNotify.DetectSessionInfo` | src/quick-notify.ts:44-56 | type, duration and summary are never empty; no task is blank or contains a comma |
| `QuickNotify.SessionEnvReads` | src/quick-notify.ts:123-128 | each of the six variables written reads back as written |
| `QuickNotify.QuickSendRoundTrip` | src/quick-notify.ts:123-128 | what `quickSend` writes is what `detectSessionInfo` reads (src/quick-notify.ts:49-54), field by field, unless a command-line argument takes precedence; empty strings fall back to the script's defaults |
| `QuickNotify.TasksBlockText` | src/quick-notify.ts:70-73 | the optional task block renders to the template's conditional text |
| `QuickNotify.QuickRendering` | src/quick-notify.ts:62-80 | the template text is the rendered quick document |
| `QuickNotify.GenerateQuickNotification` | src/quick-notify.ts:58-83 | the title is "🤖 Claude Code ", the session type and "完成"; the content is the rendered document and opens with "## " and the title |
| `QuickNotify.QuickSections` | src/quick-notify.ts:67-77 | the task section is present iff there are tasks, one trimmed bullet each; summary and counters always have theirs |
| `QuickNotify.FindInQuick` | src/quick-notify.ts:62-80 | where each heading is found in the quick document |
| `QuickNotify.QuickMessage` | src/quick-notify.ts:96 | a markdown message with the report's title and rendered text, `isAtAll` false (src/dingtalk.ts:77-83) |
| `QuickNotify.QuickSessionNotifier.constructor` | src/quick-notify.ts:22-42 | a client iff DINGTALK_WEBHOOK is truthy, holding `QuickConfig` |
| `QuickNotify.QuickSessionNotifier.SendQuickNotification` | src/quick-notify.ts:85-109 | no client: false and no fetch; otherwise one fetch of the markdown report built from the process's argv and environment; true iff errcode 0 |
| `QuickNotify.QuickSessionNotifier.QuickSend` | src/quick-notify.ts:112-131 | writes the six arguments or their defaults into the environment; sends iff the environment had a webhook before; the post carries the report read from the new environment |
| `JsText.Trim` | src/index.ts:35 | the trimmed text is a slice of the input with only white space before and after it, starts and ends with no white space, and is empty iff the input is all white space |
| `JsText.TrimIdempotent` | src/index.ts:35 | trimming twice is trimming once |
| `JsText.IndexOf` | src/session-notifier.ts:67 | the first position of the pattern, or none when it occurs nowhere |
| `JsText.Split` | src/session-notifier.ts:56 | at least one piece, and no piece contains the separator |
| `JsText.JoinSplit` | src/session-notifier.ts:56 | joining the pieces of a split with its separator gives back the text |
| `JsText.SplitJoin` | src/quick-notify.ts:125 | splitting on one character undoes a join of pieces without it |
| `JsText.JoinAppend` | src/session-notifier.ts:138 | a join of two non-empty lists is the two joins and the separator |
| `JsText.NonBlank` | src/session-notifier.ts:56 | the filter keeps only entries that are not blank, drawn from the input |
| `JsText.NonBlankMembers` | src/quick-notify.ts:51 | an entry passes the filter iff it is in the input and not blank |
| `JsText.NonBlankOfClean` | src/quick-notify.ts:51 | a list with no blank entry passes the filter unchanged |
| `JsText.TrimEach` | src/index.ts:51 | every element trimmed, in place |
| `JsNumber.IntToString` | src/quick-notify.ts:127 | digits, with a leading minus exactly for negative numbers |
| `JsNumber.ParseIntOfIntToString` | src/quick-notify.ts:53-54 | `parseInt` reads back every integer `toString` renders |
| `JsNumber.ValueOfNatToString` | src/quick-notify.ts:53-54 | the decimal digits of n read back as n |
| `Markdown.RenderAppend` | src/index.ts:350-373 | two documents put together render as the first, a blank line and the second |
| `Markdown.RenderSplice` | src/index.ts:359-366 | an optional middle block costs nothing when absent and one blank line and its text when present |
| `Markdown.RenderEndsWithLast` | src/index.ts:430 | a document ends with its last block's text |
| `Markdown.Find` | src/session-notifier.ts:145-178 | the body of the first section with the heading, none iff no section has it |
| `Markdown.FindAppend` | src/session-notifier.ts:145-178 | a heading is looked up in the first document, then in the second |
| `Host.Runtime.Fetch` | src/dingtalk.ts:53-62 | records one request, and yields the reply's errcode as the runtime answers it |

## Left out

- The file and task regular expressions of `extractSessionStats` (src/session-notifier.ts:77, 84) are parameters `fileOf` and `taskOf`. They give a line's captured group, if any. Regular-expression matching is not modelled.
- The log file is not read from disk. `LogFile` stands for `existsSync` and `readFileSync`: missing, unreadable (a throw), or its text.
- `sendDingTalkNotification` (src/session-notifier.ts:184-243) spawns the server as a child process and talks to it over stdio. The model stops at the notification `Execute` would hand over. Processes, pipes and exit codes are not modelled.
- The MCP transport, `run()` and the `Server` registration (src/index.ts:17-29, 450-457) are not modelled. The server is entered at its catalog and at `CallTool`.
- `DingTalk.DingTalkClient.SendMessage`: HMAC-SHA256, base64, `encodeURIComponent` and the network are opaque functions of the runtime. Their results are parameters, and `fetch` failures are the `respond` answer None.
- The clock is a `Moment` parameter: milliseconds plus the zh-CN renderings of `toLocaleString` and `toLocaleDateString`. One reading per handler serves both the template and the signature timestamp, where the source reads the clock twice. Likewise `SessionNotifier.InitialStats` takes one reading for both `startTime` and `endTime`, where src/session-notifier.ts:35-36 calls `new Date()` twice.
- `SessionNotifier.RoundMinutes`: `Math.round` of a floating-point division is modelled on integers, halves rounding up. Floating-point behaviour beyond that is not modelled.
- `JsNumber.ParseInt`: precision loss above 2^53 and the exponent form of very large numbers are not modelled.
- `JsNumber.IntToString`: renders integers only. The counts are `int`, so fractional counts are outside the model. Two places would render one:
  - `filesCount` or `toolsUsed` passed to `quickSend`;
  - the same two fields of `dingtalk_notify_session_end` (src/index.ts:343-344, 369-370), where 2.5 would print as "2.5 个".
- Console output (`console.log`, `console.warn`, `console.error`) is not modelled.
- Try/catch blocks whose body cannot throw in the model are not modelled, for example in `sendQuickNotification` and `extractSessionStats`. The catch branches give the same result as the failure paths that are modelled.
- The command-line entry points and `process.exit` (src/quick-notify.ts:137-142, src/session-notifier.ts:285-288) are not modelled.
- `McpServer.HandlerMessage`: property descriptions in the catalog and the mojibake in src/index.ts's string literals are not modelled. Templates use the intended Chinese text and emoji.
- The two-character backslash-n that the session script uses to split the log and to join its lists is kept as written, and so is the one the quick script uses to join its bullets. They are not newlines.
- McpServer.Dispatch: `Args` holds only well-typed optional fields. In the source, absent or mistyped arguments make a handler throw a TypeError, which the catch turns into an `Error: …` reply with no send (src/index.ts:202-250). Examples are a call with no `arguments` at all, or a string `mainTasks` (`map is not a function`, src/index.ts:363). The model does not represent those inputs, and for every input it can represent it delivers the message. A client configured with no webhook, or an empty one, is represented. A later send records a fetch to the URL "undefined" (or "", followed by the signature when there is a secret) and leaves the outcome to the runtime's `respond`, which may answer errcode 0. In the source, `fetch` rejects such a URL inside `sendMessage`'s try (src/dingtalk.ts:49-53, 63-65), so the send always returns false.
- McpServer.StatusTable: `statusEmoji[status]` and `statusText[status]` are lookups in JavaScript object literals (src/index.ts:400-410), so inherited `Object.prototype` names also find a value. For example, "constructor" prints the Object function's source text and "__proto__" prints "[object Object]". The model gives undefined for every name outside the three own keys.
- src/test.ts is not part of this model.
