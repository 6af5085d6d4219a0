/**
 * The MCP server (src/index.ts): the tool catalog, the client it holds
 * (absent until configured from the environment or by `dingtalk_configure`),
 * the message each tool sends and the text each call returns, with every
 * thrown error turned into an "Error: " reply.
 *
 * `Dispatch` says, as a value, what a call does; `DingTalkMCPServer.CallTool`
 * performs it on the client field and the runtime.
 */
module McpServer {
  import opened Wrappers
  import opened JsText
  import opened JsNumber
  import opened Host
  import opened Markdown
  import opened DingTalk

  // ------------------------------------------------------------------ tools

  /** The tools that send something once a client exists. */
  datatype SendTool = TextTool | MarkdownTool | LinkTool | SessionEndTool | TaskCompleteTool

  /** Every tool name the dispatch switch recognises. */
  datatype Tool = ConfigureTool | Send(tool: SendTool)

  function ToolName(t: Tool): string {
    match t
    case ConfigureTool => "dingtalk_configure"
    case Send(TextTool) => "dingtalk_send_text"
    case Send(MarkdownTool) => "dingtalk_send_markdown"
    case Send(LinkTool) => "dingtalk_send_link"
    case Send(SessionEndTool) => "dingtalk_notify_session_end"
    case Send(TaskCompleteTool) => "dingtalk_notify_task_complete"
  }

  /** The `case` of the dispatch switch a name selects; None reaches `default`. */
  function ToolNamed(name: string): (r: Option<Tool>)
    ensures r.Some? ==> ToolName(r.value) == name
    ensures r.None? ==> forall t: Tool :: ToolName(t) != name
  {
    if name == "dingtalk_configure" then Some(ConfigureTool)
    else if name == "dingtalk_send_text" then Some(Send(TextTool))
    else if name == "dingtalk_send_markdown" then Some(Send(MarkdownTool))
    else if name == "dingtalk_send_link" then Some(Send(LinkTool))
    else if name == "dingtalk_notify_session_end" then Some(Send(SessionEndTool))
    else if name == "dingtalk_notify_task_complete" then Some(Send(TaskCompleteTool))
    else None
  }

  /** Each tool is selected by its own name, so no two tools share one. */
  lemma ToolNamedToolName(t: Tool)
    ensures ToolNamed(ToolName(t)) == Some(t)
  {
  }

  // ---------------------------------------------------------------- catalog

  datatype PropertyKind = StringKind | BooleanKind | NumberKind | StringArrayKind

  datatype Default = NoDefault | BoolDefault(b: bool) | StringDefault(s: string) | NumberDefault(n: int)

  /** One property of a tool's input schema (its description is not modelled). */
  datatype Property = Property(name: string, kind: PropertyKind, default: Default)

  datatype ToolSpec = ToolSpec(name: string, description: string, properties: seq<Property>, required: seq<string>)

  const DefaultSessionType: string := "开发协助"
  const DefaultDuration: string := "刚刚完成"
  const DefaultSummary: string := "会话已完成"

  /** The answer to ListTools. */
  const Catalog: seq<ToolSpec> := [
    ToolSpec("dingtalk_configure", "Configure DingTalk webhook settings",
      [Property("webhook", StringKind, NoDefault), Property("secret", StringKind, NoDefault),
       Property("keywords", StringArrayKind, NoDefault)],
      ["webhook"]),
    ToolSpec("dingtalk_send_text", "Send a text message to DingTalk group",
      [Property("content", StringKind, NoDefault), Property("atAll", BooleanKind, BoolDefault(false))],
      ["content"]),
    ToolSpec("dingtalk_send_markdown", "Send a markdown message to DingTalk group",
      [Property("title", StringKind, NoDefault), Property("text", StringKind, NoDefault),
       Property("atAll", BooleanKind, BoolDefault(false))],
      ["title", "text"]),
    ToolSpec("dingtalk_send_link", "Send a link message to DingTalk group",
      [Property("title", StringKind, NoDefault), Property("text", StringKind, NoDefault),
       Property("messageUrl", StringKind, NoDefault), Property("picUrl", StringKind, NoDefault)],
      ["title", "text", "messageUrl"]),
    ToolSpec("dingtalk_notify_session_end", "Send a session completion notification with automatic stats",
      [Property("sessionType", StringKind, StringDefault(DefaultSessionType)),
       Property("duration", StringKind, NoDefault),
       Property("mainTasks", StringArrayKind, NoDefault),
       Property("summary", StringKind, StringDefault(DefaultSummary)),
       Property("filesCount", NumberKind, NumberDefault(0)),
       Property("toolsUsed", NumberKind, NumberDefault(0)),
       Property("atAll", BooleanKind, BoolDefault(false))],
      [])
  ]

  /** True iff the tool spec declares a property of that name. */
  predicate Declares(spec: ToolSpec, property: string) {
    exists k :: 0 <= k < |spec.properties| && spec.properties[k].name == property
  }

  /**
   * The catalog lists five tools, each a name the switch dispatches, with the
   * required lists [webhook], [content], [title, text],
   * [title, text, messageUrl] and []; every required name is a declared
   * property. `dingtalk_notify_task_complete` is dispatched but not listed.
   */
  lemma CatalogShape()
    ensures |Catalog| == 5
    ensures forall i :: 0 <= i < 5 ==> ToolNamed(Catalog[i].name).Some?
    ensures Catalog[0].name == ToolName(ConfigureTool) && Catalog[0].required == ["webhook"]
    ensures Catalog[1].name == ToolName(Send(TextTool)) && Catalog[1].required == ["content"]
    ensures Catalog[2].name == ToolName(Send(MarkdownTool)) && Catalog[2].required == ["title", "text"]
    ensures Catalog[3].name == ToolName(Send(LinkTool)) && Catalog[3].required == ["title", "text", "messageUrl"]
    ensures Catalog[4].name == ToolName(Send(SessionEndTool)) && Catalog[4].required == []
    ensures forall i, j :: 0 <= i < 5 && 0 <= j < |Catalog[i].required| ==> Declares(Catalog[i], Catalog[i].required[j])
    ensures forall i :: 0 <= i < 5 ==> Catalog[i].name != ToolName(Send(TaskCompleteTool))
  {
    assert Catalog[0].properties[0].name == "webhook";
    assert Catalog[1].properties[0].name == "content";
    assert Catalog[2].properties[0].name == "title" && Catalog[2].properties[1].name == "text";
    assert Catalog[3].properties[0].name == "title" && Catalog[3].properties[1].name == "text";
    assert Catalog[3].properties[2].name == "messageUrl";
  }

  /** The defaults the catalog advertises for `dingtalk_notify_session_end` are the ones its handler applies. */
  lemma CatalogDefaultsAreHandlerDefaults()
    ensures Catalog[4].properties[0] == Property("sessionType", StringKind, StringDefault(DefaultSessionType))
    ensures Catalog[4].properties[3] == Property("summary", StringKind, StringDefault(DefaultSummary))
    ensures Catalog[4].properties[4].default == NumberDefault(0) && Catalog[4].properties[5].default == NumberDefault(0)
    ensures Catalog[4].properties[6].default == BoolDefault(false)
  {
  }

  // -------------------------------------------------------------- arguments

  /**
   * The `arguments` of a call, cast without any check: every field a handler
   * reads, None when the caller left it out.
   */
  datatype Args = Args(
    webhook: Option<string>, secret: Option<string>, keywords: Option<seq<string>>,
    content: Option<string>, atAll: Option<bool>,
    title: Option<string>, text: Option<string>, messageUrl: Option<string>, picUrl: Option<string>,
    sessionType: Option<string>, duration: Option<string>, mainTasks: Option<seq<string>>,
    summary: Option<string>, filesCount: Option<int>, toolsUsed: Option<int>,
    taskName: Option<string>, status: Option<string>, details: Option<string>)

  /** `getGitUsername()`: the trimmed output of `git config --get user.name`; None when the command throws. */
  function GitUsername(output: Option<string>): (user: string)
    ensures user != ""
    ensures output.Some? && !IsBlank(output.value) ==> user == Trim(output.value)
    ensures output.None? || IsBlank(output.value) ==> user == "Unknown User"
  {
    if output.None? then "Unknown User" else Or(Some(Trim(output.value)), "Unknown User")
  }

  /** `initializeFromEnv()`: a client configuration exactly when DINGTALK_WEBHOOK is set and not empty. */
  function EnvConfig(env: map<string, string>): (r: Option<Config>)
    ensures r.Some? <==> Truthy(EnvGet(env, "DINGTALK_WEBHOOK"))
    ensures r.Some? ==> r.value.webhook == EnvGet(env, "DINGTALK_WEBHOOK") && r.value.secret == EnvGet(env, "DINGTALK_SECRET")
    ensures r.Some? ==> (r.value.keywords.None? <==> !Truthy(EnvGet(env, "DINGTALK_KEYWORDS")))
  {
    var webhook := EnvGet(env, "DINGTALK_WEBHOOK");
    var keywords := EnvGet(env, "DINGTALK_KEYWORDS");
    if !Truthy(webhook) then None
    else Some(Config(webhook, EnvGet(env, "DINGTALK_SECRET"),
                     if Truthy(keywords) then Some(TrimEach(Split(keywords.value, ","))) else None))
  }

  /**
   * The keywords taken from the environment are the comma-separated entries
   * of DINGTALK_KEYWORDS, one per entry, each trimmed and free of commas.
   */
  lemma EnvKeywords(env: map<string, string>)
    requires EnvConfig(env).Some? && EnvConfig(env).value.keywords.Some?
    ensures var raw := EnvGet(env, "DINGTALK_KEYWORDS").value;
            var keywords := EnvConfig(env).value.keywords.value;
            && |keywords| == |Split(raw, ",")|
            && forall k :: 0 <= k < |keywords| ==>
                 keywords[k] == Trim(Split(raw, ",")[k]) && Trim(keywords[k]) == keywords[k] && !Contains(keywords[k], ",")
  {
    var raw := EnvGet(env, "DINGTALK_KEYWORDS").value;
    var pieces := Split(raw, ",");
    var keywords := EnvConfig(env).value.keywords.value;
    forall k | 0 <= k < |keywords|
      ensures Trim(keywords[k]) == keywords[k] && !Contains(keywords[k], ",")
    {
      TrimIdempotent(pieces[k]);
      TrimDropsNothingInside(pieces[k], ",");
    }
  }

  /** A trimmed string contains no pattern that the original does not. */
  lemma TrimDropsNothingInside(s: string, pattern: string)
    requires !Contains(s, pattern)
    ensures !Contains(Trim(s), pattern)
  {
    var t := Trim(s);
    var k := LeadingSpace(s);
    if Contains(t, pattern) {
      var i := IndexOf(t, pattern).value;
      assert t == s[k..k + |t|];
      assert s[k + i..k + i + |pattern|] == t[i..i + |pattern|];
      assert OccursAt(s, pattern, k + i);
    }
  }

  /** `handleConfigure` builds its client from the arguments as they are: no field is checked. */
  function ConfigOfArgs(args: Args): (c: Config)
    ensures c.webhook == args.webhook && c.secret == args.secret && c.keywords == args.keywords
  {
    Config(args.webhook, args.secret, args.keywords)
  }

  // -------------------------------------------------------------- templates

  /** What `handleSendText` appends to the content. */
  function TextSenderSuffix(user: string): string {
    "\n\n---\n👤 发送者: " + user
  }

  /** What `handleSendMarkdown` appends to the text: the same, with the label in bold. */
  function MarkdownSenderSuffix(user: string): string {
    "\n\n---\n👤 **发送者:** " + user
  }

  const TasksHeading: string := "### ✅ 主要任务"
  const SessionHeading: string := "### 📋 本次会话"
  const StatsHeading: string := "### 📊 操作统计"

  function SessionType(args: Args): string { Or(args.sessionType, DefaultSessionType) }
  function MainTasks(args: Args): seq<string> { args.mainTasks.GetOr([]) }

  /** Each task as a list item: `- ` and the trimmed task. */
  function Bullets(tasks: seq<string>): (r: seq<string>)
    ensures |r| == |tasks|
    ensures forall k :: 0 <= k < |tasks| ==> r[k] == "- " + Trim(tasks[k])
  {
    if tasks == [] then [] else ["- " + Trim(tasks[0])] + Bullets(tasks[1..])
  }

  function SessionEndTitle(args: Args): string {
    "🤖 Claude Code " + SessionType(args) + "完成"
  }

  /** The opening blocks of a session notification: heading; time, duration and operator; the summary. */
  function SessionEndHead(title: string, dateTime: string, duration: string, user: string, summary: string): seq<Block> {
    [Para(["## " + title]),
     Para(["**完成时间：** " + dateTime, "**会话时长：** " + duration, "**操作者：** " + user]),
     Section(false, SessionHeading, [summary])]
  }

  /** The main-tasks section, present only for a non-empty list. */
  function TasksPart(tasks: seq<string>): seq<Block> {
    if |tasks| > 0 then [Section(false, TasksHeading, Bullets(tasks))] else []
  }

  /** The closing blocks: the counters, then the footer with the date. */
  function SessionEndTail(files: string, tools: string, date: string): seq<Block> {
    [Section(false, StatsHeading, ["- **文件操作：** " + files + " 个", "- **工具使用：** " + tools + " 次"]),
     Para(["---", "*Claude Code 自动通知 | " + date + "*"])]
  }

  /** The body `handleNotifySessionEnd` sends, as a document; falsy fields take their defaults. */
  function SessionEndDoc(args: Args, user: string, now: Moment): seq<Block> {
    SessionEndHead(SessionEndTitle(args), now.dateTime, Or(args.duration, DefaultDuration), user, Or(args.summary, DefaultSummary))
    + TasksPart(MainTasks(args))
    + SessionEndTail(IntToString(args.filesCount.GetOr(0)), IntToString(args.toolsUsed.GetOr(0)), now.date)
  }

  /** `statusEmoji[status]`: undefined for any status outside the table. */
  function StatusEmoji(status: Option<string>): Option<string> {
    if status == Some("success") then Some("✅")
    else if status == Some("failed") then Some("❌")
    else if status == Some("warning") then Some("\U{26A0}\U{FE0F}")
    else None
  }

  /** `statusText[status]`: undefined for any status outside the table. */
  function StatusText(status: Option<string>): Option<string> {
    if status == Some("success") then Some("任务完成")
    else if status == Some("failed") then Some("任务失败")
    else if status == Some("warning") then Some("任务警告")
    else None
  }

  /** Title of a task notification: emoji, task name, " - ", status text. */
  function TaskTitle(args: Args): string {
    Interp(StatusEmoji(args.status)) + " " + Interp(args.taskName) + " - " + Interp(StatusText(args.status))
  }

  const DetailsHeading: string := "**详情：**"
  const TaskFooter: string := "---" + "\n" + "*来自 Claude Code MCP Server*"

  /** The fact lines of a task notification, with the elapsed time only when one is given. */
  function TaskFacts(taskName: string, statusText: string, dateTime: string, user: string, duration: Option<string>): seq<string> {
    ["**任务名称：** " + taskName, "**状态：** " + statusText, "**时间：** " + dateTime, "**操作者：** " + user]
    + (if Truthy(duration) then ["**耗时：** " + duration.value] else [])
  }

  /** The details section, present only when details are given. */
  function DetailsPart(details: Option<string>): seq<Block> {
    if Truthy(details) then [Section(false, DetailsHeading, [details.value])] else []
  }

  /** The body `handleNotifyTaskComplete` sends, as a document. */
  function TaskDoc(args: Args, user: string, now: Moment): seq<Block> {
    var statusText := Interp(StatusText(args.status));
    [Para(["## " + Interp(StatusEmoji(args.status)) + " " + statusText]),
     Para(TaskFacts(Interp(args.taskName), statusText, now.dateTime, user, args.duration))]
    + DetailsPart(args.details)
    + [Para(["---", "*来自 Claude Code MCP Server*"])]
  }

  /** The message each send tool hands to the client. */
  function HandlerMessage(tool: SendTool, args: Args, user: string, now: Moment): (m: Message)
    ensures WellShaped(m)
  {
    match tool
    case TextTool => TextMessage(Interp(args.content) + TextSenderSuffix(user), args.atAll)
    case MarkdownTool => MarkdownMessage(args.title, Interp(args.text) + MarkdownSenderSuffix(user), args.atAll)
    case LinkTool => LinkMessage(args.title, args.text, args.messageUrl, args.picUrl)
    case SessionEndTool => MarkdownMessage(Some(SessionEndTitle(args)), Render(SessionEndDoc(args, user, now)), args.atAll)
    case TaskCompleteTool => MarkdownMessage(Some(TaskTitle(args)), Render(TaskDoc(args, user, now)), args.atAll)
  }

  // ---------------------------------------------------------------- replies

  const ConfiguredReply: string := "✅ DingTalk client configured successfully"
  const NotConfigured: string := "DingTalk client not configured"
  const NotConfiguredMessage: string :=
    NotConfigured + ". Use dingtalk_configure first or set environment variables (DINGTALK_WEBHOOK, DINGTALK_SECRET)."

  function UnknownToolMessage(name: string): string {
    "Unknown tool: " + name
  }

  function SuccessReply(tool: SendTool): string {
    match tool
    case TextTool => "✅ Text message sent successfully"
    case MarkdownTool => "✅ Markdown message sent successfully"
    case LinkTool => "✅ Link message sent successfully"
    case SessionEndTool => "✅ Session completion notification sent successfully"
    case TaskCompleteTool => "✅ Task completion notification sent successfully"
  }

  function FailureReply(tool: SendTool): string {
    match tool
    case TextTool => "❌ Failed to send text message"
    case MarkdownTool => "❌ Failed to send markdown message"
    case LinkTool => "❌ Failed to send link message"
    case SessionEndTool => "❌ Failed to send session completion notification"
    case TaskCompleteTool => "❌ Failed to send task completion notification"
  }

  // --------------------------------------------------------------- dispatch

  /** What one CallTool request does. */
  datatype Action =
    | Reconfigure(config: Config, reply: string)
    | Deliver(message: Message, onSuccess: string, onFailure: string)
    | Fail(error: string)

  /**
   * The dispatch switch and its catch, given whether a client exists:
   * configure always replaces the client; an unknown name fails whatever the
   * state; every send tool fails without a client and otherwise delivers,
   * whatever its arguments are.
   */
  function Dispatch(configured: bool, name: string, args: Args, user: string, now: Moment): (a: Action)
    ensures a.Reconfigure? <==> name == "dingtalk_configure"
    ensures a.Reconfigure? ==> a.config == Config(args.webhook, args.secret, args.keywords)
    ensures a.Deliver? <==> configured && ToolNamed(name).Some? && name != "dingtalk_configure"
    ensures a.Deliver? ==> WellShaped(a.message)
    ensures ToolNamed(name).None? ==> a == Fail("Unknown tool: " + name)
    ensures !configured && ToolNamed(name).Some? && name != "dingtalk_configure" ==> a == Fail(NotConfiguredMessage)
  {
    match ToolNamed(name)
    case None => Fail(UnknownToolMessage(name))
    case Some(ConfigureTool) => Reconfigure(ConfigOfArgs(args), ConfiguredReply)
    case Some(Send(tool)) =>
      if !configured then Fail(NotConfiguredMessage)
      else Deliver(HandlerMessage(tool, args, user, now), SuccessReply(tool), FailureReply(tool))
  }

  /** Without a client every send and notify tool answers "Error: DingTalk client not configured…". */
  lemma UnconfiguredSendsFail(tool: SendTool, args: Args, user: string, now: Moment)
    ensures Dispatch(false, ToolName(Send(tool)), args, user, now).Fail?
    ensures StartsWith("Error: " + Dispatch(false, ToolName(Send(tool)), args, user, now).error,
                       "Error: " + NotConfigured)
  {
    var rest := ". Use dingtalk_configure first or set environment variables (DINGTALK_WEBHOOK, DINGTALK_SECRET).";
    assert "Error: " + NotConfiguredMessage == ("Error: " + NotConfigured) + rest;
    assert (("Error: " + NotConfigured) + rest)[..|"Error: " + NotConfigured|] == "Error: " + NotConfigured;
  }

  /** The text tool sends the content, unchanged, followed by the sender line. */
  lemma TextCarriesSender(args: Args, user: string, now: Moment)
    ensures var a := Dispatch(true, "dingtalk_send_text", args, user, now);
            && a.Deliver? && a.message.msgtype == TextType
            && a.message.text.value.content == Interp(args.content) + "\n\n---\n👤 发送者: " + user
            && StartsWith(a.message.text.value.content, Interp(args.content))
            && EndsWith(a.message.text.value.content, user)
            && a.message.at.value.isAtAll == Some(args.atAll.GetOr(false))
  {
    var c := Interp(args.content) + "\n\n---\n👤 发送者: " + user;
    assert c[..|Interp(args.content)|] == Interp(args.content);
    assert c[|c| - |user|..] == user;
  }

  /** The markdown tool keeps the title and sends the text followed by the bold sender line. */
  lemma MarkdownCarriesSender(args: Args, user: string, now: Moment)
    ensures var a := Dispatch(true, "dingtalk_send_markdown", args, user, now);
            && a.Deliver? && a.message.msgtype == MarkdownType
            && a.message.markdown.value.title == args.title
            && a.message.markdown.value.text == Interp(args.text) + "\n\n---\n👤 **发送者:** " + user
            && StartsWith(a.message.markdown.value.text, Interp(args.text))
            && EndsWith(a.message.markdown.value.text, user)
  {
    var t := Interp(args.text) + "\n\n---\n👤 **发送者:** " + user;
    assert t[..|Interp(args.text)|] == Interp(args.text);
    assert t[|t| - |user|..] == user;
  }

  /**
   * The link tool passes its four fields through with no sender line and no
   * mention, and sends even when a "required" field is missing.
   */
  lemma LinkPassesThrough(args: Args, user: string, now: Moment)
    ensures var a := Dispatch(true, "dingtalk_send_link", args, user, now);
            && a.Deliver? && a.message.msgtype == LinkType && a.message.at.None?
            && a.message.link.value == LinkPayload(args.title, args.text, args.picUrl, args.messageUrl)
  {
  }

  /**
   * Each optional field of the session notification falls back to its default
   * on its own: a falsy session type, duration or summary, and a missing count,
   * show the default in its place whatever the other fields are. With every
   * field falsy the notification is the all-defaults one, with no task section.
   */
  lemma SessionEndDefaults(args: Args, user: string, now: Moment)
    ensures SessionEndTitle(args) == "🤖 Claude Code " + (if Truthy(args.sessionType) then args.sessionType.value else "开发协助") + "完成"
    ensures var doc := SessionEndDoc(args, user, now);
            && |doc| >= 5
            && doc[0] == Para(["## " + SessionEndTitle(args)])
            && doc[1] == Para(["**完成时间：** " + now.dateTime,
                               "**会话时长：** " + (if Truthy(args.duration) then args.duration.value else "刚刚完成"),
                               "**操作者：** " + user])
            && doc[2] == Section(false, SessionHeading, [if Truthy(args.summary) then args.summary.value else "会话已完成"])
    ensures var doc := SessionEndDoc(args, user, now);
            |doc| >= 2 && doc[|doc| - 2].Section? && doc[|doc| - 2].heading == StatsHeading && |doc[|doc| - 2].body| == 2
            && (args.filesCount.None? ==> doc[|doc| - 2].body[0] == "- **文件操作：** 0 个")
            && (args.toolsUsed.None? ==> doc[|doc| - 2].body[1] == "- **工具使用：** 0 次")
    ensures !Truthy(args.sessionType) && !Truthy(args.duration) && !Truthy(args.summary)
            && args.mainTasks.GetOr([]) == [] && args.filesCount.GetOr(0) == 0 && args.toolsUsed.GetOr(0) == 0
            ==> && SessionEndDoc(args, user, now)
                   == SessionEndHead("🤖 Claude Code 开发协助完成", now.dateTime, "刚刚完成", user, "会话已完成")
                      + SessionEndTail("0", "0", now.date)
                && !HasSection(SessionEndDoc(args, user, now), TasksHeading)
  {
    assert IntToString(0) == "0";
    var doc := SessionEndDoc(args, user, now);
    if !Truthy(args.sessionType) && !Truthy(args.duration) && !Truthy(args.summary)
       && args.mainTasks.GetOr([]) == [] && args.filesCount.GetOr(0) == 0 && args.toolsUsed.GetOr(0) == 0 {
      assert TasksPart(MainTasks(args)) == [];
      assert SessionEndTitle(args) == "🤖 Claude Code 开发协助完成";
      assert Or(args.duration, DefaultDuration) == "刚刚完成" && Or(args.summary, DefaultSummary) == "会话已完成";
      assert IntToString(args.filesCount.GetOr(0)) == "0" && IntToString(args.toolsUsed.GetOr(0)) == "0";
      var head := SessionEndHead("🤖 Claude Code 开发协助完成", now.dateTime, "刚刚完成", user, "会话已完成");
      var tail := SessionEndTail("0", "0", now.date);
      assert doc == head + [] + tail;
      assert head + [] + tail == head + tail;
      assert Find(doc, TasksHeading).None?;
    }
  }

  /** The main-tasks section is there iff the list is non-empty; it lists every task, trimmed, after "- ". */
  lemma SessionEndTasks(args: Args, user: string, now: Moment)
    ensures var doc := SessionEndDoc(args, user, now);
            var tasks := args.mainTasks.GetOr([]);
            && (HasSection(doc, TasksHeading) <==> |tasks| > 0)
            && (|tasks| > 0 ==> Find(doc, TasksHeading) == Some(Bullets(tasks)))
  {
    var head := SessionEndHead(SessionEndTitle(args), now.dateTime, Or(args.duration, DefaultDuration), user, Or(args.summary, DefaultSummary));
    var middle := TasksPart(MainTasks(args));
    var tail := SessionEndTail(IntToString(args.filesCount.GetOr(0)), IntToString(args.toolsUsed.GetOr(0)), now.date);
    FindAppend(head + middle, tail, TasksHeading);
    FindAppend(head, middle, TasksHeading);
    HeadHasNoTasks(SessionEndTitle(args), now.dateTime, Or(args.duration, DefaultDuration), user, Or(args.summary, DefaultSummary));
    TailHasNoTasks(IntToString(args.filesCount.GetOr(0)), IntToString(args.toolsUsed.GetOr(0)), now.date);
  }

  lemma HeadHasNoTasks(title: string, dateTime: string, duration: string, user: string, summary: string)
    ensures Find(SessionEndHead(title, dateTime, duration, user, summary), TasksHeading).None?
  {
    assert SessionHeading[4] != TasksHeading[4];
  }

  lemma TailHasNoTasks(files: string, tools: string, date: string)
    ensures Find(SessionEndTail(files, tools, date), TasksHeading).None?
  {
    assert StatsHeading[4] != TasksHeading[4];
  }

  /** The task notification's title joins the status emoji, the task name and the status text. */
  lemma TaskTitleShape(args: Args)
    requires args.status == Some("success") || args.status == Some("failed") || args.status == Some("warning")
    ensures StatusEmoji(args.status).Some? && StatusText(args.status).Some?
    ensures TaskTitle(args) == StatusEmoji(args.status).value + " " + Interp(args.taskName) + " - " + StatusText(args.status).value
  {
  }

  /** Only the three statuses of the table have an emoji and a text. */
  lemma StatusTable(status: Option<string>)
    ensures StatusEmoji(status).Some? <==> status == Some("success") || status == Some("failed") || status == Some("warning")
    ensures StatusText(status).Some? <==> StatusEmoji(status).Some?
  {
  }

  /** The elapsed-time line is there iff a duration is given. */
  lemma TaskElapsedLine(args: Args, user: string, now: Moment)
    ensures var facts := TaskDoc(args, user, now)[1].lines;
            && (|facts| == 5 <==> Truthy(args.duration))
            && (Truthy(args.duration) ==> facts[4] == "**耗时：** " + args.duration.value)
  {
  }

  /** The details section is there iff details are given, and holds them verbatim. */
  lemma TaskDetailsSection(args: Args, user: string, now: Moment)
    ensures var doc := TaskDoc(args, user, now);
            && (HasSection(doc, DetailsHeading) <==> Truthy(args.details))
            && (Truthy(args.details) ==> Find(doc, DetailsHeading) == Some([args.details.value]))
  {
    var doc := TaskDoc(args, user, now);
    var head := doc[..2];
    var middle := DetailsPart(args.details);
    var footer := [Para(["---", "*来自 Claude Code MCP Server*"])];
    assert doc == head + middle + footer;
    FindAppend(head + middle, footer, DetailsHeading);
    FindAppend(head, middle, DetailsHeading);
    assert Find(head, DetailsHeading).None?;
  }

  /** A task notification always ends with the footer. */
  lemma TaskEndsWithFooter(args: Args, user: string, now: Moment)
    ensures EndsWith(Render(TaskDoc(args, user, now)), TaskFooter)
  {
    TaskSplice(args, user, now);
    var r := Render(TaskDoc(args, user, now));
    var tail := "\n\n" + TaskFooter;
    assert r[|r| - |tail|..] == tail;
    assert tail[|tail| - |TaskFooter|..] == TaskFooter;
    assert r[|r| - |TaskFooter|..] == TaskFooter;
  }

  // ------------------------------------------------------- building the text

  /** `handleNotifySessionEnd` builds its text step by step; the result is the rendered document. */
  method BuildSessionEndContent(args: Args, user: string, now: Moment) returns (content: string)
    ensures content == Render(SessionEndDoc(args, user, now))
  {
    var sessionType := SessionType(args);
    var duration := Or(args.duration, DefaultDuration);
    var mainTasks := MainTasks(args);
    var summary := Or(args.summary, DefaultSummary);
    var filesCount := IntToString(args.filesCount.GetOr(0));
    var toolsUsed := IntToString(args.toolsUsed.GetOr(0));
    var title := "🤖 Claude Code " + sessionType + "完成";
    ghost var head := SessionEndHead(title, now.dateTime, duration, user, summary);
    ghost var middle := TasksPart(mainTasks);
    ghost var tail := SessionEndTail(filesCount, toolsUsed, now.date);
    content := "## " + title + "\n\n" + (("**完成时间：** " + now.dateTime) + "\n" + ("**会话时长：** " + duration) + "\n"
               + ("**操作者：** " + user) + "\n\n" + (SessionHeading + "\n" + summary));
    assert content == Render(head) by {
      SessionEndHeadText(title, now.dateTime, duration, user, summary);
    }
    if |mainTasks| > 0 {
      var section := "\n\n" + (TasksHeading + "\n" + Join(Bullets(mainTasks), "\n"));
      assert section == "\n\n" + RenderBlock(middle[0]) by {
        JoinCons(TasksHeading, Bullets(mainTasks), "\n");
      }
      content := content + section;
    }
    ghost var opening := content;
    assert opening == Render(head) + (if middle == [] then "" else "\n\n" + RenderBlock(middle[0]));
    var closing := "\n\n" + (StatsHeading + "\n" + ("- **文件操作：** " + filesCount + " 个") + "\n"
                   + ("- **工具使用：** " + toolsUsed + " 次") + "\n\n" + ("---" + "\n" + ("*Claude Code 自动通知 | " + now.date + "*")));
    assert closing == "\n\n" + Render(tail) by {
      SessionEndTailText(filesCount, toolsUsed, now.date);
    }
    content := content + closing;
    assert content == Render(SessionEndDoc(args, user, now)) by {
      SessionEndSplice(args, user, now);
    }
  }

  lemma SessionEndSplice(args: Args, user: string, now: Moment)
    ensures var head := SessionEndHead(SessionEndTitle(args), now.dateTime, Or(args.duration, DefaultDuration), user, Or(args.summary, DefaultSummary));
            var middle := TasksPart(MainTasks(args));
            var tail := SessionEndTail(IntToString(args.filesCount.GetOr(0)), IntToString(args.toolsUsed.GetOr(0)), now.date);
            Render(SessionEndDoc(args, user, now))
            == Render(head) + (if middle == [] then "" else "\n\n" + RenderBlock(middle[0])) + ("\n\n" + Render(tail))
  {
    var head := SessionEndHead(SessionEndTitle(args), now.dateTime, Or(args.duration, DefaultDuration), user, Or(args.summary, DefaultSummary));
    var middle := TasksPart(MainTasks(args));
    var tail := SessionEndTail(IntToString(args.filesCount.GetOr(0)), IntToString(args.toolsUsed.GetOr(0)), now.date);
    RenderSplice(head, middle, tail);
  }

  lemma SessionEndHeadText(title: string, dateTime: string, duration: string, user: string, summary: string)
    ensures Render(SessionEndHead(title, dateTime, duration, user, summary))
            == "## " + title + "\n\n" + (("**完成时间：** " + dateTime) + "\n" + ("**会话时长：** " + duration) + "\n"
               + ("**操作者：** " + user) + "\n\n" + (SessionHeading + "\n" + summary))
  {
    var doc := SessionEndHead(title, dateTime, duration, user, summary);
    JoinCons("## " + title, [], "\n");
    assert ["## " + title] == ["## " + title] + [];
    Join3("**完成时间：** " + dateTime, "**会话时长：** " + duration, "**操作者：** " + user, "\n");
    Join2(SessionHeading, summary, "\n");
    assert [SessionHeading] + [summary] == [SessionHeading, summary];
    assert doc == [doc[0]] + ([doc[1]] + [doc[2]]);
    RenderCons(doc[2], []);
    RenderCons(doc[1], [doc[2]]);
    RenderCons(doc[0], [doc[1]] + [doc[2]]);
  }

  lemma SessionEndTailText(files: string, tools: string, date: string)
    ensures Render(SessionEndTail(files, tools, date))
            == StatsHeading + "\n" + ("- **文件操作：** " + files + " 个") + "\n" + ("- **工具使用：** " + tools + " 次") + "\n\n"
               + ("---" + "\n" + ("*Claude Code 自动通知 | " + date + "*"))
  {
    var doc := SessionEndTail(files, tools, date);
    var stats := ["- **文件操作：** " + files + " 个", "- **工具使用：** " + tools + " 次"];
    Join3(StatsHeading, stats[0], stats[1], "\n");
    assert [StatsHeading] + stats == [StatsHeading, stats[0], stats[1]];
    Join2("---", "*Claude Code 自动通知 | " + date + "*", "\n");
    assert doc == [doc[0]] + [doc[1]];
    RenderCons(doc[1], []);
    RenderCons(doc[0], [doc[1]]);
  }

  /** `handleNotifyTaskComplete` builds its text step by step; the result is the rendered document. */
  method BuildTaskCompleteContent(args: Args, user: string, now: Moment) returns (markdownText: string)
    ensures markdownText == Render(TaskDoc(args, user, now))
  {
    var emoji := Interp(StatusEmoji(args.status));
    var statusText := Interp(StatusText(args.status));
    ghost var facts := TaskFacts(Interp(args.taskName), statusText, now.dateTime, user, args.duration);
    ghost var middle := DetailsPart(args.details);
    var heading := "## " + emoji + " " + statusText + "\n\n";
    markdownText := heading + ("**任务名称：** " + Interp(args.taskName) + "\n"
                    + "**状态：** " + statusText + "\n" + "**时间：** " + now.dateTime + "\n" + "**操作者：** " + user);
    assert markdownText == heading + Join(facts[..4], "\n") by {
      TaskFactsText(Interp(args.taskName), statusText, now.dateTime, user, args.duration);
    }
    if Truthy(args.duration) {
      var elapsed := "\n" + ("**耗时：** " + args.duration.value);
      markdownText := markdownText + elapsed;
    }
    assert markdownText == heading + Join(facts, "\n") by {
      TaskFactsDuration(Interp(args.taskName), statusText, now.dateTime, user, args.duration);
    }
    if Truthy(args.details) {
      var details := "\n\n" + (DetailsHeading + "\n" + args.details.value);
      assert details == "\n\n" + RenderBlock(middle[0]) by {
        Join2(DetailsHeading, args.details.value, "\n");
        assert [DetailsHeading] + [args.details.value] == [DetailsHeading, args.details.value];
      }
      markdownText := markdownText + details;
    }
    ghost var opening := markdownText;
    assert opening == heading + Join(facts, "\n") + (if middle == [] then "" else "\n\n" + RenderBlock(middle[0]));
    markdownText := markdownText + ("\n\n" + TaskFooter);
    assert markdownText == Render(TaskDoc(args, user, now)) by {
      TaskSplice(args, user, now);
    }
  }

  /** The four fixed fact lines of a task notification. */
  lemma TaskFactsText(taskName: string, statusText: string, dateTime: string, user: string, duration: Option<string>)
    ensures var facts := TaskFacts(taskName, statusText, dateTime, user, duration);
            && |facts| >= 4
            && Join(facts[..4], "\n")
               == "**任务名称：** " + taskName + "\n" + "**状态：** " + statusText + "\n" + "**时间：** " + dateTime + "\n"
                  + "**操作者：** " + user
  {
    var facts := TaskFacts(taskName, statusText, dateTime, user, duration);
    assert facts[..4] == ["**任务名称：** " + taskName, "**状态：** " + statusText, "**时间：** " + dateTime, "**操作者：** " + user];
    Join4("**任务名称：** " + taskName, "**状态：** " + statusText, "**时间：** " + dateTime, "**操作者：** " + user, "\n");
  }

  /** The elapsed-time line follows the four fixed lines when a duration is given. */
  lemma TaskFactsDuration(taskName: string, statusText: string, dateTime: string, user: string, duration: Option<string>)
    ensures var facts := TaskFacts(taskName, statusText, dateTime, user, duration);
            && |facts| >= 4
            && Join(facts, "\n") == Join(facts[..4], "\n") + (if Truthy(duration) then "\n" + ("**耗时：** " + duration.value) else "")
  {
    var facts := TaskFacts(taskName, statusText, dateTime, user, duration);
    var four := ["**任务名称：** " + taskName, "**状态：** " + statusText, "**时间：** " + dateTime, "**操作者：** " + user];
    assert facts[..4] == four;
    if Truthy(duration) {
      var e := "**耗时：** " + duration.value;
      JoinAppend(four, [e], "\n");
    } else {
      assert facts == four;
    }
  }

  lemma TaskSplice(args: Args, user: string, now: Moment)
    ensures var doc := TaskDoc(args, user, now);
            var middle := DetailsPart(args.details);
            Render(doc)
            == ("## " + Interp(StatusEmoji(args.status)) + " " + Interp(StatusText(args.status)) + "\n\n"
                + Join(TaskFacts(Interp(args.taskName), Interp(StatusText(args.status)), now.dateTime, user, args.duration), "\n")
                + (if middle == [] then "" else "\n\n" + RenderBlock(middle[0])))
               + ("\n\n" + TaskFooter)
  {
    var doc := TaskDoc(args, user, now);
    var head := doc[..2];
    var middle := DetailsPart(args.details);
    var footer := [Para(["---", "*来自 Claude Code MCP Server*"])];
    assert doc == head + middle + footer;
    RenderSplice(head, middle, footer);
    assert Render(head) == head[0].lines[0] + "\n\n" + Join(head[1].lines, "\n") by {
      assert head == [head[0]] + [head[1]];
      RenderCons(head[1], []);
      RenderCons(head[0], [head[1]]);
      JoinCons(head[0].lines[0], [], "\n");
      assert head[0].lines == [head[0].lines[0]] + [];
    }
    assert Render(footer) == TaskFooter by {
      RenderCons(footer[0], []);
      Join2("---", "*来自 Claude Code MCP Server*", "\n");
    }
  }

  // ----------------------------------------------------------------- server

  /**
   * The five send handlers: each builds its message as `HandlerMessage`
   * describes and posts it once through the client; the result is whether
   * DingTalk answered with errcode 0.
   */
  method HandleSend(client: DingTalkClient, tool: SendTool, args: Args, user: string, now: Moment, rt: Runtime)
    returns (ok: bool)
    modifies rt
    ensures rt.fetches == old(rt.fetches)
            + [Request(RequestUrl(client.config, now.epochMillis, rt.hmacSha256Base64, rt.encodeUriComponent),
                       ToJson(HandlerMessage(tool, args, user, now)))]
    ensures ok <==> rt.respond(|old(rt.fetches)|, rt.fetches[|old(rt.fetches)|]) == Some(0)
  {
    match tool {
    case TextTool =>
      ok := client.SendText(Interp(args.content) + TextSenderSuffix(user), args.atAll, rt, now.epochMillis);
    case MarkdownTool =>
      ok := client.SendMarkdown(args.title, Interp(args.text) + MarkdownSenderSuffix(user), args.atAll, rt, now.epochMillis);
    case LinkTool =>
      ok := client.SendLink(args.title, args.text, args.messageUrl, args.picUrl, rt, now.epochMillis);
    case SessionEndTool =>
      var content := BuildSessionEndContent(args, user, now);
      ok := client.SendMarkdown(Some(SessionEndTitle(args)), content, args.atAll, rt, now.epochMillis);
    case TaskCompleteTool =>
      var markdownText := BuildTaskCompleteContent(args, user, now);
      ok := client.SendMarkdown(Some(TaskTitle(args)), markdownText, args.atAll, rt, now.epochMillis);
    }
  }

  /** `DingTalkMCPServer`: its one piece of state is the client, absent until configured. */
  class DingTalkMCPServer {
    var client: DingTalkClient?

    /** The constructor runs `initializeFromEnv`. */
    constructor (env: map<string, string>)
      ensures (client != null) == EnvConfig(env).Some?
      ensures client != null ==> fresh(client) && client.config == EnvConfig(env).value
    {
      var config := EnvConfig(env);
      if config.Some? {
        client := new DingTalkClient(config.value);
      } else {
        client := null;
      }
    }

    /**
     * Handles one CallTool request, as `Dispatch` describes it: a new client
     * for configure, one fetch for a send with a client, nothing for an error.
     * `gitOutput` is what `git config --get user.name` printed, None when it
     * failed; `now` is the clock at the call.
     */
    method CallTool(name: string, args: Args, gitOutput: Option<string>, now: Moment, rt: Runtime) returns (reply: string)
      modifies this, rt
      ensures match Dispatch(old(client) != null, name, args, GitUsername(gitOutput), now)
        case Reconfigure(config, r) =>
          client != null && fresh(client) && client.config == config && reply == r && rt.fetches == old(rt.fetches)
        case Deliver(message, onSuccess, onFailure) =>
          && client == old(client) && client != null
          && rt.fetches == old(rt.fetches)
             + [Request(RequestUrl(client.config, now.epochMillis, rt.hmacSha256Base64, rt.encodeUriComponent), ToJson(message))]
          && reply == if rt.respond(|old(rt.fetches)|, rt.fetches[|old(rt.fetches)|]) == Some(0) then onSuccess else onFailure
        case Fail(error) =>
          client == old(client) && rt.fetches == old(rt.fetches) && reply == "Error: " + error
    {
      match ToolNamed(name)
      case None =>
        reply := "Error: " + UnknownToolMessage(name);
      case Some(ConfigureTool) =>
        client := new DingTalkClient(ConfigOfArgs(args));
        reply := ConfiguredReply;
      case Some(Send(tool)) =>
        if client == null {
          reply := "Error: " + NotConfiguredMessage;
        } else {
          var ok := HandleSend(client, tool, args, GitUsername(gitOutput), now, rt);
          reply := if ok then SuccessReply(tool) else FailureReply(tool);
        }
    }
  }
}
