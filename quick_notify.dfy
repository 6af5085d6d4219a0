/**
 * The quick notification script. It fills in a short session report from its
 * command line or, failing that, from environment variables, and posts it as
 * one markdown message. `quickSend` writes its arguments into the environment
 * first, so the report reads them back from there.
 */
module QuickNotify {
  import opened Wrappers
  import opened JsText
  import opened JsNumber
  import opened Host
  import opened Markdown
  import opened DingTalk
  import McpServer
  import SessionNotifier

  /** What the quick report is filled in from. The counts are `parseInt` results and may be NaN. */
  datatype QuickNotificationData = QuickNotificationData(
    sessionType: string,
    duration: string,
    mainTasks: seq<string>,
    summary: string,
    filesCount: Number,
    toolsUsed: Number)

  // ------------------------------------------------------------------ client

  /**
   * `initializeDingTalk`: a configuration exactly when DINGTALK_WEBHOOK is set
   * and not empty. The keywords go through `?.split(',')`, so a variable that
   * is set but empty gives one empty keyword rather than none.
   */
  function QuickConfig(env: map<string, string>): (r: Option<Config>)
    ensures r.Some? <==> Truthy(EnvGet(env, "DINGTALK_WEBHOOK"))
    ensures r.Some? ==> r.value.webhook == EnvGet(env, "DINGTALK_WEBHOOK") && r.value.secret == EnvGet(env, "DINGTALK_SECRET")
    ensures r.Some? ==> (r.value.keywords.Some? <==> "DINGTALK_KEYWORDS" in env)
  {
    var webhook := EnvGet(env, "DINGTALK_WEBHOOK");
    if !Truthy(webhook) then None
    else
      var keywords := EnvGet(env, "DINGTALK_KEYWORDS");
      Some(Config(webhook, EnvGet(env, "DINGTALK_SECRET"),
                  if keywords.Some? then Some(TrimEach(Split(keywords.value, ","))) else None))
  }

  /**
   * The script and the server read the same configuration from the same
   * environment, except when DINGTALK_KEYWORDS is set to the empty string:
   * the script then has the one keyword "" and the server has none.
   */
  lemma QuickConfigMatchesServer(env: map<string, string>)
    ensures QuickConfig(env).Some? <==> McpServer.EnvConfig(env).Some?
    ensures QuickConfig(env).Some? && EnvGet(env, "DINGTALK_KEYWORDS") != Some("")
            ==> QuickConfig(env) == McpServer.EnvConfig(env)
    ensures QuickConfig(env).Some? && EnvGet(env, "DINGTALK_KEYWORDS") == Some("")
            ==> QuickConfig(env).value.keywords == Some([""]) && McpServer.EnvConfig(env).value.keywords == None
  {
    if EnvGet(env, "DINGTALK_KEYWORDS") == Some("") {
      assert IndexOf("", ",").None?;
      assert Split("", ",") == [""];
      assert Trim("") == "";
      assert TrimEach([""]) == [""];
    }
  }

  // ---------------------------------------------------------- session info

  /** `process.argv.slice(2)`: the arguments after the interpreter and the script. */
  function CliArgs(argv: seq<string>): seq<string> {
    if |argv| >= 2 then argv[2..] else []
  }

  /** `args[i]`: undefined past the end. */
  function Arg(args: seq<string>, i: nat): Option<string> {
    if i < |args| then Some(args[i]) else None
  }

  /** `cli || envValue || fallback`: the first of the three that is defined and not empty, the fallback otherwise. */
  function Resolve(cli: Option<string>, envValue: Option<string>, fallback: string): (r: string)
    ensures Truthy(cli) ==> r == cli.value
    ensures !Truthy(cli) && Truthy(envValue) ==> r == envValue.value
    ensures !Truthy(cli) && !Truthy(envValue) ==> r == fallback
  {
    Or(cli, Or(envValue, fallback))
  }

  /** One field of the session info: the i-th command-line argument, else the variable `key`, else the default. */
  function Field(argv: seq<string>, env: map<string, string>, i: nat, key: string, fallback: string): string {
    Resolve(Arg(CliArgs(argv), i), EnvGet(env, key), fallback)
  }

  /** `raw.split(',').filter(t => t.trim())`: the non-blank entries, kept as they are. */
  function TaskList(raw: string): (tasks: seq<string>)
    ensures forall k :: 0 <= k < |tasks| ==> !IsBlank(tasks[k]) && !Contains(tasks[k], ",")
  {
    NonBlank(Split(raw, ","))
  }

  /** A task is listed iff it is one of the comma-separated entries and is not blank. */
  lemma TaskListMembers(raw: string, t: string)
    ensures t in TaskList(raw) <==> t in Split(raw, ",") && !IsBlank(t)
  {
    NonBlankMembers(Split(raw, ","), t);
  }

  /** Tasks free of commas and not blank, joined with commas, are listed back as they were. */
  lemma TaskListOfJoin(tasks: seq<string>)
    requires forall k :: 0 <= k < |tasks| ==> ',' !in tasks[k] && !IsBlank(tasks[k])
    ensures TaskList(Join(tasks, ",")) == tasks
  {
    if tasks == [] {
      assert IndexOf("", ",").None?;
      assert Split("", ",") == [""];
      assert Trim("") == "";
    } else {
      SplitJoin(tasks, ',');
      NonBlankOfClean(tasks);
    }
  }

  /** `detectSessionInfo`: every field through its fallback chain; the counts through `parseInt`. */
  function DetectSessionInfo(argv: seq<string>, env: map<string, string>): (d: QuickNotificationData)
    ensures d.sessionType != "" && d.duration != "" && d.summary != ""
    ensures forall k :: 0 <= k < |d.mainTasks| ==> !IsBlank(d.mainTasks[k]) && !Contains(d.mainTasks[k], ",")
  {
    QuickNotificationData(
      Field(argv, env, 0, "CLAUDE_SESSION_TYPE", "开发协助"),
      Field(argv, env, 1, "CLAUDE_SESSION_DURATION", "未知时长"),
      TaskList(Field(argv, env, 2, "CLAUDE_MAIN_TASKS", "")),
      Field(argv, env, 3, "CLAUDE_SESSION_SUMMARY", "会话已完成"),
      ParseInt(Field(argv, env, 4, "CLAUDE_FILES_COUNT", "0")),
      ParseInt(Field(argv, env, 5, "CLAUDE_TOOLS_USED", "0")))
  }

  /** The environment after `quickSend` has written its six arguments into it. */
  function SessionEnv(env: map<string, string>, sessionType: string, duration: string, tasks: seq<string>,
                      summary: string, filesCount: int, toolsUsed: int): map<string, string> {
    env["CLAUDE_SESSION_TYPE" := sessionType]
       ["CLAUDE_SESSION_DURATION" := duration]
       ["CLAUDE_MAIN_TASKS" := Join(tasks, ",")]
       ["CLAUDE_SESSION_SUMMARY" := summary]
       ["CLAUDE_FILES_COUNT" := IntToString(filesCount)]
       ["CLAUDE_TOOLS_USED" := IntToString(toolsUsed)]
  }

  /**
   * What `quickSend` writes, `detectSessionInfo` reads back, field by field,
   * unless a command-line argument for that field takes precedence. Empty
   * strings fall through to the script's own defaults, and the task list
   * survives the comma join when no task contains a comma or is blank.
   */
  lemma QuickSendRoundTrip(argv: seq<string>, env: map<string, string>, sessionType: string, duration: string,
                           tasks: seq<string>, summary: string, filesCount: int, toolsUsed: int)
    requires forall k :: 0 <= k < |tasks| ==> ',' !in tasks[k] && !IsBlank(tasks[k])
    ensures var args := CliArgs(argv);
            var d := DetectSessionInfo(argv, SessionEnv(env, sessionType, duration, tasks, summary, filesCount, toolsUsed));
            && (!Truthy(Arg(args, 0)) ==> d.sessionType == if sessionType != "" then sessionType else "开发协助")
            && (!Truthy(Arg(args, 1)) ==> d.duration == if duration != "" then duration else "未知时长")
            && (!Truthy(Arg(args, 2)) ==> d.mainTasks == tasks)
            && (!Truthy(Arg(args, 3)) ==> d.summary == if summary != "" then summary else "会话已完成")
            && (!Truthy(Arg(args, 4)) ==> d.filesCount == Int(filesCount))
            && (!Truthy(Arg(args, 5)) ==> d.toolsUsed == Int(toolsUsed))
  {
    SessionEnvReads(env, sessionType, duration, tasks, summary, filesCount, toolsUsed);
    TaskListOfJoin(tasks);
    if tasks != [] {
      assert Join(tasks, ",") != "" by {
        JoinStartsWithFirst(tasks, ",");
        assert tasks[0] != "";
      }
    }
    ParseIntOfIntToString(filesCount);
    ParseIntOfIntToString(toolsUsed);
  }

  /** Each of the six variables reads back as written. */
  lemma SessionEnvReads(env: map<string, string>, sessionType: string, duration: string, tasks: seq<string>,
                        summary: string, filesCount: int, toolsUsed: int)
    ensures var e := SessionEnv(env, sessionType, duration, tasks, summary, filesCount, toolsUsed);
            && EnvGet(e, "CLAUDE_SESSION_TYPE") == Some(sessionType)
            && EnvGet(e, "CLAUDE_SESSION_DURATION") == Some(duration)
            && EnvGet(e, "CLAUDE_MAIN_TASKS") == Some(Join(tasks, ","))
            && EnvGet(e, "CLAUDE_SESSION_SUMMARY") == Some(summary)
            && EnvGet(e, "CLAUDE_FILES_COUNT") == Some(IntToString(filesCount))
            && EnvGet(e, "CLAUDE_TOOLS_USED") == Some(IntToString(toolsUsed))
  {
  }

  lemma JoinStartsWithFirst(pieces: seq<string>, separator: string)
    requires pieces != []
    ensures StartsWith(Join(pieces, separator), pieces[0])
  {
    JoinCons(pieces[0], pieces[1..], separator);
    assert pieces == [pieces[0]] + pieces[1..];
  }

  // ---------------------------------------------------------------- template

  // The three section headings are the server's: McpServer.SessionHeading,
  // McpServer.TasksHeading and McpServer.StatsHeading.

  /** The title, also the first line of the report under a "## ". */
  function QuickTitle(sessionType: string): string {
    "🤖 Claude Code " + sessionType + "完成"
  }

  function CompletedLine(dateTime: string): string { "**完成时间：** " + dateTime }
  function DurationLine(duration: string): string { "**会话时长：** " + duration }
  function FilesLine(n: Number): string { "- **文件操作：** " + NumberToString(n) + " 个" }
  function ToolsLine(n: Number): string { "- **工具使用：** " + NumberToString(n) + " 次" }
  function FooterLine(date: string): string { "*Claude Code 自动通知 | " + date + "*" }

  /** The optional task section: a newline, heading and bullets (joined with a backslash and an n), a newline. */
  function TasksText(tasks: seq<string>): string {
    if |tasks| > 0 then "\n" + (McpServer.TasksHeading + "\n" + Join(McpServer.Bullets(tasks), "\\n")) + "\n" else ""
  }

  /** `generateQuickNotification`'s content template, filled in. */
  function QuickContent(data: QuickNotificationData, now: Moment): string {
    "## " + QuickTitle(data.sessionType)
    + "\n\n" + (CompletedLine(now.dateTime) + "\n" + DurationLine(data.duration)
    + "\n\n" + (McpServer.SessionHeading + "\n" + data.summary
    + "\n\n" + (TasksText(data.mainTasks)
    + "\n\n" + (McpServer.StatsHeading + "\n" + FilesLine(data.filesCount) + "\n" + ToolsLine(data.toolsUsed)
    + "\n\n" + ("---" + "\n" + FooterLine(now.date))))))
  }

  /** The task section as a block: a padded section when there are tasks, an empty block otherwise. */
  function TasksBlock(tasks: seq<string>): Block {
    if |tasks| > 0 then Section(true, McpServer.TasksHeading, [Join(McpServer.Bullets(tasks), "\\n")]) else Para([])
  }

  /** The quick report as a document. */
  function QuickDoc(data: QuickNotificationData, now: Moment): seq<Block> {
    [Para(["## " + QuickTitle(data.sessionType)])]
    + ([Para([CompletedLine(now.dateTime), DurationLine(data.duration)])]
    + ([Section(false, McpServer.SessionHeading, [data.summary])]
    + ([TasksBlock(data.mainTasks)]
    + ([Section(false, McpServer.StatsHeading, [FilesLine(data.filesCount), ToolsLine(data.toolsUsed)])]
    + [Para(["---", FooterLine(now.date)])]))))
  }

  lemma TasksBlockText(tasks: seq<string>)
    ensures RenderBlock(TasksBlock(tasks)) == TasksText(tasks)
  {
    if |tasks| > 0 {
      var j := Join(McpServer.Bullets(tasks), "\\n");
      Join2(McpServer.TasksHeading, j, "\n");
      assert [McpServer.TasksHeading] + [j] == [McpServer.TasksHeading, j];
    }
  }

  /** The template text is the rendered document. */
  lemma QuickRendering(data: QuickNotificationData, now: Moment)
    ensures QuickContent(data, now) == Render(QuickDoc(data, now))
  {
    var b0 := Para(["## " + QuickTitle(data.sessionType)]);
    var b1 := Para([CompletedLine(now.dateTime), DurationLine(data.duration)]);
    var b2 := Section(false, McpServer.SessionHeading, [data.summary]);
    var b3 := TasksBlock(data.mainTasks);
    var b4 := Section(false, McpServer.StatsHeading, [FilesLine(data.filesCount), ToolsLine(data.toolsUsed)]);
    var b5 := Para(["---", FooterLine(now.date)]);
    ParaText1("## " + QuickTitle(data.sessionType));
    ParaText2(CompletedLine(now.dateTime), DurationLine(data.duration));
    SectionText1(McpServer.SessionHeading, data.summary);
    TasksBlockText(data.mainTasks);
    SectionText2(McpServer.StatsHeading, FilesLine(data.filesCount), ToolsLine(data.toolsUsed));
    ParaText2("---", FooterLine(now.date));
    RenderCons(b5, []);
    RenderCons(b4, [b5]);
    RenderCons(b3, [b4] + [b5]);
    RenderCons(b2, [b3] + ([b4] + [b5]));
    RenderCons(b1, [b2] + ([b3] + ([b4] + [b5])));
    RenderCons(b0, [b1] + ([b2] + ([b3] + ([b4] + [b5]))));
  }

  /**
   * `generateQuickNotification`: the title names the session type, the
   * content is the rendered report and opens with the title as a heading.
   */
  function GenerateQuickNotification(data: QuickNotificationData, now: Moment): (n: SessionNotifier.Notification)
    ensures n.content == Render(QuickDoc(data, now))
    ensures StartsWith(n.content, "## " + n.title)
    ensures n.title == "🤖 Claude Code " + data.sessionType + "完成"
    ensures StartsWith(n.title, "🤖 Claude Code ") && EndsWith(n.title, "完成")
  {
    QuickRendering(data, now);
    var title := QuickTitle(data.sessionType);
    assert StartsWith(title, "🤖 Claude Code ") by {
      assert title[..|"🤖 Claude Code "|] == "🤖 Claude Code ";
    }
    assert EndsWith(title, "完成") by {
      assert title[|title| - 2..] == "完成";
    }
    var content := QuickContent(data, now);
    assert content[..|"## " + title|] == "## " + title;
    SessionNotifier.Notification(title, content)
  }

  /**
   * The report has the task section iff there are tasks, one trimmed bullet
   * per task; the summary and the counts have their own sections always.
   */
  lemma QuickSections(data: QuickNotificationData, now: Moment)
    ensures var doc := QuickDoc(data, now);
            && (HasSection(doc, McpServer.TasksHeading) <==> |data.mainTasks| > 0)
            && (|data.mainTasks| > 0 ==> Find(doc, McpServer.TasksHeading) == Some([Join(McpServer.Bullets(data.mainTasks), "\\n")]))
            && Find(doc, McpServer.SessionHeading) == Some([data.summary])
            && Find(doc, McpServer.StatsHeading) == Some([FilesLine(data.filesCount), ToolsLine(data.toolsUsed)])
  {
    assert McpServer.SessionHeading[4] == '📋' && McpServer.TasksHeading[4] == '✅' && McpServer.StatsHeading[4] == '📊';
    FindInQuick(data, now, McpServer.TasksHeading);
    FindInQuick(data, now, McpServer.SessionHeading);
    FindInQuick(data, now, McpServer.StatsHeading);
  }

  lemma FindInQuick(data: QuickNotificationData, now: Moment, h: string)
    ensures var tasks := TasksBlock(data.mainTasks);
            Find(QuickDoc(data, now), h)
            == if h == McpServer.SessionHeading then Some([data.summary])
               else if tasks.Section? && h == McpServer.TasksHeading then Some(tasks.body)
               else if h == McpServer.StatsHeading then Some([FilesLine(data.filesCount), ToolsLine(data.toolsUsed)])
               else None
  {
    var b0 := Para(["## " + QuickTitle(data.sessionType)]);
    var b1 := Para([CompletedLine(now.dateTime), DurationLine(data.duration)]);
    var b2 := Section(false, McpServer.SessionHeading, [data.summary]);
    var b3 := TasksBlock(data.mainTasks);
    var b4 := Section(false, McpServer.StatsHeading, [FilesLine(data.filesCount), ToolsLine(data.toolsUsed)]);
    var b5 := Para(["---", FooterLine(now.date)]);
    FindSingle(b0, h);
    FindSingle(b1, h);
    FindSingle(b2, h);
    FindSingle(b3, h);
    FindSingle(b4, h);
    FindSingle(b5, h);
    FindAppend([b4], [b5], h);
    FindAppend([b3], [b4] + [b5], h);
    FindAppend([b2], [b3] + ([b4] + [b5]), h);
    FindAppend([b1], [b2] + ([b3] + ([b4] + [b5])), h);
    FindAppend([b0], [b1] + ([b2] + ([b3] + ([b4] + [b5]))), h);
  }

  /** The message `sendQuickNotification` posts: the report as markdown, `isAtAll` left at false. */
  function QuickMessage(data: QuickNotificationData, now: Moment): (m: Message)
    ensures m.msgtype == MarkdownType && m.markdown.Some?
    ensures m.markdown.value.title == Some(GenerateQuickNotification(data, now).title)
    ensures m.markdown.value.text == Render(QuickDoc(data, now))
    ensures m.at == Some(AtPayload(None, None, Some(false)))
  {
    var n := GenerateQuickNotification(data, now);
    MarkdownMessage(Some(n.title), n.content, None)
  }

  // ---------------------------------------------------------------- notifier

  /** `QuickSessionNotifier`: its one piece of state is the client, absent when no webhook is configured. */
  class QuickSessionNotifier {
    var dingTalkClient: DingTalkClient?

    /** The constructor runs `initializeDingTalk` on the environment as it is then. */
    constructor (env: map<string, string>)
      ensures (dingTalkClient != null) <==> Truthy(EnvGet(env, "DINGTALK_WEBHOOK"))
      ensures dingTalkClient != null ==> fresh(dingTalkClient) && dingTalkClient.config == QuickConfig(env).value
    {
      var config := QuickConfig(env);
      if config.None? {
        dingTalkClient := null;
      } else {
        dingTalkClient := new DingTalkClient(config.value);
      }
    }

    /**
     * `sendQuickNotification`: false without a fetch when there is no client;
     * otherwise one markdown post of the report built from the process's
     * arguments and environment, and the result of that post.
     */
    method SendQuickNotification(proc: Process, rt: Runtime, now: Moment) returns (ok: bool)
      modifies rt
      ensures dingTalkClient == null ==> !ok && rt.fetches == old(rt.fetches)
      ensures dingTalkClient != null ==>
                && rt.fetches == old(rt.fetches)
                   + [Request(RequestUrl(dingTalkClient.config, now.epochMillis, rt.hmacSha256Base64, rt.encodeUriComponent),
                              ToJson(QuickMessage(DetectSessionInfo(proc.argv, proc.env), now)))]
                && (ok <==> rt.respond(|old(rt.fetches)|, rt.fetches[|old(rt.fetches)|]) == Some(0))
    {
      if dingTalkClient == null {
        return false;
      }
      var sessionData := DetectSessionInfo(proc.argv, proc.env);
      var n := GenerateQuickNotification(sessionData, now);
      var success := dingTalkClient.SendMarkdown(Some(n.title), n.content, None, rt, now.epochMillis);
      if success {
        return true;
      } else {
        return false;
      }
    }

    /**
     * `quickSend`: a new notifier on the environment as it is, the six
     * arguments (each with its default when left out) written into the
     * environment, then `sendQuickNotification`.
     */
    static method QuickSend(proc: Process, rt: Runtime, now: Moment,
                            sessionType: Option<string>, duration: Option<string>, tasks: Option<seq<string>>,
                            summary: Option<string>, filesCount: Option<int>, toolsUsed: Option<int>)
      returns (ok: bool)
      modifies proc, rt
      ensures proc.env == SessionEnv(old(proc.env), sessionType.GetOr("开发协助"), duration.GetOr("刚刚完成"),
                                     tasks.GetOr([]), summary.GetOr("会话已完成"), filesCount.GetOr(0), toolsUsed.GetOr(0))
      ensures !Truthy(EnvGet(old(proc.env), "DINGTALK_WEBHOOK")) ==> !ok && rt.fetches == old(rt.fetches)
      ensures Truthy(EnvGet(old(proc.env), "DINGTALK_WEBHOOK")) ==>
                && rt.fetches == old(rt.fetches)
                   + [Request(RequestUrl(QuickConfig(old(proc.env)).value, now.epochMillis, rt.hmacSha256Base64, rt.encodeUriComponent),
                              ToJson(QuickMessage(DetectSessionInfo(proc.argv, proc.env), now)))]
                && (ok <==> rt.respond(|old(rt.fetches)|, rt.fetches[|old(rt.fetches)|]) == Some(0))
    {
      var notifier := new QuickSessionNotifier(proc.env);
      proc.env := SessionEnv(proc.env, sessionType.GetOr("开发协助"), duration.GetOr("刚刚完成"),
                             tasks.GetOr([]), summary.GetOr("会话已完成"), filesCount.GetOr(0), toolsUsed.GetOr(0));
      ok := notifier.SendQuickNotification(proc, rt, now);
    }
  }
}
