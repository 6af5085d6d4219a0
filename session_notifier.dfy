/**
 * The session-end script. It scans the session log for conversation turns,
 * tool calls, modified files, finished tasks and errors, formats the elapsed
 * time and a one-line summary, and lays the statistics out as a markdown
 * report for DingTalk.
 *
 * The log is cut into lines at the two-character sequence backslash-n, not at
 * a newline character, and the report's file, task and error lists are joined
 * with that same two-character sequence: the model keeps both as written.
 */
module SessionNotifier {
  import opened Wrappers
  import opened JsText
  import opened JsNumber
  import opened Host
  import opened Markdown

  // ------------------------------------------------------------------ stats

  /** The statistics of one session; the two instants stand for `new Date()`. */
  datatype SessionStats = SessionStats(
    startTime: Moment,
    endTime: Moment,
    duration: string,
    messageCount: nat,
    toolCalls: nat,
    filesModified: seq<string>,
    tasksCompleted: seq<string>,
    errors: seq<string>,
    summary: string)

  /** `initializeSession`: both instants are the start, nothing counted yet. */
  function InitialStats(now: Moment): (s: SessionStats)
    ensures s.startTime == now && s.endTime == now
    ensures s.messageCount == 0 && s.toolCalls == 0
    ensures s.filesModified == [] && s.tasksCompleted == [] && s.errors == []
    ensures s.summary == "待生成"
    ensures s.duration == FormatDuration(RoundMinutes(s.endTime.epochMillis - s.startTime.epochMillis))
  {
    SessionStats(now, now, "0分钟", 0, 0, [], [], [], "待生成")
  }

  /** What reading the log gives: no such file, a read that throws, or its text. */
  datatype LogFile = Missing | Unreadable | Contents(text: string)

  /** The lines of the log: split at backslash-n, blank pieces dropped. */
  function LogLines(text: string): seq<string> {
    NonBlank(Split(text, "\\n"))
  }

  /** No log line is blank, and none holds the backslash-n it was cut at. */
  lemma LogLinesClean(text: string)
    ensures var lines := LogLines(text);
            forall k :: 0 <= k < |lines| ==> !IsBlank(lines[k]) && !Contains(lines[k], "\\n")
  {
  }

  predicate IsMessageLine(line: string) {
    Contains(line, "user:") || Contains(line, "assistant:")
  }

  predicate IsToolLine(line: string) {
    Contains(line, "tool_use:") || Contains(line, "function_call:")
  }

  predicate IsTaskLine(line: string) {
    Contains(line, "✅") || Contains(line, "completed") || Contains(line, "finished")
  }

  predicate IsErrorLine(line: string) {
    Contains(line, "❌") || Contains(line, "error") || Contains(line, "failed")
  }

  /** The number of conversation lines. */
  function MessageLines(lines: seq<string>): nat {
    if lines == [] then 0
    else MessageLines(lines[..|lines| - 1]) + if IsMessageLine(lines[|lines| - 1]) then 1 else 0
  }

  /** The number of tool-call lines. */
  function ToolLines(lines: seq<string>): nat {
    if lines == [] then 0
    else ToolLines(lines[..|lines| - 1]) + if IsToolLine(lines[|lines| - 1]) then 1 else 0
  }

  /** The modified files: every file a line names, once, in order of first mention. */
  function FilesOf(lines: seq<string>, fileOf: string -> Option<string>): (r: seq<string>)
    ensures forall i, j :: 0 <= i < j < |r| ==> r[i] != r[j]
    decreases |lines|
  {
    if lines == [] then []
    else
      var prev := FilesOf(lines[..|lines| - 1], fileOf);
      match fileOf(lines[|lines| - 1])
      case Some(f) => if f in prev then prev else prev + [f]
      case None => prev
  }

  /** The finished tasks: the captured name, trimmed, of every task line the task pattern matches. */
  function TasksOf(lines: seq<string>, taskOf: string -> Option<string>): seq<string> {
    if lines == [] then []
    else
      var last := lines[|lines| - 1];
      var prev := TasksOf(lines[..|lines| - 1], taskOf);
      if IsTaskLine(last) && taskOf(last).Some? then prev + [Trim(taskOf(last).value)] else prev
  }

  /** The error lines, trimmed, in log order. */
  function ErrorsOf(lines: seq<string>): seq<string> {
    if lines == [] then []
    else
      var last := lines[|lines| - 1];
      var prev := ErrorsOf(lines[..|lines| - 1]);
      if IsErrorLine(last) then prev + [Trim(last)] else prev
  }

  /** How each spec function grows by one more line, which is what one loop turn does. */
  lemma ScanSnoc(lines: seq<string>, line: string, fileOf: string -> Option<string>, taskOf: string -> Option<string>)
    ensures MessageLines(lines + [line]) == MessageLines(lines) + if IsMessageLine(line) then 1 else 0
    ensures ToolLines(lines + [line]) == ToolLines(lines) + if IsToolLine(line) then 1 else 0
    ensures FilesOf(lines + [line], fileOf)
            == match fileOf(line)
               case Some(f) => if f in FilesOf(lines, fileOf) then FilesOf(lines, fileOf) else FilesOf(lines, fileOf) + [f]
               case None => FilesOf(lines, fileOf)
    ensures TasksOf(lines + [line], taskOf)
            == TasksOf(lines, taskOf) + (if IsTaskLine(line) && taskOf(line).Some? then [Trim(taskOf(line).value)] else [])
    ensures ErrorsOf(lines + [line]) == ErrorsOf(lines) + (if IsErrorLine(line) then [Trim(line)] else [])
  {
    var next := lines + [line];
    assert next[..|next| - 1] == lines;
    assert next[|next| - 1] == line;
  }

  lemma PrefixSnoc(xs: seq<string>, i: nat)
    requires i < |xs|
    ensures xs[..i + 1] == xs[..i] + [xs[i]]
  {
  }

  /**
   * The counters, the tasks and the errors of a log are those of its two
   * halves put together: each line counts on its own, and order is kept.
   */
  lemma ScanAppend(a: seq<string>, b: seq<string>, taskOf: string -> Option<string>)
    ensures MessageLines(a + b) == MessageLines(a) + MessageLines(b)
    ensures ToolLines(a + b) == ToolLines(a) + ToolLines(b)
    ensures TasksOf(a + b, taskOf) == TasksOf(a, taskOf) + TasksOf(b, taskOf)
    ensures ErrorsOf(a + b) == ErrorsOf(a) + ErrorsOf(b)
  {
    CountsAppend(a, b);
    ListsAppend(a, b, taskOf);
  }

  lemma {:induction false} CountsAppend(a: seq<string>, b: seq<string>)
    ensures MessageLines(a + b) == MessageLines(a) + MessageLines(b)
    ensures ToolLines(a + b) == ToolLines(a) + ToolLines(b)
    decreases |b|
  {
    if b == [] {
      assert a + b == a;
    } else {
      var init := b[..|b| - 1];
      CountsAppend(a, init);
      assert (a + b)[..|a + b| - 1] == a + init;
      assert (a + b)[|a + b| - 1] == b[|b| - 1];
    }
  }

  lemma {:induction false} ListsAppend(a: seq<string>, b: seq<string>, taskOf: string -> Option<string>)
    ensures TasksOf(a + b, taskOf) == TasksOf(a, taskOf) + TasksOf(b, taskOf)
    ensures ErrorsOf(a + b) == ErrorsOf(a) + ErrorsOf(b)
    decreases |b|
  {
    if b == [] {
      assert a + b == a;
    } else {
      var init := b[..|b| - 1];
      ListsAppend(a, init, taskOf);
      assert (a + b)[..|a + b| - 1] == a + init;
      assert (a + b)[|a + b| - 1] == b[|b| - 1];
    }
  }

  /** A single line counts once for each kind of marker it holds. */
  lemma ScanOne(line: string, taskOf: string -> Option<string>)
    ensures MessageLines([line]) == if IsMessageLine(line) then 1 else 0
    ensures ToolLines([line]) == if IsToolLine(line) then 1 else 0
    ensures TasksOf([line], taskOf) == if IsTaskLine(line) && taskOf(line).Some? then [Trim(taskOf(line).value)] else []
    ensures ErrorsOf([line]) == if IsErrorLine(line) then [Trim(line)] else []
  {
    ScanSnoc([], line, (l: string) => None, taskOf);
    assert [] + [line] == [line];
  }

  /** A file is listed iff some line names it. */
  lemma {:induction false} FilesOfMembers(lines: seq<string>, fileOf: string -> Option<string>)
    ensures forall f :: f in FilesOf(lines, fileOf) <==> exists k :: 0 <= k < |lines| && fileOf(lines[k]) == Some(f)
    decreases |lines|
  {
    if lines != [] {
      var init := lines[..|lines| - 1];
      assert forall k :: 0 <= k < |init| ==> init[k] == lines[k];
      FilesOfMembers(init, fileOf);
    }
  }

  /** `xs.slice(0, n)`. */
  function Take(xs: seq<string>, n: nat): (r: seq<string>)
    ensures |r| <= n && |r| <= |xs| && r == xs[..|r|]
    ensures |r| == n || r == xs
  {
    if |xs| <= n then xs else xs[..n]
  }

  /**
   * The statistics a readable log yields: the start carried over, the end at
   * `now`, the counters, the lists and the summary of those counters.
   */
  function ScanStats(base: SessionStats, lines: seq<string>, fileOf: string -> Option<string>,
                     taskOf: string -> Option<string>, now: Moment): (s: SessionStats)
    ensures s.startTime == base.startTime && s.endTime == now
    ensures s.duration == FormatDuration(RoundMinutes(now.epochMillis - base.startTime.epochMillis))
    ensures s.messageCount == MessageLines(lines) && s.toolCalls == ToolLines(lines)
    ensures s.filesModified == FilesOf(lines, fileOf) && s.tasksCompleted == TasksOf(lines, taskOf)
    ensures forall i, j :: 0 <= i < j < |s.filesModified| ==> s.filesModified[i] != s.filesModified[j]
    ensures |s.errors| <= 5 && |s.errors| <= |ErrorsOf(lines)| && s.errors == ErrorsOf(lines)[..|s.errors|]
    ensures |s.errors| == 5 || s.errors == ErrorsOf(lines)
    ensures s.summary == GenerateSummary(s.messageCount, s.toolCalls, s.filesModified, s.tasksCompleted)
  {
    var messageCount := MessageLines(lines);
    var toolCalls := ToolLines(lines);
    var files := FilesOf(lines, fileOf);
    var tasks := TasksOf(lines, taskOf);
    SessionStats(base.startTime, now, FormatDuration(RoundMinutes(now.epochMillis - base.startTime.epochMillis)),
                 messageCount, toolCalls, files, tasks, Take(ErrorsOf(lines), 5),
                 GenerateSummary(messageCount, toolCalls, files, tasks))
  }

  // --------------------------------------------------------------- duration

  /** `Math.round(diffMs / 60000)`: the nearest whole minute, halves rounded up. */
  function RoundMinutes(diffMs: int): (m: int)
    ensures m * 60000 - 30000 <= diffMs < m * 60000 + 30000
  {
    (diffMs + 30000) / 60000
  }

  /** `formatDuration`: minutes below an hour, else whole hours and the remaining minutes. */
  function FormatDuration(minutes: int): string {
    if minutes < 60 then IntToString(minutes) + "分钟"
    else IntToString(minutes / 60) + "小时" + IntToString(minutes % 60) + "分钟"
  }

  /** Reads a duration text back into minutes. */
  function ParseDuration(s: string): Option<int> {
    if EndsWith(s, "分钟") then ParseDurationText(s[..|s| - 2]) else None
  }

  /** Reads "h小时m" or "m" back into minutes. */
  function ParseDurationText(body: string): Option<int> {
    match IndexOf(body, "小时")
    case None => IntOf(ParseInt(body))
    case Some(i) => HoursAndMinutes(body[..i], body[i + 2..])
  }

  /** Reads the hours before "小时" and the minutes after it. */
  function HoursAndMinutes(before: string, after: string): Option<int> {
    var hours := IntOf(ParseInt(before));
    var minutes := IntOf(ParseInt(after));
    if hours.Some? && minutes.Some? then Some(hours.value * 60 + minutes.value) else None
  }

  function IntOf(x: Number): Option<int> {
    match x
    case Int(n) => Some(n)
    case NaN => None
  }

  /** No rendered integer holds "小时", so the first "小时" after one is right behind it. */
  lemma HoursMarkAfter(digits: string, rest: string)
    requires forall k :: 0 <= k < |digits| ==> digits[k] != '小'
    ensures IndexOf(digits + "小时" + rest, "小时") == Some(|digits|)
  {
    var s := digits + "小时" + rest;
    assert OccursAt(s, "小时", |digits|) by {
      assert s[|digits|..|digits| + 2] == "小时";
    }
    forall j | 0 <= j < |digits| ensures !OccursAt(s, "小时", j) {
      assert s[j] == digits[j];
    }
  }

  lemma NoHoursMark(digits: string)
    requires forall k :: 0 <= k < |digits| ==> digits[k] != '小'
    ensures IndexOf(digits, "小时") == None
  {
    forall j | 0 <= j <= |digits| ensures !OccursAt(digits, "小时", j) {
      if j + 2 <= |digits| {
        assert digits[j..j + 2][0] == digits[j];
      }
    }
  }

  /** The duration text names the exact number of minutes, for every input, negative ones included. */
  lemma ParseFormatDuration(minutes: int)
    ensures ParseDuration(FormatDuration(minutes)) == Some(minutes)
  {
    var s := FormatDuration(minutes);
    assert EndsWith(s, "分钟") && s[..|s| - 2] == DurationBody(minutes) by {
      var b := DurationBody(minutes);
      assert s == b + "分钟";
      assert s[|s| - 2..] == "分钟";
      assert s[..|s| - 2] == b;
    }
    ParseDurationBody(minutes);
  }

  /** The text before "分钟": the minutes, or the hours, "小时" and the minutes. */
  function DurationBody(minutes: int): (b: string)
    ensures FormatDuration(minutes) == b + "分钟"
  {
    if minutes < 60 then IntToString(minutes)
    else IntToString(minutes / 60) + "小时" + IntToString(minutes % 60)
  }

  lemma ParseDurationBody(minutes: int)
    ensures ParseDurationText(DurationBody(minutes)) == Some(minutes)
  {
    if minutes < 60 {
      ParseMinutesText(minutes);
    } else {
      var hours, rest := minutes / 60, minutes % 60;
      assert hours * 60 + rest == minutes;
      assert DurationBody(minutes) == IntToString(hours) + "小时" + IntToString(rest);
      ParseHoursText(hours, rest);
    }
  }

  lemma ParseMinutesText(n: int)
    ensures ParseDurationText(IntToString(n)) == Some(n)
  {
    IntToStringHasNo(n, '小');
    NoHoursMark(IntToString(n));
    ParseIntOfIntToString(n);
  }

  lemma ParseHoursText(hours: int, minutes: int)
    ensures ParseDurationText(IntToString(hours) + "小时" + IntToString(minutes)) == Some(hours * 60 + minutes)
  {
    var h := IntToString(hours);
    var m := IntToString(minutes);
    var body := h + "小时" + m;
    IntToStringHasNo(hours, '小');
    HoursMarkAfter(h, m);
    ParseTextAt(body, |h|);
    assert body[..|h|] == h;
    assert body[|h| + 2..] == m;
    ReadHoursAndMinutes(hours, minutes);
  }

  lemma ParseTextAt(body: string, i: nat)
    requires IndexOf(body, "小时") == Some(i)
    ensures ParseDurationText(body) == HoursAndMinutes(body[..i], body[i + 2..])
  {
  }

  lemma ReadHoursAndMinutes(hours: int, minutes: int)
    ensures HoursAndMinutes(IntToString(hours), IntToString(minutes)) == Some(hours * 60 + minutes)
  {
    ParseIntOfIntToString(hours);
    ParseIntOfIntToString(minutes);
  }

  /** Under an hour the text is plain minutes; from an hour on the minutes part stays below 60. */
  lemma FormatDurationShape(minutes: int)
    ensures minutes < 60 ==> FormatDuration(minutes) == IntToString(minutes) + "分钟"
    ensures minutes >= 60 ==> var h := minutes / 60; var m := minutes % 60;
              h >= 1 && 0 <= m < 60 && h * 60 + m == minutes
              && FormatDuration(minutes) == IntToString(h) + "小时" + IntToString(m) + "分钟"
  {
  }

  // ---------------------------------------------------------------- summary

  /** The parts of the summary: one per counter above zero, in a fixed order. */
  function SummaryParts(messages: nat, tools: nat, files: seq<string>, tasks: seq<string>): seq<string> {
    (if messages > 0 then [IntToString(messages) + "条对话"] else [])
    + (if tools > 0 then [IntToString(tools) + "次工具调用"] else [])
    + (if |files| > 0 then [IntToString(|files|) + "个文件修改"] else [])
    + (if |tasks| > 0 then [IntToString(|tasks|) + "个任务完成"] else [])
  }

  /** `generateSummary`: the parts joined by a full-width comma, or "会话已结束" when there are none. */
  function GenerateSummary(messages: nat, tools: nat, files: seq<string>, tasks: seq<string>): string {
    var parts := SummaryParts(messages, tools, files, tasks);
    if |parts| > 0 then Join(parts, "，") else "会话已结束"
  }

  /** A counter's part is in the summary iff the counter is above zero. */
  lemma SummaryPartPresence(messages: nat, tools: nat, files: seq<string>, tasks: seq<string>)
    ensures var parts := SummaryParts(messages, tools, files, tasks);
            && ((IntToString(messages) + "条对话") in parts <==> messages > 0)
            && ((IntToString(tools) + "次工具调用") in parts <==> tools > 0)
            && ((IntToString(|files|) + "个文件修改") in parts <==> |files| > 0)
            && ((IntToString(|tasks|) + "个任务完成") in parts <==> |tasks| > 0)
  {
    var m, t, f, k := IntToString(messages), IntToString(tools), IntToString(|files|), IntToString(|tasks|);
    DifferentEnds(m, "条对话", t, "次工具调用");
    DifferentEnds(m, "条对话", f, "个文件修改");
    DifferentEnds(m, "条对话", k, "个任务完成");
    DifferentEnds(t, "次工具调用", f, "个文件修改");
    DifferentEnds(t, "次工具调用", k, "个任务完成");
    DifferentEnds(f, "个文件修改", k, "个任务完成");
  }

  /** Two strings with different last characters differ. */
  lemma DifferentEnds(a: string, x: string, b: string, y: string)
    requires x != [] && y != [] && x[|x| - 1] != y[|y| - 1]
    ensures a + x != b + y
  {
    var s, t := a + x, b + y;
    assert s[|s| - 1] == x[|x| - 1];
    assert t[|t| - 1] == y[|y| - 1];
  }

  /** The summary is the "session over" text iff nothing was counted. */
  lemma SummaryWhenIdle(messages: nat, tools: nat, files: seq<string>, tasks: seq<string>)
    ensures GenerateSummary(messages, tools, files, tasks) == "会话已结束"
            <==> messages == 0 && tools == 0 && files == [] && tasks == []
  {
    var parts := SummaryParts(messages, tools, files, tasks);
    if |parts| > 0 {
      var p := parts[0];
      assert p[0] != '会' by {
        assert p == IntToString(messages) + "条对话" || p == IntToString(tools) + "次工具调用"
            || p == IntToString(|files|) + "个文件修改" || p == IntToString(|tasks|) + "个任务完成";
      }
      JoinCons(p, parts[1..], "，");
      assert parts == [p] + parts[1..];
      var s := Join(parts, "，");
      assert s[0] == p[0];
    }
  }

  /** Splitting the summary at the full-width comma gives back its parts. */
  lemma SplitSummary(messages: nat, tools: nat, files: seq<string>, tasks: seq<string>)
    requires messages > 0 || tools > 0 || |files| > 0 || |tasks| > 0
    ensures Split(GenerateSummary(messages, tools, files, tasks), "，") == SummaryParts(messages, tools, files, tasks)
  {
    var parts := SummaryParts(messages, tools, files, tasks);
    IntToStringHasNo(messages, '，');
    IntToStringHasNo(tools, '，');
    IntToStringHasNo(|files|, '，');
    IntToStringHasNo(|tasks|, '，');
    forall k | 0 <= k < |parts| ensures '，' !in parts[k] {
    }
    SplitJoin(parts, '，');
  }

  // ----------------------------------------------------------------- report

  const ReportTitle: string := "🤖 Claude Code 会话完成"
  const StatsHeading: string := "### 📊 会话统计"
  const FilesHeading: string := "### 📝 修改文件"
  const TasksHeading: string := "### ✅ 完成任务"
  const ErrorsHeading: string := "### \U{26A0}\U{FE0F} 错误记录"
  const SummaryHeading: string := "### 📋 会话摘要"

  /** Each entry after "- ", unchanged. */
  function Bullets(xs: seq<string>): (r: seq<string>)
    ensures |r| == |xs|
    ensures forall k :: 0 <= k < |xs| ==> r[k] == "- " + xs[k]
  {
    if xs == [] then [] else ["- " + xs[0]] + Bullets(xs[1..])
  }

  /** The "and n more" line under a list cut at `limit`; empty when nothing was cut. */
  function Overflow(n: nat, limit: nat, noun: string): string {
    if n > limit then "- ...还有 " + IntToString(n - limit) + " 个" + noun else ""
  }

  /** The text of one optional list section, as the template splices it in. */
  function ListText(heading: string, items: seq<string>, limit: nat, noun: string): string {
    if |items| > 0 then
      "\n" + (heading + "\n" + Join(Bullets(Take(items, limit)), "\\n") + "\n" + Overflow(|items|, limit, noun)) + "\n"
    else ""
  }

  /** The first lines of the report: title, period and duration, and the counters. */
  function HeadText(startText: string, endText: string, duration: string,
                    messages: string, tools: string, files: string, tasks: string): string {
    "## " + ReportTitle + "\n\n"
    + (PeriodText(startText, endText, duration) + "\n\n" + CountsText(messages, tools, files, tasks))
  }

  function PeriodText(startText: string, endText: string, duration: string): string {
    ("**会话时间：** " + startText + " - " + endText) + "\n" + ("**持续时长：** " + duration)
  }

  function CountsText(messages: string, tools: string, files: string, tasks: string): string {
    StatsHeading + "\n"
    + (("- **对话消息：** " + messages + " 条") + "\n" + ("- **工具调用：** " + tools + " 次")
       + "\n" + ("- **文件操作：** " + files + " 个文件") + "\n" + ("- **任务完成：** " + tasks + " 个"))
  }

  /** The last lines of the report: the summary and the footer. */
  function TailText(summary: string): string {
    SummaryHeading + "\n" + summary + "\n\n" + ("---" + "\n" + "*自动生成 | Claude Code 会话监控*")
  }

  /** A notification: the title and the markdown text. */
  datatype Notification = Notification(title: string, content: string)

  /** `generateNotificationContent`: the report template filled in from the statistics. */
  function NotificationContent(stats: SessionStats): string {
    HeadText(stats.startTime.dateTime, stats.endTime.dateTime, stats.duration,
             IntToString(stats.messageCount), IntToString(stats.toolCalls),
             IntToString(|stats.filesModified|), IntToString(|stats.tasksCompleted|))
    + "\n\n" + (ListText(FilesHeading, stats.filesModified, 10, "文件")
    + "\n\n" + (ListText(TasksHeading, stats.tasksCompleted, 5, "任务")
    + "\n\n" + (ListText(ErrorsHeading, stats.errors, 3, "错误")
    + "\n\n" + TailText(stats.summary))))
  }

  function GenerateNotificationContent(stats: SessionStats): (n: Notification)
    ensures n.title == ReportTitle
    ensures n.content == Render(ReportDoc(stats))
  {
    ReportRendering(stats);
    Notification(ReportTitle, NotificationContent(stats))
  }

  // ---------------------------------------------------- the report as blocks

  function ReportHead(startText: string, endText: string, duration: string,
                      messages: string, tools: string, files: string, tasks: string): seq<Block> {
    [Para(["## " + ReportTitle]),
     Para(["**会话时间：** " + startText + " - " + endText, "**持续时长：** " + duration]),
     Section(false, StatsHeading, ["- **对话消息：** " + messages + " 条", "- **工具调用：** " + tools + " 次",
                                   "- **文件操作：** " + files + " 个文件", "- **任务完成：** " + tasks + " 个"])]
  }

  /** A list section: at most `limit` bullets on one line, then the overflow line; an empty block for an empty list. */
  function ListBlock(heading: string, items: seq<string>, limit: nat, noun: string): Block {
    if |items| > 0 then Section(true, heading, [Join(Bullets(Take(items, limit)), "\\n"), Overflow(|items|, limit, noun)])
    else Para([])
  }

  function ReportTail(summary: string): seq<Block> {
    [Section(false, SummaryHeading, [summary]), Para(["---", "*自动生成 | Claude Code 会话监控*"])]
  }

  /** The report as a document: head, the three list sections, tail. */
  function ReportDoc(stats: SessionStats): seq<Block> {
    ReportHead(stats.startTime.dateTime, stats.endTime.dateTime, stats.duration,
               IntToString(stats.messageCount), IntToString(stats.toolCalls),
               IntToString(|stats.filesModified|), IntToString(|stats.tasksCompleted|))
    + ([ListBlock(FilesHeading, stats.filesModified, 10, "文件")]
    + ([ListBlock(TasksHeading, stats.tasksCompleted, 5, "任务")]
    + ([ListBlock(ErrorsHeading, stats.errors, 3, "错误")]
    + ReportTail(stats.summary))))
  }

  lemma HeadTextIsRender(startText: string, endText: string, duration: string,
                         messages: string, tools: string, files: string, tasks: string)
    ensures HeadText(startText, endText, duration, messages, tools, files, tasks)
            == Render(ReportHead(startText, endText, duration, messages, tools, files, tasks))
  {
    var doc := ReportHead(startText, endText, duration, messages, tools, files, tasks);
    assert RenderBlock(doc[0]) == "## " + ReportTitle by {
      JoinCons("## " + ReportTitle, [], "\n");
      assert ["## " + ReportTitle] == ["## " + ReportTitle] + [];
    }
    assert RenderBlock(doc[1]) == PeriodText(startText, endText, duration) by {
      Join2("**会话时间：** " + startText + " - " + endText, "**持续时长：** " + duration, "\n");
    }
    assert RenderBlock(doc[2]) == CountsText(messages, tools, files, tasks) by {
      var counts := doc[2].body;
      JoinCons(StatsHeading, counts, "\n");
      Join4(counts[0], counts[1], counts[2], counts[3], "\n");
      assert counts == [counts[0], counts[1], counts[2], counts[3]];
    }
    assert doc == [doc[0]] + ([doc[1]] + [doc[2]]);
    RenderCons(doc[2], []);
    RenderCons(doc[1], [doc[2]]);
    RenderCons(doc[0], [doc[1]] + [doc[2]]);
  }

  lemma ListTextIsBlock(heading: string, items: seq<string>, limit: nat, noun: string)
    ensures ListText(heading, items, limit, noun) == RenderBlock(ListBlock(heading, items, limit, noun))
  {
    if |items| > 0 {
      Join3(heading, Join(Bullets(Take(items, limit)), "\\n"), Overflow(|items|, limit, noun), "\n");
    }
  }

  lemma TailTextIsRender(summary: string)
    ensures TailText(summary) == Render(ReportTail(summary))
  {
    var doc := ReportTail(summary);
    Join2(SummaryHeading, summary, "\n");
    assert [SummaryHeading] + [summary] == [SummaryHeading, summary];
    Join2("---", "*自动生成 | Claude Code 会话监控*", "\n");
    assert doc == [doc[0]] + [doc[1]];
    RenderCons(doc[1], []);
    RenderCons(doc[0], [doc[1]]);
  }

  /** The template text is the rendered report document. */
  lemma ReportRendering(stats: SessionStats)
    ensures NotificationContent(stats) == Render(ReportDoc(stats))
  {
    var head := ReportHead(stats.startTime.dateTime, stats.endTime.dateTime, stats.duration,
                           IntToString(stats.messageCount), IntToString(stats.toolCalls),
                           IntToString(|stats.filesModified|), IntToString(|stats.tasksCompleted|));
    var files := ListBlock(FilesHeading, stats.filesModified, 10, "文件");
    var tasks := ListBlock(TasksHeading, stats.tasksCompleted, 5, "任务");
    var errors := ListBlock(ErrorsHeading, stats.errors, 3, "错误");
    var tail := ReportTail(stats.summary);
    HeadTextIsRender(stats.startTime.dateTime, stats.endTime.dateTime, stats.duration,
                     IntToString(stats.messageCount), IntToString(stats.toolCalls),
                     IntToString(|stats.filesModified|), IntToString(|stats.tasksCompleted|));
    ListTextIsBlock(FilesHeading, stats.filesModified, 10, "文件");
    ListTextIsBlock(TasksHeading, stats.tasksCompleted, 5, "任务");
    ListTextIsBlock(ErrorsHeading, stats.errors, 3, "错误");
    TailTextIsRender(stats.summary);
    var rest := [files] + ([tasks] + ([errors] + tail));
    RenderAppend(head, rest);
    RenderCons(errors, tail);
    RenderCons(tasks, [errors] + tail);
    RenderCons(files, [tasks] + ([errors] + tail));
  }

  /** A list section is there iff the list is non-empty; it shows the first `limit` entries and an overflow line iff more were cut. */
  lemma ListSection(heading: string, items: seq<string>, limit: nat, noun: string)
    ensures var b := ListBlock(heading, items, limit, noun);
            && (b.Section? <==> |items| > 0)
            && (b.Section? ==> b.heading == heading && |b.body| == 2
                               && b.body[0] == Join(Bullets(Take(items, limit)), "\\n")
                               && (b.body[1] != "" <==> |items| > limit))
            && |Take(items, limit)| == (if |items| <= limit then |items| else limit)
  {
  }

  /** Each of the three lists has its section iff it is non-empty, and the summary has its own. */
  lemma ReportSections(stats: SessionStats)
    ensures var doc := ReportDoc(stats);
            && (HasSection(doc, FilesHeading) <==> |stats.filesModified| > 0)
            && (HasSection(doc, TasksHeading) <==> |stats.tasksCompleted| > 0)
            && (HasSection(doc, ErrorsHeading) <==> |stats.errors| > 0)
            && (|stats.filesModified| > 0 ==> Find(doc, FilesHeading) == Some(ListBlock(FilesHeading, stats.filesModified, 10, "文件").body))
            && (|stats.tasksCompleted| > 0 ==> Find(doc, TasksHeading) == Some(ListBlock(TasksHeading, stats.tasksCompleted, 5, "任务").body))
            && (|stats.errors| > 0 ==> Find(doc, ErrorsHeading) == Some(ListBlock(ErrorsHeading, stats.errors, 3, "错误").body))
            && Find(doc, SummaryHeading) == Some([stats.summary])
  {
    HeadingsDistinct();
    FindInReport(stats, FilesHeading);
    FindInReport(stats, TasksHeading);
    FindInReport(stats, ErrorsHeading);
    FindInReport(stats, SummaryHeading);
  }

  lemma HeadingsDistinct()
    ensures StatsHeading != FilesHeading && StatsHeading != TasksHeading
    ensures StatsHeading != ErrorsHeading && StatsHeading != SummaryHeading
    ensures FilesHeading != TasksHeading && FilesHeading != ErrorsHeading && FilesHeading != SummaryHeading
    ensures TasksHeading != ErrorsHeading && TasksHeading != SummaryHeading
    ensures ErrorsHeading != SummaryHeading
  {
    assert StatsHeading[4] == '📊' && FilesHeading[4] == '📝' && TasksHeading[4] == '✅';
    assert ErrorsHeading[4] == '\U{26A0}' && SummaryHeading[4] == '📋';
  }

  /** Where a heading other than the counters' is found in the report. */
  lemma FindInReport(stats: SessionStats, h: string)
    requires h != StatsHeading
    ensures var files := ListBlock(FilesHeading, stats.filesModified, 10, "文件");
            var tasks := ListBlock(TasksHeading, stats.tasksCompleted, 5, "任务");
            var errors := ListBlock(ErrorsHeading, stats.errors, 3, "错误");
            Find(ReportDoc(stats), h)
            == if files.Section? && h == FilesHeading then Some(files.body)
               else if tasks.Section? && h == TasksHeading then Some(tasks.body)
               else if errors.Section? && h == ErrorsHeading then Some(errors.body)
               else if h == SummaryHeading then Some([stats.summary])
               else None
  {
    var head := ReportHead(stats.startTime.dateTime, stats.endTime.dateTime, stats.duration,
                           IntToString(stats.messageCount), IntToString(stats.toolCalls),
                           IntToString(|stats.filesModified|), IntToString(|stats.tasksCompleted|));
    var files := ListBlock(FilesHeading, stats.filesModified, 10, "文件");
    var tasks := ListBlock(TasksHeading, stats.tasksCompleted, 5, "任务");
    var errors := ListBlock(ErrorsHeading, stats.errors, 3, "错误");
    var tail := ReportTail(stats.summary);
    FindInHead(stats.startTime.dateTime, stats.endTime.dateTime, stats.duration,
               IntToString(stats.messageCount), IntToString(stats.toolCalls),
               IntToString(|stats.filesModified|), IntToString(|stats.tasksCompleted|), h);
    FindSingle(files, h);
    FindSingle(tasks, h);
    FindSingle(errors, h);
    FindInTail(stats.summary, h);
    FindAppend(head, [files] + ([tasks] + ([errors] + tail)), h);
    FindAppend([files], [tasks] + ([errors] + tail), h);
    FindAppend([tasks], [errors] + tail, h);
    FindAppend([errors], tail, h);
  }

  lemma FindInHead(startText: string, endText: string, duration: string,
                   messages: string, tools: string, files: string, tasks: string, h: string)
    requires h != StatsHeading
    ensures Find(ReportHead(startText, endText, duration, messages, tools, files, tasks), h).None?
  {
  }

  lemma FindInTail(summary: string, h: string)
    ensures Find(ReportTail(summary), h) == if h == SummaryHeading then Some([summary]) else None
  {
    var tail := ReportTail(summary);
    assert tail[1..] == [tail[1]];
  }

  // ---------------------------------------------------------------- notifier

  /** The scanning loop of `extractSessionStats`: counters and lists, one line at a time. */
  method ScanLines(lines: seq<string>, fileOf: string -> Option<string>, taskOf: string -> Option<string>)
    returns (messageCount: nat, toolCalls: nat, filesModified: seq<string>, tasksCompleted: seq<string>, errors: seq<string>)
    ensures messageCount == MessageLines(lines)
    ensures toolCalls == ToolLines(lines)
    ensures filesModified == FilesOf(lines, fileOf)
    ensures tasksCompleted == TasksOf(lines, taskOf)
    ensures errors == ErrorsOf(lines)
  {
    messageCount, toolCalls := 0, 0;
    filesModified, tasksCompleted, errors := [], [], [];
    for i := 0 to |lines|
      invariant messageCount == MessageLines(lines[..i])
      invariant toolCalls == ToolLines(lines[..i])
      invariant filesModified == FilesOf(lines[..i], fileOf)
      invariant tasksCompleted == TasksOf(lines[..i], taskOf)
      invariant errors == ErrorsOf(lines[..i])
    {
      var line := lines[i];
      PrefixSnoc(lines, i);
      ScanSnoc(lines[..i], line, fileOf, taskOf);
      if IsMessageLine(line) {
        messageCount := messageCount + 1;
      }
      if IsToolLine(line) {
        toolCalls := toolCalls + 1;
      }
      match fileOf(line) {
        case Some(f) =>
          if f !in filesModified {
            filesModified := filesModified + [f];
          }
        case None =>
      }
      if IsTaskLine(line) {
        match taskOf(line) {
          case Some(t) =>
            tasksCompleted := tasksCompleted + [Trim(t)];
          case None =>
        }
      }
      if IsErrorLine(line) {
        errors := errors + [Trim(line)];
      }
    }
    assert lines[..|lines|] == lines;
  }

  /** `ClaudeCodeSessionNotifier`: the log it reads and the statistics it starts from. */
  class ClaudeCodeSessionNotifier {
    const logFile: string
    const sessionStats: SessionStats

    /** The log is `CLAUDE_SESSION_LOG` when set and non-empty, else ./.claude-session.log. */
    constructor (env: map<string, string>, now: Moment)
      ensures logFile == Or(EnvGet(env, "CLAUDE_SESSION_LOG"), "./.claude-session.log")
      ensures sessionStats == InitialStats(now)
    {
      logFile := Or(EnvGet(env, "CLAUDE_SESSION_LOG"), "./.claude-session.log");
      sessionStats := InitialStats(now);
    }

    /**
     * `extractSessionStats`: one pass over the log lines. A missing or
     * unreadable log gives the starting statistics unchanged. `fileOf` and
     * `taskOf` stand for the file and task regular expressions: the captured
     * group of a line, if the line matches. `now` is the clock at the end.
     */
    method ExtractSessionStats(log: LogFile, fileOf: string -> Option<string>, taskOf: string -> Option<string>, now: Moment)
      returns (stats: SessionStats)
      ensures !log.Contents? ==> stats == sessionStats
      ensures log.Contents? ==> stats == ScanStats(sessionStats, LogLines(log.text), fileOf, taskOf, now)
    {
      if !log.Contents? {
        return sessionStats;
      }
      var lines := LogLines(log.text);
      var messageCount, toolCalls, filesModified, tasksCompleted, errors := ScanLines(lines, fileOf, taskOf);
      stats := SessionStats(sessionStats.startTime, now,
                            FormatDuration(RoundMinutes(now.epochMillis - sessionStats.startTime.epochMillis)),
                            messageCount, toolCalls, filesModified, tasksCompleted, Take(errors, 5),
                            GenerateSummary(messageCount, toolCalls, filesModified, tasksCompleted));
    }

    /**
     * `execute`: the notification handed to the server process, or None when
     * `DINGTALK_WEBHOOK` is not set, in which case nothing is sent.
     */
    method Execute(log: LogFile, env: map<string, string>, fileOf: string -> Option<string>,
                   taskOf: string -> Option<string>, now: Moment)
      returns (outgoing: Option<Notification>)
      ensures outgoing.Some? <==> Truthy(EnvGet(env, "DINGTALK_WEBHOOK"))
      ensures outgoing.Some? ==>
                outgoing.value.title == ReportTitle
                && outgoing.value.content
                   == Render(ReportDoc(if log.Contents? then ScanStats(sessionStats, LogLines(log.text), fileOf, taskOf, now)
                                       else sessionStats))
    {
      var stats := ExtractSessionStats(log, fileOf, taskOf, now);
      var notification := GenerateNotificationContent(stats);
      if !Truthy(EnvGet(env, "DINGTALK_WEBHOOK")) {
        return None;
      }
      outgoing := Some(notification);
    }
  }
}
