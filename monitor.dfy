/** The maintenance monitor: health checks of a deployment directory that are
    kept in an in-memory history keyed by the directory's base name, a line
    classifier for log text, the trailing-window view of the history, the
    maintenance report, and the auto-fix stub. The file system, `py_compile`
    and the clock are outside the model: what they report enters as values. */
module Monitor {
  import opened Seqs
  import opened Strings
  import opened Paths

  // ---------------------------------------------------------------- records

  datatype Status = Healthy | Warning | Error

  function StatusName(s: Status): string
  {
    match s
    case Healthy => "healthy"
    case Warning => "warning"
    case Error => "error"
  }

  /** The record a successful health check produces and stores. Timestamps are
      seconds on the monitor's clock. */
  datatype HealthRecord = HealthRecord(
    status: Status,
    deploymentPath: string,
    mainFile: string,
    fileSize: nat,
    syntaxValid: bool,
    timestamp: int)

  /** What `health_check` returns: a record, or an error status with a message. */
  datatype CheckResult = Checked(record: HealthRecord) | CheckFailed(message: string, timestamp: int)

  /** One match of `main.*` in the deployment directory, with its size in bytes. */
  datatype MainFile = MainFile(name: string, size: nat)

  /** What the file system shows of a deployment path: nothing, an exception
      raised inside the `try` block (such as `stat` on a dangling `main.py`
      link), or the `main.*` matches in glob order. A directory that cannot be
      listed has no matches, because `glob` drops the error of its scan. */
  datatype DeploymentView = Missing | Raised(message: string) | Present(mainFiles: seq<MainFile>)

  // ---------------------------------------------------------------- health check

  /** `health_check` as a function of what the file system and `py_compile`
      (given the path of the main file) report: an error for a missing path,
      for an exception raised while looking at the main file, or for no main
      file; otherwise healthy when the syntax check passes and a warning when
      it fails, where only a `.py` main file is checked at all. */
  function Inspect(path: string, view: DeploymentView, pyCompile: string -> bool, now: int): (r: CheckResult)
    ensures view.Missing? ==> r == CheckFailed("Deployment not found", now)
    ensures view.Raised? ==> r == CheckFailed(view.message, now)
    ensures view.Present? && view.mainFiles == [] ==> r == CheckFailed("Main file not found", now)
    ensures r.Checked? <==> view.Present? && view.mainFiles != []
    ensures r.Checked? ==>
      && r.record.status != Error
      && (r.record.status == Healthy <==> r.record.syntaxValid)
      && r.record.deploymentPath == PathText(path)
      && r.record.mainFile == Child(PathText(path), view.mainFiles[0].name)
      && r.record.fileSize == view.mainFiles[0].size
      && r.record.timestamp == now
      && (r.record.syntaxValid <==> Suffix(view.mainFiles[0].name) != ".py" || pyCompile(r.record.mainFile))
  {
    match view
    case Missing => CheckFailed("Deployment not found", now)
    case Raised(message) => CheckFailed(message, now)
    case Present(mainFiles) =>
      if |mainFiles| == 0 then CheckFailed("Main file not found", now)
      else
        var mainFile := mainFiles[0];
        var mainPath := Child(PathText(path), mainFile.name);
        var syntaxOk := if Suffix(mainFile.name) == ".py" then pyCompile(mainPath) else true;
        Checked(HealthRecord(if syntaxOk then Healthy else Warning, PathText(path), mainPath,
                             mainFile.size, syntaxOk, now))
  }

  predicate NoErrors(records: seq<HealthRecord>)
  {
    forall i :: 0 <= i < |records| ==> records[i].status != Error
  }

  /** The history after storing one record under `name`. */
  function Recorded(history: map<string, seq<HealthRecord>>, name: string, record: HealthRecord)
    : map<string, seq<HealthRecord>>
  {
    history[name := (if name in history then history[name] else []) + [record]]
  }

  /** Storing appends exactly one record to the list under `name`, creating it
      when absent, and leaves every other list alone. */
  lemma RecordedAppendsOne(history: map<string, seq<HealthRecord>>, name: string, record: HealthRecord)
    ensures Recorded(history, name, record).Keys == history.Keys + {name}
    ensures name in history ==> Recorded(history, name, record)[name] == history[name] + [record]
    ensures name !in history ==> Recorded(history, name, record)[name] == [record]
    ensures forall k :: k in history && k != name ==> Recorded(history, name, record)[k] == history[k]
  {
  }

  /** Storing a record that is not an error keeps every stored history free of errors. */
  lemma RecordedKeepsNoErrors(history: map<string, seq<HealthRecord>>, name: string, record: HealthRecord)
    requires forall k :: k in history ==> NoErrors(history[k])
    requires record.status != Error
    ensures forall k :: k in Recorded(history, name, record) ==> NoErrors(Recorded(history, name, record)[k])
  {
  }

  /** Two successful checks of the same path leave two records, in order. */
  lemma TwoChecksTwoRecords(path: string, first: HealthRecord, second: HealthRecord)
    ensures Recorded(Recorded(map[], BaseName(path), first), BaseName(path), second)[BaseName(path)]
            == [first, second]
  {
  }

  // ---------------------------------------------------------------- history window

  /** The records at or after `cutoff`, in their stored order. */
  function Window(records: seq<HealthRecord>, cutoff: int): seq<HealthRecord>
  {
    Filter(records, (r: HealthRecord) => r.timestamp >= cutoff)
  }

  /** The window holds exactly the stored records at or after the cutoff. */
  lemma WindowMembers(records: seq<HealthRecord>, cutoff: int)
    ensures forall r :: r in Window(records, cutoff) <==> r in records && r.timestamp >= cutoff
  {
  }

  lemma WindowSnoc(records: seq<HealthRecord>, r: HealthRecord, cutoff: int)
    ensures Window(records + [r], cutoff)
            == if r.timestamp >= cutoff then Window(records, cutoff) + [r] else Window(records, cutoff)
  {
    FilterSnoc(records, r, (r: HealthRecord) => r.timestamp >= cutoff);
  }

  /** A window that reaches back past every record is the whole history. */
  lemma WindowKeepsRecent(records: seq<HealthRecord>, cutoff: int)
    requires forall i :: 0 <= i < |records| ==> records[i].timestamp >= cutoff
    ensures Window(records, cutoff) == records
  {
    FilterAll(records, (r: HealthRecord) => r.timestamp >= cutoff);
  }

  /** `get_health_history` as a function: nothing for an unknown name, else the
      records of the last `hours` hours before `now`. */
  function History(history: map<string, seq<HealthRecord>>, name: string, hours: int, now: int)
    : seq<HealthRecord>
  {
    if name in history then Window(history[name], now - hours * 3600) else []
  }

  /** The two checks of the history test, both inside the 24-hour window, are both returned, in order. */
  lemma TwoRecentChecksInWindow(name: string, first: HealthRecord, second: HealthRecord, now: int)
    requires now - 24 * 3600 <= first.timestamp && now - 24 * 3600 <= second.timestamp
    ensures History(Recorded(Recorded(map[], name, first), name, second), name, 24, now) == [first, second]
  {
    var records := Recorded(Recorded(map[], name, first), name, second)[name];
    assert records == [first, second];
    WindowKeepsRecent(records, now - 24 * 3600);
  }

  // ---------------------------------------------------------------- report

  predicate IsHealthy(h: HealthRecord) { h.status == Healthy }
  predicate IsWarning(h: HealthRecord) { h.status == Warning }
  predicate IsError(h: HealthRecord) { h.status == Error }
  predicate IsIssue(h: HealthRecord) { h.status != Healthy }

  /** The counts of the three statuses add up to the number of records. */
  lemma {:induction false} StatusCountsPartition(records: seq<HealthRecord>)
    ensures |Filter(records, IsHealthy)| + |Filter(records, IsWarning)| + |Filter(records, IsError)|
            == |records|
    decreases |records|
  {
    if |records| > 0 {
      var init, last := records[..|records| - 1], records[|records| - 1];
      assert records == init + [last];
      StatusCountsPartition(init);
      FilterSnoc(init, last, IsHealthy);
      FilterSnoc(init, last, IsWarning);
      FilterSnoc(init, last, IsError);
    }
  }

  /** The issues a report lists: the last five records that are not healthy,
      in their stored order. */
  function RecentIssues(records: seq<HealthRecord>): (issues: seq<HealthRecord>)
    ensures |issues| == Min(5, |Filter(records, IsIssue)|)
    ensures forall i :: 0 <= i < |issues| ==>
              issues[i] == Filter(records, IsIssue)[|Filter(records, IsIssue)| - |issues| + i]
    ensures forall i :: 0 <= i < |issues| ==> issues[i] in records && issues[i].status != Healthy
  {
    LastN(Filter(records, IsIssue), 5)
  }

  /** One line of the "Recent Issues" section. Stored records carry no message,
      so every line says "No details". */
  function IssueLine(h: HealthRecord): string
  {
    "\n- [" + IntToString(h.timestamp) + "] " + StatusName(h.status) + ": No details"
  }

  function IssueLines(issues: seq<HealthRecord>): string
    decreases |issues|
  {
    if |issues| == 0 then "" else IssueLines(issues[..|issues| - 1]) + IssueLine(issues[|issues| - 1])
  }

  /** The "Recent Issues" section after its heading. */
  function IssuesText(issues: seq<HealthRecord>): string
  {
    if |issues| == 0 then "\nNo recent issues detected." else IssueLines(issues)
  }

  lemma NoNewlineInRendering(h: HealthRecord)
    ensures '\n' !in IntToString(h.timestamp) && '\n' !in StatusName(h.status)
  {
    var digits := NatToString(if h.timestamp < 0 then -h.timestamp else h.timestamp);
    assert forall k :: 0 <= k < |digits| ==> IsDigit(digits[k]);
    assert '\n' !in digits;
  }

  /** Each issue line starts with the only newline it holds. */
  lemma IssueLineIsOneLine(h: HealthRecord)
    ensures Occurrences(IssueLine(h), '\n') == 1
  {
    var stamp, status := IntToString(h.timestamp), StatusName(h.status);
    NoNewlineInRendering(h);
    OccurrencesAbsent(stamp, '\n');
    OccurrencesAbsent(status, '\n');
    OccurrencesConcat("\n- [", stamp, '\n');
    OccurrencesConcat("\n- [" + stamp, "] ", '\n');
    OccurrencesConcat("\n- [" + stamp + "] ", status, '\n');
    OccurrencesConcat("\n- [" + stamp + "] " + status, ": No details", '\n');
  }

  /** The section holds exactly one line per listed issue. */
  lemma {:induction false} OneLinePerIssue(issues: seq<HealthRecord>)
    ensures Occurrences(IssueLines(issues), '\n') == |issues|
    decreases |issues|
  {
    if |issues| > 0 {
      var init, last := issues[..|issues| - 1], issues[|issues| - 1];
      OneLinePerIssue(init);
      IssueLineIsOneLine(last);
      OccurrencesConcat(IssueLines(init), IssueLine(last), '\n');
    }
  }

  /** What `generate_report` returns: a fixed sentence for an empty window, or
      the summary counts, the listed issues and the text of their section
      (the percentages and the generation time are not modelled). */
  datatype Report =
    | NoHistory(text: string)
    | Summary(name: string, totalChecks: nat, healthy: nat, warnings: nat, errors: nat,
              recentIssues: seq<HealthRecord>, issuesText: string)

  function Summarize(name: string, records: seq<HealthRecord>): (r: Report)
    ensures records == [] ==> r == NoHistory("No health history available for " + name)
    ensures records != [] ==> r.Summary? && r.totalChecks == |records|
    ensures r.Summary? ==> r.name == name
    ensures r.Summary? ==> r.healthy + r.warnings + r.errors == r.totalChecks
    ensures r.Summary? ==> r.healthy == |Filter(records, IsHealthy)| && r.warnings == |Filter(records, IsWarning)|
                           && r.errors == |Filter(records, IsError)|
    ensures r.Summary? ==> r.recentIssues == RecentIssues(records) && r.issuesText == IssuesText(r.recentIssues)
  {
    if records == [] then NoHistory("No health history available for " + name)
    else
      StatusCountsPartition(records);
      Summary(name, |records|, |Filter(records, IsHealthy)|, |Filter(records, IsWarning)|,
              |Filter(records, IsError)|, RecentIssues(records), IssuesText(RecentIssues(records)))
  }

  /** Over a history that holds no error records, a report counts no errors
      and lists only warnings. */
  lemma ReportOfStoredHistory(name: string, records: seq<HealthRecord>)
    requires NoErrors(records)
    ensures Summarize(name, records).Summary? ==>
      && Summarize(name, records).errors == 0
      && forall i :: 0 <= i < |Summarize(name, records).recentIssues| ==>
           Summarize(name, records).recentIssues[i].status == Warning
  {
    FilterNone(records, IsError);
    var issues := RecentIssues(records);
    forall i | 0 <= i < |issues| ensures issues[i].status == Warning {
      var k :| 0 <= k < |records| && records[k] == issues[i];
    }
  }

  /** A window of a history without errors has no errors. */
  lemma WindowNoErrors(records: seq<HealthRecord>, cutoff: int)
    requires NoErrors(records)
    ensures NoErrors(Window(records, cutoff))
  {
    var w := Window(records, cutoff);
    WindowMembers(records, cutoff);
    forall i | 0 <= i < |w| ensures w[i].status != Error {
      assert w[i] in records;
    }
  }

  // ---------------------------------------------------------------- log analysis

  /** What the file system shows of a log path. */
  datatype LogFile = NoLogFile | UnreadableLog(message: string) | LogText(content: string)

  datatype LogAnalysis =
    | LogFailure(message: string)
    | LogSummary(totalLines: nat, errors: nat, warnings: nat,
                 recentErrors: seq<string>, recentWarnings: seq<string>, timestamp: int)

  predicate IsErrorLine(line: string) { Contains(Upper(line), "ERROR") }
  predicate IsWarningLine(line: string) { Contains(Upper(line), "WARNING") }

  /** `analyze_logs`: split the text on newlines, classify each line as error
      and, independently, as warning, and keep the last ten of each. */
  function AnalyzeLogs(file: LogFile, now: int): (r: LogAnalysis)
    ensures file.NoLogFile? ==> r == LogFailure("Log file not found")
    ensures file.UnreadableLog? ==> r == LogFailure(file.message)
    ensures file.LogText? ==>
      var lines := Split(file.content, '\n');
      && r.LogSummary?
      && r.totalLines == Occurrences(file.content, '\n') + 1
      && r.errors == |Filter(lines, IsErrorLine)| && r.warnings == |Filter(lines, IsWarningLine)|
      && r.recentErrors == LastN(Filter(lines, IsErrorLine), 10)
      && r.recentWarnings == LastN(Filter(lines, IsWarningLine), 10)
      && |r.recentErrors| == Min(10, r.errors) && |r.recentWarnings| == Min(10, r.warnings)
      && (forall l :: l in r.recentErrors ==> l in lines && IsErrorLine(l))
      && (forall l :: l in r.recentWarnings ==> l in lines && IsWarningLine(l))
  {
    match file
    case NoLogFile => LogFailure("Log file not found")
    case UnreadableLog(message) => LogFailure(message)
    case LogText(content) =>
      var lines := Split(content, '\n');
      var errors := Filter(lines, IsErrorLine);
      var warnings := Filter(lines, IsWarningLine);
      SplitCount(content, '\n');
      LogSummary(|lines|, |errors|, |warnings|, LastN(errors, 10), LastN(warnings, 10), now)
  }

  /** A text of one line is counted once in each class it belongs to. */
  lemma SingleLineCounts(line: string, now: int)
    requires '\n' !in line
    ensures AnalyzeLogs(LogText(line), now).errors == (if IsErrorLine(line) then 1 else 0)
    ensures AnalyzeLogs(LogText(line), now).warnings == (if IsWarningLine(line) then 1 else 0)
  {
    SplitWithoutSeparator(line, '\n');
    FilterSnoc([], line, IsErrorLine);
    FilterSnoc([], line, IsWarningLine);
    assert [] + [line] == [line];
  }

  /** A line that mentions both words counts once as an error and once as a warning. */
  lemma LineCountsInBothClasses(now: int)
    ensures AnalyzeLogs(LogText("WARNING: error"), now).errors == 1
    ensures AnalyzeLogs(LogText("WARNING: error"), now).warnings == 1
  {
    var line := "WARNING: error";
    var upper := Upper(line);
    assert upper == "WARNING: ERROR";
    ContainsAt(upper, "WARNING", 0);
    ContainsAt(upper, "ERROR", 9);
    SingleLineCounts(line, now);
  }

  // ---------------------------------------------------------------- auto-fix

  datatype FixResult = FixResult(status: string, message: string, deploymentPath: string, issue: string, timestamp: int)

  // ---------------------------------------------------------------- monitor state

  class MaintenanceMonitor {
    var checkInterval: int
    var healthHistory: map<string, seq<HealthRecord>>

    /** Only successful checks are stored, so no stored record has status error. */
    ghost predicate Valid()
      reads this
    {
      forall name :: name in healthHistory ==> NoErrors(healthHistory[name])
    }

    constructor(checkInterval: int)
      ensures Valid() && this.checkInterval == checkInterval && healthHistory == map[]
    {
      this.checkInterval := checkInterval;
      this.healthHistory := map[];
    }

    /** `health_check`: the check itself is `Inspect`; every error path returns
        before the history is touched, and a successful check appends its record
        under the directory's base name. */
    method HealthCheck(path: string, view: DeploymentView, pyCompile: string -> bool, now: int)
      returns (r: CheckResult)
      requires Valid()
      modifies this
      ensures Valid() && checkInterval == old(checkInterval)
      ensures r == Inspect(path, view, pyCompile, now)
      ensures r.CheckFailed? ==> healthHistory == old(healthHistory)
      ensures r.Checked? ==> healthHistory == Recorded(old(healthHistory), BaseName(path), r.record)
    {
      if view.Missing? {
        return CheckFailed("Deployment not found", now);
      }
      if view.Raised? {
        return CheckFailed(view.message, now);
      }
      var mainFiles := view.mainFiles;
      if |mainFiles| == 0 {
        return CheckFailed("Main file not found", now);
      }
      var mainFile := mainFiles[0];
      var mainPath := Child(PathText(path), mainFile.name);
      var syntaxOk := true;
      if Suffix(mainFile.name) == ".py" {
        syntaxOk := pyCompile(mainPath);
      }
      var record := HealthRecord(if syntaxOk then Healthy else Warning, PathText(path), mainPath,
                                 mainFile.size, syntaxOk, now);
      var name := BaseName(path);
      RecordedKeepsNoErrors(healthHistory, name, record);
      healthHistory := Recorded(healthHistory, name, record);
      r := Checked(record);
    }

    /** `get_health_history`: the stored records of the last `hours` hours, in order. */
    method GetHealthHistory(name: string, hours: int, now: int) returns (history: seq<HealthRecord>)
      ensures name !in healthHistory ==> history == []
      ensures name in healthHistory ==> history == Window(healthHistory[name], now - hours * 3600)
    {
      history := [];
      if name !in healthHistory {
        return;
      }
      var cutoff := now - hours * 3600;
      var records := healthHistory[name];
      var i := 0;
      while i < |records|
        invariant 0 <= i <= |records|
        invariant history == Window(records[..i], cutoff)
      {
        assert records[..i + 1] == records[..i] + [records[i]];
        WindowSnoc(records[..i], records[i], cutoff);
        if records[i].timestamp >= cutoff {
          history := history + [records[i]];
        }
        i := i + 1;
      }
      assert records[..i] == records;
    }

    /** Builds the "Recent Issues" section line by line. */
    method RenderIssues(issues: seq<HealthRecord>) returns (text: string)
      ensures text == IssuesText(issues)
    {
      if |issues| == 0 {
        return "\nNo recent issues detected.";
      }
      text := "";
      var i := 0;
      while i < |issues|
        invariant 0 <= i <= |issues|
        invariant text == IssueLines(issues[..i])
      {
        assert issues[..i + 1][..i] == issues[..i];
        text := text + IssueLine(issues[i]);
        i := i + 1;
      }
      assert issues[..i] == issues;
    }

    /** `generate_report` over the last 24 hours. */
    method GenerateReport(name: string, now: int) returns (report: Report)
      ensures report == Summarize(name, History(healthHistory, name, 24, now))
      ensures Valid() && report.Summary? ==> report.errors == 0
    {
      var history := GetHealthHistory(name, 24, now);
      assert history == History(healthHistory, name, 24, now);
      if |history| == 0 {
        return NoHistory("No health history available for " + name);
      }
      var healthy := |Filter(history, IsHealthy)|;
      var warnings := |Filter(history, IsWarning)|;
      var errors := |Filter(history, IsError)|;
      var issues := LastN(Filter(history, IsIssue), 5);
      var text := RenderIssues(issues);
      report := Summary(name, |history|, healthy, warnings, errors, issues, text);
      assert report == Summarize(name, history);
      if Valid() {
        assert name in healthHistory;
        WindowNoErrors(healthHistory[name], now - 24 * 3600);
        ReportOfStoredHistory(name, history);
      }
    }

    /** `auto_fix`: a deliberate stub that reports "not_implemented" and changes nothing. */
    method AutoFix(deploymentPath: string, issue: string, now: int) returns (r: FixResult)
      ensures r.status == "not_implemented"
      ensures r.deploymentPath == deploymentPath && r.issue == issue && r.timestamp == now
    {
      r := FixResult("not_implemented", "Auto-fix functionality requires GPT integration",
                     deploymentPath, issue, now);
    }
  }
}
