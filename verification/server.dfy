/** The dashboard server's transforms (dashboard/server.js) with their file
    and process I/O taken out: the capped metrics history, the log tail,
    the history tail, the mapping from a child process's exit to a
    service status record, and the metrics fallback. What a read or a
    child process produced is a parameter. */
module Dashboard {
  import opened Options
  import opened Text
  import opened Seqs
  import opened JsonValue
  import opened AlertConfig
  import opened Alerts

  const HistoryLimit: nat := 1000
  const LogLines: nat := 100
  const HistoryPoints: nat := 100

  // ---------------------------------------------------------------------
  // The metrics history file

  /** The entry `logToHistory(metrics, health)` appends. */
  function HistoryRecord(metrics: Json, health: Json, stamp: string): Json {
    JObj(map["timestamp" := JStr(stamp), "metrics" := metrics, "health" := health])
  }

  /** The list `logToHistory` starts from: empty when the file does not
      exist, the parsed array otherwise; `None` when reading or parsing
      raises or the document is not an array (`history.push` then throws). */
  function PriorHistory(file: FileRead): Option<seq<Json>> {
    match file
    case Missing => Some([])
    case Parsed(JArr(items)) => Some(items)
    case _ => None
  }

  /** `logToHistory(metrics, health)`: the list it writes back, or `None`
      when an exception is caught and nothing is written. */
  method LogToHistory(file: FileRead, metrics: Json, health: Json, stamp: string) returns (written: Option<seq<Json>>)
    ensures written.None? <==> PriorHistory(file).None?
    ensures written.Some? ==> written.value == Newest(PriorHistory(file).value + [HistoryRecord(metrics, health, stamp)], HistoryLimit)
  {
    var history: seq<Json> := [];
    match file {
      case Missing =>
      case Parsed(doc) =>
        if !doc.JArr? {
          return None;
        }
        history := doc.items;
      case Unreadable(_) =>
        return None;
    }
    var entry := HistoryRecord(metrics, health, stamp);
    history := history + [entry];
    if |history| > HistoryLimit {
      SliceFromEnd(history, HistoryLimit);
      history := JsSlice(history, -(HistoryLimit as int));
    }
    return Some(history);
  }

  /** The append-and-cap: the new entry is last, the length is one more
      than before up to the cap, and the entries kept before it are the
      newest older ones in their original order. */
  lemma AppendCappedShape<T>(history: seq<T>, entry: T, cap: nat)
    requires 1 <= cap
    ensures var r := Newest(history + [entry], cap);
      && |r| == Min(|history| + 1, cap)
      && r[|r| - 1] == entry
      && r[..|r| - 1] == Newest(history, cap - 1)
  {
    var r := Newest(history + [entry], cap);
    assert r[..|r| - 1] == history[|history| + 1 - |r|..];
  }

  // ---------------------------------------------------------------------
  // The log tail of `/api/logs`

  /** `lines.filter(line => line.trim())`: the lines that are not blank,
      unchanged and in order. */
  function NonBlankLines(lines: seq<string>): (r: seq<string>)
    ensures |r| <= |lines|
    ensures forall i :: 0 <= i < |r| ==> !JsBlank(r[i])
    ensures forall l :: l in r <==> l in lines && !JsBlank(l)
  {
    if lines == [] then []
    else
      var rest := NonBlankLines(lines[..|lines| - 1]);
      var l := lines[|lines| - 1];
      assert lines == lines[..|lines| - 1] + [l];
      if JsBlank(l) then rest else rest + [l]
  }

  /** The filter keeps the order of the log: it distributes over
      concatenation. */
  lemma {:induction false} NonBlankLinesAppend(a: seq<string>, b: seq<string>)
    ensures NonBlankLines(a + b) == NonBlankLines(a) + NonBlankLines(b)
  {
    if b != [] {
      assert (a + b)[..|a + b| - 1] == a + b[..|b| - 1];
      NonBlankLinesAppend(a, b[..|b| - 1]);
    } else {
      assert a + b == a;
    }
  }

  /** `/api/logs`: the last 100 non-blank lines of the log, newest first,
      or the single placeholder line when the log cannot be read. */
  function LogTail(content: Option<string>): (r: seq<string>)
    ensures content.None? ==> r == ["No logs available"]
    ensures content.Some? ==> |r| <= LogLines
  {
    match content
    case None => ["No logs available"]
    case Some(text) => Reverse(Newest(NonBlankLines(Split(text, '\n')), LogLines))
  }

  lemma LogTailShape(text: string)
    ensures var lines := NonBlankLines(Split(text, '\n'));
      var r := LogTail(Some(text));
      && |r| == Min(LogLines, |lines|)
      && (forall i :: 0 <= i < |r| ==> r[i] == lines[|lines| - 1 - i])
      && (forall i :: 0 <= i < |r| ==> !JsBlank(r[i]) && '\n' !in r[i])
  {
    var lines := NonBlankLines(Split(text, '\n'));
    LinesWithoutSeparator(text, lines);
    TailOfLines(lines, LogTail(Some(text)));
  }

  lemma TailOfLines(lines: seq<string>, r: seq<string>)
    requires r == Reverse(Newest(lines, LogLines))
    requires forall j :: 0 <= j < |lines| ==> !JsBlank(lines[j]) && '\n' !in lines[j]
    ensures |r| == Min(LogLines, |lines|)
    ensures forall i :: 0 <= i < |r| ==> r[i] == lines[|lines| - 1 - i]
    ensures forall i :: 0 <= i < |r| ==> !JsBlank(r[i]) && '\n' !in r[i]
  {
    NewestReversed(lines, LogLines);
    forall i | 0 <= i < |r| ensures !JsBlank(r[i]) && '\n' !in r[i] {
      var j := |lines| - 1 - i;
      assert 0 <= j < |lines| && r[i] == lines[j];
    }
  }

  /** The newest `n` elements, newest first. */
  lemma NewestReversed<T>(s: seq<T>, n: nat)
    ensures var r := Reverse(Newest(s, n));
      && |r| == Min(n, |s|)
      && forall i :: 0 <= i < |r| ==> r[i] == s[|s| - 1 - i]
  {
    var tail := Newest(s, n);
    var r := Reverse(tail);
    forall i | 0 <= i < |r| ensures r[i] == s[|s| - 1 - i] {
      assert r[i] == tail[|tail| - 1 - i];
    }
  }

  lemma LinesWithoutSeparator(text: string, lines: seq<string>)
    requires lines == NonBlankLines(Split(text, '\n'))
    ensures forall j :: 0 <= j < |lines| ==> !JsBlank(lines[j]) && '\n' !in lines[j]
  {
    PiecesWithoutSeparator(text, '\n');
    forall j | 0 <= j < |lines| ensures '\n' !in lines[j] {
      assert lines[j] in lines;
    }
  }

  /** No piece of a split contains the separator. */
  lemma PiecesWithoutSeparator(text: string, sep: char)
    ensures forall p :: p in Split(text, sep) ==> sep !in p
  {
    var pieces := Split(text, sep);
    SplitPiecesHaveNoSeparator(text, sep);
    forall p | p in pieces ensures sep !in p {
      var k :| 0 <= k < |pieces| && pieces[k] == p;
    }
  }

  /** Appending lines to the log moves them to the front of the tail. */
  lemma {:induction false} LogTailNewestFirst(text: string, line: string)
    requires !JsBlank(line) && '\n' !in line
    ensures LogTail(Some(text + "\n" + line)) != [] && LogTail(Some(text + "\n" + line))[0] == line
  {
    var parts := Split(text, '\n');
    JoinSplit(text, '\n');
    SplitOfPiece(line, '\n');
    assert forall i :: 0 <= i < |line| ==> line[i] != '\n';
    SplitAppendPiece(text, '\n', line);
    NonBlankLinesAppend(parts, [line]);
    assert NonBlankLines([line]) == [line] by {
      assert [line][..0] == [];
    }
    LogTailShape(text + "\n" + line);
  }

  // ---------------------------------------------------------------------
  // `/api/history`

  /** `/api/history`: the parsed document's `slice(-100)`. An array gives
      its last 100 points and a string its last 100 characters; a document
      without `slice` throws, as does a failed read, and the reply is `[]`. */
  function HistoryEndpoint(file: FileRead): (r: Json)
    ensures file.Parsed? && file.doc.JArr? ==>
      r == JArr(Newest(file.doc.items, HistoryPoints)) && |r.items| == Min(HistoryPoints, |file.doc.items|)
    ensures file.Parsed? && file.doc.JStr? ==> r == JStr(Newest(file.doc.s, HistoryPoints))
    ensures !(file.Parsed? && (file.doc.JArr? || file.doc.JStr?)) ==> r == JArr([])
  {
    match file
    case Parsed(JArr(items)) =>
      SliceFromEnd(items, HistoryPoints);
      JArr(JsSlice(items, -(HistoryPoints as int)))
    case Parsed(JStr(s)) =>
      SliceFromEnd(s, HistoryPoints);
      JStr(JsSlice(s, -(HistoryPoints as int)))
    case _ => JArr([])
  }

  /** What the history file written by `logToHistory` serves back: the
      newest 100 entries, the one just logged last. */
  lemma HistoryServesNewest(prior: seq<Json>, entry: Json)
    ensures var served := HistoryEndpoint(Parsed(JArr(Newest(prior + [entry], HistoryLimit))));
      && served.JArr?
      && served.items == Newest(prior + [entry], HistoryPoints)
      && served.items[|served.items| - 1] == entry
  {
    var all := prior + [entry];
    var kept := Newest(all, HistoryLimit);
    assert Newest(kept, HistoryPoints) == Newest(all, HistoryPoints);
  }

  // ---------------------------------------------------------------------
  // Service status records

  /** How a child process ended, as the first of its events to fire:
      `error` when it could not be spawned, otherwise `close` with the exit
      code (`None` when a signal ended it) and everything it wrote to
      standard output. */
  datatype ProcessOutcome = SpawnFailed | Closed(code: Option<int>, output: string)

  predicate ExitedCleanly(outcome: ProcessOutcome) {
    outcome.Closed? && outcome.code == Some(0)
  }

  /** `output.trim().split('\n').filter(Boolean)`. */
  function OutputLines(output: string): (r: seq<string>)
    ensures forall i :: 0 <= i < |r| ==> r[i] != "" && '\n' !in r[i]
  {
    var pieces := Split(Trim(output), '\n');
    PiecesWithoutSeparator(Trim(output), '\n');
    NonEmpty(pieces)
  }

  /** `filter(Boolean)` on strings: the non-empty ones, in order. */
  function NonEmpty(pieces: seq<string>): (r: seq<string>)
    ensures |r| <= |pieces|
    ensures forall i :: 0 <= i < |r| ==> r[i] != "" && r[i] in pieces
    ensures forall s :: s in pieces && s != "" ==> s in r
  {
    if pieces == [] then []
    else
      var rest := NonEmpty(pieces[1..]);
      assert pieces == [pieces[0]] + pieces[1..];
      if pieces[0] == "" then rest else [pieces[0]] + rest
  }

  /** Output is blank exactly when it has no lines. */
  lemma OutputLinesEmpty(output: string)
    ensures OutputLines(output) == [] <==> JsBlank(output)
  {
    var t := Trim(output);
    TrimShape(output);
    var pieces := Split(t, '\n');
    if t != [] {
      assert JsSpace('\n');
      assert t[0] != '\n';
      assert pieces[0] != "" by {
        assert pieces[0] == [t[0]] + Split(t[1..], '\n')[0];
      }
      assert pieces[0] in OutputLines(output);
    }
  }

  /** A name as `docker ps` or `pgrep` prints it: non-empty, no whitespace. */
  predicate Word(w: string) {
    w != "" && forall i :: 0 <= i < |w| ==> !JsSpace(w[i])
  }

  /** A program printing one word per line is read back word for word. */
  lemma {:induction false} OutputLinesRoundTrip(words: seq<string>)
    requires 1 <= |words|
    requires forall k :: 0 <= k < |words| ==> Word(words[k])
    ensures OutputLines(Join(words, '\n') + "\n") == words
  {
    TrimJoinedLines(words);
    forall k, i | 0 <= k < |words| && 0 <= i < |words[k]| ensures words[k][i] != '\n' {
      assert JsSpace('\n');
    }
    SplitJoin(words, '\n');
    NonEmptyOfNonEmpty(words);
  }

  /** Trimming output that ends in a newline after the last word. */
  lemma TrimJoinedLines(words: seq<string>)
    requires 1 <= |words|
    requires forall k :: 0 <= k < |words| ==> Word(words[k])
    ensures Trim(Join(words, '\n') + "\n") == Join(words, '\n')
  {
    JoinEnds(words);
    TrimLineEnd(Join(words, '\n'));
  }

  lemma TrimLineEnd(body: string)
    requires body != [] && !JsSpace(body[0]) && !JsSpace(body[|body| - 1])
    ensures Trim(body + "\n") == body
  {
    assert TrimStart(body + "\n") == body + "\n";
    assert (body + "\n")[..|body|] == body;
    assert TrimEnd(body + "\n") == TrimEnd(body);
  }

  lemma {:induction false} NonEmptyOfNonEmpty(pieces: seq<string>)
    requires forall k :: 0 <= k < |pieces| ==> pieces[k] != ""
    ensures NonEmpty(pieces) == pieces
  {
    if pieces != [] {
      NonEmptyOfNonEmpty(pieces[1..]);
    }
  }

  /** A join of words starts with the first word's first character and
      ends with the last word's last character. */
  lemma {:induction false} JoinEnds(words: seq<string>)
    requires 1 <= |words|
    requires forall k :: 0 <= k < |words| ==> Word(words[k])
    ensures var j := Join(words, '\n'); j != [] && !JsSpace(j[0]) && !JsSpace(j[|j| - 1])
  {
    if |words| > 1 {
      JoinEnds(words[1..]);
    }
  }

  /** The record `checkDocker()` resolves to. */
  datatype DockerHealth = DockerHealth(status: string, containers: seq<string>)

  function CheckDocker(outcome: ProcessOutcome): (r: DockerHealth)
    ensures r.status == "running" <==> ExitedCleanly(outcome)
    ensures r.status == "error" <==> outcome.SpawnFailed?
    ensures outcome.SpawnFailed? ==> r.containers == []
    ensures outcome.Closed? ==> r.containers == OutputLines(outcome.output)
    ensures r.status in {"running", "stopped", "error"}
  {
    match outcome
    case SpawnFailed => DockerHealth("error", [])
    case Closed(code, output) => DockerHealth(if code == Some(0) then "running" else "stopped", OutputLines(output))
  }

  /** The record `checkCloudflare()` resolves to. */
  datatype CloudflareHealth = CloudflareHealth(status: string, tunnels: nat)

  function CheckCloudflare(outcome: ProcessOutcome): (r: CloudflareHealth)
    ensures r.status == "running" <==> ExitedCleanly(outcome)
    ensures r.status == "error" <==> outcome.SpawnFailed?
    ensures outcome.SpawnFailed? ==> r.tunnels == 0
    ensures outcome.Closed? ==> r.tunnels == |OutputLines(outcome.output)|
    ensures r.status in {"running", "stopped", "error"}
  {
    match outcome
    case SpawnFailed => CloudflareHealth("error", 0)
    case Closed(code, output) => CloudflareHealth(if code == Some(0) then "running" else "stopped", |OutputLines(output)|)
  }

  /** The tunnel count is the number of lines `pgrep` printed: zero exactly
      when it printed nothing but whitespace, and one per process id. */
  lemma TunnelCount(code: Option<int>, output: string, pids: seq<string>)
    ensures CheckCloudflare(Closed(code, output)).tunnels == 0 <==> JsBlank(output)
    ensures 1 <= |pids| && (forall k :: 0 <= k < |pids| ==> Word(pids[k]))
      ==> CheckCloudflare(Closed(code, Join(pids, '\n') + "\n")).tunnels == |pids|
  {
    OutputLinesEmpty(output);
    if 1 <= |pids| && forall k :: 0 <= k < |pids| ==> Word(pids[k]) {
      OutputLinesRoundTrip(pids);
    }
  }

  /** The containers listed are the names `docker ps` printed. */
  lemma ContainersListed(code: Option<int>, names: seq<string>)
    requires 1 <= |names| && forall k :: 0 <= k < |names| ==> Word(names[k])
    ensures CheckDocker(Closed(code, Join(names, '\n') + "\n")).containers == names
  {
    OutputLinesRoundTrip(names);
  }

  /** The record `checkTailscale()` resolves to. */
  datatype TailscaleHealth = TailscaleHealth(status: string, ip: Json)

  /** `status.Self?.TailscaleIPs?.[0] || 'unknown'`. */
  function TailscaleIp(status: Json): (ip: Json)
    ensures Truthy(Some(ip))
    ensures var first := OptionalFirst(OptionalProperty(Property(status, "Self"), "TailscaleIPs"));
      && (Truthy(first) ==> ip == first.value)
      && (!Truthy(first) ==> ip == JStr("unknown"))
  {
    var first := OptionalFirst(OptionalProperty(Property(status, "Self"), "TailscaleIPs"));
    if Truthy(first) then first.value else JStr("unknown")
  }

  /** `checkTailscale()`, given the outcome of `tailscale status --json`
      and the result of parsing its output (`None` when `JSON.parse`
      throws). Reading `BackendState` of a null document throws too. */
  function CheckTailscale(outcome: ProcessOutcome, parsed: Option<Json>): (r: TailscaleHealth)
    ensures r.status == "running" <==>
      ExitedCleanly(outcome) && parsed.Some? && Property(parsed.value, "BackendState") == Some(JStr("Running"))
    ensures r.status == "error" <==> outcome.SpawnFailed? || (ExitedCleanly(outcome) && (parsed.None? || parsed == Some(JNull)))
    ensures r.status in {"running", "stopped", "error"}
    ensures !(ExitedCleanly(outcome) && parsed.Some?) ==> r.ip == JStr("unknown")
    ensures ExitedCleanly(outcome) && parsed.Some? && !parsed.value.JNull? ==> r.ip == TailscaleIp(parsed.value)
    ensures parsed == Some(JNull) ==> r.ip == JStr("unknown")
  {
    match outcome
    case SpawnFailed => TailscaleHealth("error", JStr("unknown"))
    case Closed(code, _) =>
      if code != Some(0) then TailscaleHealth("stopped", JStr("unknown"))
      else
        match parsed
        case None => TailscaleHealth("error", JStr("unknown"))
        case Some(JNull) => TailscaleHealth("error", JStr("unknown"))
        case Some(status) =>
          TailscaleHealth(if Property(status, "BackendState") == Some(JStr("Running")) then "running" else "stopped",
                          TailscaleIp(status))
  }

  /** The address reported is the first of the node's own addresses. */
  lemma TailscaleReportsFirstAddress(output: string, state: string, ips: seq<string>)
    requires 1 <= |ips| && ips[0] != ""
    ensures var doc := JObj(map["BackendState" := JStr(state),
                                "Self" := JObj(map["TailscaleIPs" := JArr(seq(|ips|, i requires 0 <= i < |ips| => JStr(ips[i])))])]);
      CheckTailscale(Closed(Some(0), output), Some(doc)) == TailscaleHealth(if state == "Running" then "running" else "stopped", JStr(ips[0]))
  {
  }

  // ---------------------------------------------------------------------
  // Metrics

  /** The record served when the metrics file cannot be read or parsed. */
  function FallbackMetrics(stamp: string): Json {
    JObj(map["status" := JStr("unknown"), "last_sync" := JStr("Never"),
             "storage_used_gb" := JNum(0.0), "timestamp" := JStr(stamp)])
  }

  /** `getMetrics()` and `/api/metrics`: the parsed metrics file, or the
      fallback record. */
  function GetMetrics(file: FileRead, stamp: string): (m: Json)
    ensures file.Parsed? ==> m == file.doc
    ensures !file.Parsed? ==> m == FallbackMetrics(stamp)
  {
    if file.Parsed? then file.doc else FallbackMetrics(stamp)
  }

  /** The fallback record reads as 0 GB used and an unknown backup state:
      with a positive storage threshold it never raises the storage or the
      backup alert, and it never makes `checkAlerts` throw. */
  lemma FallbackRaisesNoMetricsAlert(config: Config, last: map<string, int>, health: Health, stamp: string, now: int)
    requires var t := ToNumber(Setting(config, "storage_full", "threshold")); t.Some? && t.value > 0.0
    ensures var s := Check(config, last, health, FallbackMetrics(stamp), now);
      && !s.threw
      && "storage_full" !in Kinds(s.emitted)
      && "backup_failed" !in Kinds(s.emitted)
  {
    var m := FallbackMetrics(stamp);
    assert StoragePercentage(m) == Some(0.0);
    CheckDecides(config, last, health, m, now, "storage_full");
    CheckDecides(config, last, health, m, now, "backup_failed");
  }

  /** `/api/alerts`: the active alerts and the last 20 history entries. */
  function AlertsEndpoint(system: AlertSystem): (r: (seq<Alert>, seq<HistoryEntry>))
    reads system
    ensures forall a :: a in r.0 <==> a in system.alerts && !a.acknowledged
    ensures r.0 == Unacknowledged(system.alerts)
    ensures |r.1| == Min(20, |system.alertHistory|) && r.1 == system.alertHistory[|system.alertHistory| - |r.1|..]
  {
    (system.GetActiveAlerts(), system.GetAlertHistory(20))
  }
}
