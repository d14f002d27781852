/** The script's top level: run the build command, find the build id in the CLI's
    output, wait for the build, and append the result to the CI environment file. */
module BuildReport {
  import opened Wrappers
  import opened Text
  import opened CommandBuilder
  import opened StatusPoller

  // ---------------------------------------------------------------------------
  // Finding the build id: `Build ID \x1b\[4m([a-fA-F0-9\-]+)\x1b\[0m`

  /** The text in front of the id: `Build ID `, then ESC `[4m` (underline on). */
  const IdPrefix: string := "Build ID " + ['\U{1B}'] + "[4m"

  /** The text behind the id: ESC `[0m` (attributes off). */
  const IdSuffix: string := ['\U{1B}'] + "[0m"

  /** The character class `[a-fA-F0-9\-]`. */
  predicate IdChar(c: char)
  {
    '0' <= c <= '9' || 'a' <= c <= 'f' || 'A' <= c <= 'F' || c == '-'
  }

  /** The pattern matches `text` at position `p`, with `id` as its group. Since the
      escape character that opens the suffix is not in the class, the group can end
      only where the run of class characters ends, so the group is unique. */
  predicate IsMatchAt(text: string, p: nat, id: string)
  {
    && p + |IdPrefix| + |id| + |IdSuffix| <= |text|
    && text[p..p + |IdPrefix|] == IdPrefix
    && |id| >= 1
    && (forall i :: 0 <= i < |id| ==> IdChar(id[i]))
    && text[p + |IdPrefix|..p + |IdPrefix| + |id|] == id
    && text[p + |IdPrefix| + |id|..p + |IdPrefix| + |id| + |IdSuffix|] == IdSuffix
  }

  /** The length of the run of class characters that starts at `from`. */
  function RunLength(text: string, from: nat): (n: nat)
    requires from <= |text|
    ensures from + n <= |text|
    ensures forall i :: from <= i < from + n ==> IdChar(text[i])
    ensures from + n == |text| || !IdChar(text[from + n])
    decreases |text| - from
  {
    if from < |text| && IdChar(text[from]) then 1 + RunLength(text, from + 1) else 0
  }

  /** Tries the pattern at position `p`: the prefix, the longest run of class
      characters, then the suffix. */
  function MatchAt(text: string, p: nat): Option<string>
  {
    if p + |IdPrefix| <= |text| && text[p..p + |IdPrefix|] == IdPrefix then
      var start := p + |IdPrefix|;
      var n := RunLength(text, start);
      if n >= 1 && start + n + |IdSuffix| <= |text| && text[start + n..start + n + |IdSuffix|] == IdSuffix
      then Some(text[start..start + n])
      else None
    else None
  }

  /** Trying the pattern at `p` finds `id` exactly when the pattern matches there with `id`. */
  lemma MatchAtIff(text: string, p: nat, id: string)
    ensures MatchAt(text, p) == Some(id) <==> IsMatchAt(text, p, id)
  {
    var start := p + |IdPrefix|;
    if IsMatchAt(text, p, id) {
      var n := RunLength(text, start);
      assert text[start + |id|] == '\U{1B}' by {
        assert text[start + |id|] == text[start + |id|..start + |id| + |IdSuffix|][0];
      }
      forall i | start <= i < start + |id| ensures IdChar(text[i]) {
        assert text[i] == text[start..start + |id|][i - start];
      }
      assert n == |id|;
    }
    if MatchAt(text, p) == Some(id) {
      var n := RunLength(text, start);
      assert |id| == n;
      forall i | 0 <= i < |id| ensures IdChar(id[i]) {
        assert id[i] == text[start + i];
      }
    }
  }

  /** The leftmost position from `from` on where the pattern matches, and its group. */
  function SearchFrom(text: string, from: nat): Option<(nat, string)>
    requires from <= |text|
    decreases |text| - from
  {
    match MatchAt(text, from)
    case Some(id) => Some((from, id))
    case None => if from == |text| then None else SearchFrom(text, from + 1)
  }

  /** What the search finds is a match, and the pattern matches nowhere before it. */
  lemma {:induction false} SearchFromFound(text: string, from: nat)
    requires from <= |text| && SearchFrom(text, from).Some?
    ensures from <= SearchFrom(text, from).value.0
    ensures MatchAt(text, SearchFrom(text, from).value.0) == Some(SearchFrom(text, from).value.1)
    ensures forall q :: from <= q < SearchFrom(text, from).value.0 ==> MatchAt(text, q) == None
    decreases |text| - from
  {
    if MatchAt(text, from).None? {
      SearchFromFound(text, from + 1);
    }
  }

  /** When the search finds nothing, the pattern matches nowhere from `from` on. */
  lemma {:induction false} SearchFromMissing(text: string, from: nat)
    requires from <= |text| && SearchFrom(text, from).None?
    ensures forall q :: from <= q <= |text| ==> MatchAt(text, q) == None
    decreases |text| - from
  {
    if from < |text| {
      SearchFromMissing(text, from + 1);
    }
  }

  /** The search either finds a match with nothing before it, or there is none. */
  lemma SearchFromFinds(text: string, from: nat)
    requires from <= |text|
    ensures var r := SearchFrom(text, from);
      r.Some? ==> from <= r.value.0 && MatchAt(text, r.value.0) == Some(r.value.1)
                  && forall q :: from <= q < r.value.0 ==> MatchAt(text, q) == None
    ensures SearchFrom(text, from).None? ==> forall q :: from <= q <= |text| ==> MatchAt(text, q) == None
  {
    if SearchFrom(text, from).Some? {
      SearchFromFound(text, from);
    } else {
      SearchFromMissing(text, from);
    }
  }

  /** `build_id_pattern.search(stdout)`, then `match.group(1).strip()`; the group is
      made of class characters only, so stripping leaves it as it is. */
  function ExtractBuildId(stdout: string): Option<string>
  {
    match SearchFrom(stdout, 0)
    case Some((_, id)) => Some(id)
    case None => None
  }

  /** The id found is the group of the leftmost match of the pattern. */
  lemma ExtractLeftmost(stdout: string, id: string)
    ensures ExtractBuildId(stdout) == Some(id) <==>
      exists p: nat :: IsMatchAt(stdout, p, id)
                    && forall q: nat, other: string :: q < p ==> !IsMatchAt(stdout, q, other)
  {
    var r := SearchFrom(stdout, 0);
    SearchFromFinds(stdout, 0);
    if r.Some? {
      var p0, found := r.value.0, r.value.1;
      MatchAtIff(stdout, p0, found);
      forall q: nat, other: string | q < p0 ensures !IsMatchAt(stdout, q, other) {
        MatchAtIff(stdout, q, other);
      }
      forall p: nat | IsMatchAt(stdout, p, id) && forall q: nat, other: string :: q < p ==> !IsMatchAt(stdout, q, other)
        ensures p == p0 && found == id
      {
        MatchAtIff(stdout, p, id);
      }
    } else {
      forall p: nat | p <= |stdout| ensures !IsMatchAt(stdout, p, id) {
        MatchAtIff(stdout, p, id);
      }
    }
  }

  /** No id is found exactly when the pattern matches nowhere. */
  lemma ExtractNoneIff(stdout: string)
    ensures ExtractBuildId(stdout) == None <==> forall p: nat, id: string :: !IsMatchAt(stdout, p, id)
  {
    var r := SearchFrom(stdout, 0);
    SearchFromFinds(stdout, 0);
    if r.Some? {
      MatchAtIff(stdout, r.value.0, r.value.1);
    } else {
      forall p: nat, id: string ensures !IsMatchAt(stdout, p, id) {
        if p <= |stdout| {
          MatchAtIff(stdout, p, id);
        }
      }
    }
  }

  /** An id found is never empty and is made of class characters. */
  lemma ExtractedIdShape(stdout: string)
    requires ExtractBuildId(stdout).Some?
    ensures |ExtractBuildId(stdout).value| >= 1
    ensures forall i :: 0 <= i < |ExtractBuildId(stdout).value| ==> IdChar(ExtractBuildId(stdout).value[i])
  {
    var r := SearchFrom(stdout, 0);
    SearchFromFinds(stdout, 0);
    MatchAtIff(stdout, r.value.0, r.value.1);
  }

  // ---------------------------------------------------------------------------
  // The CI environment file

  /** A `key=value` line. */
  function Line(key: string, value: string): string
  {
    key + "=" + value
  }

  /** The lines the script appends for the id it extracted and the poll's outcome:
      id, status and metrics on success; id and status on failure; the extracted id
      and the status TIMEOUT on a timeout, whether the poll's own or the client's;
      nothing on any other error. */
  function ResultLines(extractedId: string, outcome: Outcome): seq<string>
  {
    match outcome
    case Succeeded(b) =>
      [Line("build-id", b.buildId), Line("build-status", b.status.name), Line("build-metrics", b.metrics)]
    case Failed(b) => [Line("build-id", b.buildId), Line("build-status", b.status.name)]
    case TimedOut => TimeoutLines(extractedId)
    case Raised(_, isTimeoutError) => if isTimeoutError then TimeoutLines(extractedId) else []
  }

  /** The `except TimeoutError` branch: written only when a build id is known. */
  function TimeoutLines(extractedId: string): seq<string>
  {
    if extractedId != "" then [Line("build-id", extractedId), Line("build-status", "TIMEOUT")] else []
  }

  /** Reads a line back: the key is everything before the first `=`, the value
      everything after it. */
  function ParseLine(line: string): (string, string)
  {
    if line == [] then ("", "")
    else if line[0] == '=' then ("", line[1..])
    else
      var (key, value) := ParseLine(line[1..]);
      ([line[0]] + key, value)
  }

  /** A key without `=` and any value survive a round trip through a line. */
  lemma {:induction false} ParseLineRoundTrip(key: string, value: string)
    requires '=' !in key
    ensures ParseLine(Line(key, value)) == (key, value)
  {
    if key == [] {
      assert Line(key, value) == "=" + value;
      assert ("=" + value)[1..] == value;
    } else {
      assert Line(key, value)[1..] == Line(key[1..], value);
      ParseLineRoundTrip(key[1..], value);
      assert [key[0]] + key[1..] == key;
    }
  }

  /** The text appended to the file: each line ends with a newline. */
  function EnvText(lines: seq<string>): string
  {
    if lines == [] then "" else lines[0] + "\n" + EnvText(lines[1..])
  }

  lemma {:induction false} EnvTextIsJoin(lines: seq<string>)
    ensures EnvText(lines) == Join(lines + [""], '\n')
  {
    if lines != [] {
      EnvTextIsJoin(lines[1..]);
      assert (lines + [""])[1..] == lines[1..] + [""];
      assert |lines + [""]| >= 2;
    }
  }

  /** Lines without newlines can be read back from the appended text: one per
      newline, and nothing after the last one. */
  lemma EnvTextRoundTrip(lines: seq<string>)
    requires forall i :: 0 <= i < |lines| ==> '\n' !in lines[i]
    ensures Split(EnvText(lines), '\n') == lines + [""]
  {
    EnvTextIsJoin(lines);
    SplitJoin(lines + [""], '\n');
  }

  /** The keys and values written for each outcome. */
  lemma ResultEntries(extractedId: string, outcome: Outcome)
    ensures forall i :: 0 <= i < |ResultLines(extractedId, outcome)| ==>
      ParseLine(ResultLines(extractedId, outcome)[i]) == Entries(extractedId, outcome)[i]
    ensures |ResultLines(extractedId, outcome)| == |Entries(extractedId, outcome)|
  {
    ParseLineRoundTrip("build-id", extractedId);
    ParseLineRoundTrip("build-status", "TIMEOUT");
    match outcome
    case Succeeded(b) =>
      ParseLineRoundTrip("build-id", b.buildId);
      ParseLineRoundTrip("build-status", b.status.name);
      ParseLineRoundTrip("build-metrics", b.metrics);
    case Failed(b) =>
      ParseLineRoundTrip("build-id", b.buildId);
      ParseLineRoundTrip("build-status", b.status.name);
    case TimedOut =>
    case Raised(_, _) =>
  }

  /** The key/value pairs each outcome is reported with. */
  function Entries(extractedId: string, outcome: Outcome): seq<(string, string)>
  {
    match outcome
    case Succeeded(b) => [("build-id", b.buildId), ("build-status", b.status.name), ("build-metrics", b.metrics)]
    case Failed(b) => [("build-id", b.buildId), ("build-status", b.status.name)]
    case TimedOut => if extractedId != "" then [("build-id", extractedId), ("build-status", "TIMEOUT")] else []
    case Raised(_, isTimeoutError) =>
      if isTimeoutError && extractedId != "" then [("build-id", extractedId), ("build-status", "TIMEOUT")] else []
  }

  /** Metrics are written exactly when the build succeeded. */
  lemma MetricsOnlyOnSuccess(extractedId: string, outcome: Outcome)
    ensures (exists i :: 0 <= i < |ResultLines(extractedId, outcome)|
                       && ParseLine(ResultLines(extractedId, outcome)[i]).0 == "build-metrics")
        <==> outcome.Succeeded?
  {
    ResultEntries(extractedId, outcome);
    if outcome.Succeeded? {
      assert ParseLine(ResultLines(extractedId, outcome)[2]).0 == "build-metrics";
    }
  }

  // ---------------------------------------------------------------------------
  // The whole step

  /** What the step leaves behind: the command it ran, the lines it appended and
      its exit code. */
  datatype StepResult = StepResult(command: string, lines: seq<string>, exitCode: int)

  /** The step as a function of the configuration, the CLI's exit code and output,
      the timeout, the clock and the client's replies. */
  function Step(cfg: Config, returnCode: int, stdout: string, timeout: int,
                elapsed: seq<int>, replies: seq<Reply>): StepResult
    requires Environment(Limit(timeout), elapsed, replies)
  {
    var command := CommandLine(cfg);
    if returnCode != 0 then StepResult(command, [], 1)
    else match ExtractBuildId(stdout)
      case None => StepResult(command, [], 1)
      case Some(id) =>
        var outcome := Poll(Limit(timeout), elapsed, replies);
        StepResult(command, ResultLines(id, outcome), if outcome.Succeeded? then 0 else 1)
  }

  /** The `__main__` block. */
  method RegisterBuild(cfg: Config, returnCode: int, stdout: string, timeout: int,
                       elapsed: seq<int>, replies: seq<Reply>)
    returns (command: string, lines: seq<string>, exitCode: int)
    requires Environment(Limit(timeout), elapsed, replies)
    ensures StepResult(command, lines, exitCode) == Step(cfg, returnCode, stdout, timeout, elapsed, replies)
  {
    command := BuildCommand(cfg);
    lines := [];
    if returnCode != 0 {
      exitCode := 1;
      return;
    }
    var found := ExtractBuildId(stdout);
    if found.None? {
      exitCode := 1;
      return;
    }
    var buildId := found.value;
    var outcome, _ := WaitForBuild(buildId, timeout, elapsed, replies);
    match outcome {
      case Succeeded(b) =>
        lines := lines + [Line("build-id", b.buildId), Line("build-status", b.status.name)];
        lines := lines + [Line("build-metrics", b.metrics)];
        exitCode := 0;
      case Failed(b) =>
        lines := lines + [Line("build-id", b.buildId), Line("build-status", b.status.name)];
        exitCode := 1;
      case TimedOut =>
        if buildId != "" {
          lines := lines + [Line("build-id", buildId), Line("build-status", "TIMEOUT")];
        }
        exitCode := 1;
      case Raised(_, isTimeoutError) =>
        if isTimeoutError && buildId != "" {
          lines := lines + [Line("build-id", buildId), Line("build-status", "TIMEOUT")];
        }
        exitCode := 1;
    }
  }

  /** The step exits with 0 exactly when the CLI succeeded, its output named a
      build, and that build was reported SUCCESSFUL in time; otherwise with 1. */
  lemma ExitCodeIff(cfg: Config, returnCode: int, stdout: string, timeout: int,
                    elapsed: seq<int>, replies: seq<Reply>)
    requires Environment(Limit(timeout), elapsed, replies)
    ensures Step(cfg, returnCode, stdout, timeout, elapsed, replies).exitCode in {0, 1}
    ensures Step(cfg, returnCode, stdout, timeout, elapsed, replies).exitCode == 0 <==>
      returnCode == 0 && ExtractBuildId(stdout).Some? && Poll(Limit(timeout), elapsed, replies).Succeeded?
  {
  }

  /** A failed command or an output without a build id writes nothing; a build
      that is waited for is reported with its id and status, except when the
      client raised an error other than a timeout. */
  lemma StatusReported(cfg: Config, returnCode: int, stdout: string, timeout: int,
                       elapsed: seq<int>, replies: seq<Reply>)
    requires Environment(Limit(timeout), elapsed, replies)
    ensures returnCode != 0 || ExtractBuildId(stdout).None? ==>
      Step(cfg, returnCode, stdout, timeout, elapsed, replies).lines == []
    ensures returnCode == 0 && ExtractBuildId(stdout).Some? &&
            !(Poll(Limit(timeout), elapsed, replies).Raised? && !Poll(Limit(timeout), elapsed, replies).isTimeoutError) ==>
      |Step(cfg, returnCode, stdout, timeout, elapsed, replies).lines| >= 2
      && ParseLine(Step(cfg, returnCode, stdout, timeout, elapsed, replies).lines[0]).0 == "build-id"
      && ParseLine(Step(cfg, returnCode, stdout, timeout, elapsed, replies).lines[1]).0 == "build-status"
  {
    if returnCode == 0 && ExtractBuildId(stdout).Some? {
      ExtractedIdShape(stdout);
      var id := ExtractBuildId(stdout).value;
      ResultEntries(id, Poll(Limit(timeout), elapsed, replies));
    }
  }

  /** A successful build of `abc-123` with metrics `{"acc":0.9}` is reported with
      exactly three lines. */
  lemma SampleSuccessLines()
    ensures ResultLines("abc-123", Succeeded(Build("abc-123", SUCCESSFUL, "{\"acc\":0.9}")))
         == ["build-id=abc-123", "build-status=SUCCESSFUL", "build-metrics={\"acc\":0.9}"]
  {
    assert Line("build-id", "abc-123") == "build-id=abc-123";
    assert Line("build-status", "SUCCESSFUL") == "build-status=SUCCESSFUL";
    assert Line("build-metrics", "{\"acc\":0.9}") == "build-metrics={\"acc\":0.9}";
  }

  /** The CLI's announcement of a build is found. */
  lemma SampleExtraction()
    ensures ExtractBuildId("Build ID " + ['\U{1B}'] + "[4mabc-123" + ['\U{1B}'] + "[0m\n") == Some("abc-123")
  {
    var text := "Build ID " + ['\U{1B}'] + "[4mabc-123" + ['\U{1B}'] + "[0m\n";
    assert text[0..|IdPrefix|] == IdPrefix;
    assert text[|IdPrefix|..|IdPrefix| + 7] == "abc-123";
    assert text[|IdPrefix| + 7..|IdPrefix| + 7 + |IdSuffix|] == IdSuffix;
    assert IsMatchAt(text, 0, "abc-123");
    MatchAtIff(text, 0, "abc-123");
    assert SearchFrom(text, 0) == Some((0, "abc-123"));
  }
}
