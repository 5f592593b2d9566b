// The code analyzer of the review bot: an object that collects issues, keeps one counter
// per severity and a score that starts at 100 and only goes down, with the per-function
// complexity thresholds, the brace matcher that finds where a function ends, and the
// five-line duplicate-block scan.

module CodeAnalyzer {
  import Lists
  import Text

  /** `'error'`, `'warning'`, and every other severity string, which `addIssue` counts as an info. */
  datatype Severity = Error | Warning | Info

  datatype Category = Complexity | FileSize | Duplication | Security

  function CategoryName(c: Category): string {
    match c
    case Complexity => "Complexity"
    case FileSize => "File Size"
    case Duplication => "Duplication"
    case Security => "Security"
  }

  /** The messages of the modelled checks; `MessageText` renders them. */
  datatype Message =
    | ComplexityTooHigh(name: string, complexity: int)
    | ComplexityHigh(name: string, complexity: int)
    | FunctionTooLong(name: string, lines: int)
    | LargeFile(lines: int)
    | DuplicatedCode
    | PatternHit(pattern: nat)
    | SqlInjection
    | InsecureRandom

  function MessageText(m: Message): string {
    match m
    case ComplexityTooHigh(name, c) =>
      "Function '" + name + "' has cyclomatic complexity of " + Text.IntToString(c) + " (max: 15). Refactor to reduce complexity."
    case ComplexityHigh(name, c) =>
      "Function '" + name + "' has cyclomatic complexity of " + Text.IntToString(c) + " (max: 10). Consider refactoring."
    case FunctionTooLong(name, n) =>
      "Function '" + name + "' has " + Text.IntToString(n) + " lines (max: 50). Split into smaller functions."
    case LargeFile(n) => "File has " + Text.IntToString(n) + " lines (recommended max: 500). Consider splitting into multiple files."
    case DuplicatedCode => "Code duplication detected. Consider extracting to reusable function."
    case PatternHit(i) => PatternMessage(i)
    case SqlInjection => "Possible SQL injection vulnerability. Use parameterized queries."
    case InsecureRandom => "Math.random() is not cryptographically secure. Use crypto.randomBytes() for security purposes."
  }

  datatype Issue = Issue(severity: Severity, category: Category, file: string, message: Message)

  datatype Metrics = Metrics(filesAnalyzed: int, linesAnalyzed: int, criticalIssues: int, warnings: int, infos: int)

  /** What `generateReport` returns, without its timestamp. */
  datatype Report = Report(score: int, issues: seq<Issue>, metrics: Metrics)

  const NoMetrics := Metrics(0, 0, 0, 0, 0)

  predicate IsError(i: Issue) { i.severity == Error }
  predicate IsWarning(i: Issue) { i.severity == Warning }
  predicate IsInfo(i: Issue) { i.severity == Info }

  /** The counters after one more issue of severity `s`: exactly one of the three goes up by one. */
  function Tally(m: Metrics, s: Severity): Metrics {
    match s
    case Error => m.(criticalIssues := m.criticalIssues + 1)
    case Warning => m.(warnings := m.warnings + 1)
    case Info => m.(infos := m.infos + 1)
  }

  /** The counters after a batch of issues, tallied in order. */
  function TallyAll(m: Metrics, issues: seq<Issue>): Metrics
    decreases |issues|
  {
    if issues == [] then m else Tally(TallyAll(m, issues[..|issues| - 1]), issues[|issues| - 1].severity)
  }

  /** The three severity counters agree with the issues recorded. */
  predicate Counted(issues: seq<Issue>, m: Metrics) {
    && m.criticalIssues == Lists.Count(issues, IsError)
    && m.warnings == Lists.Count(issues, IsWarning)
    && m.infos == Lists.Count(issues, IsInfo)
  }

  /** `Math.max(0, Math.min(100, Math.round(score)))` on an integer score. */
  function Clamp(score: int): (r: int)
    ensures 0 <= r <= 100
    ensures 0 <= score <= 100 ==> r == score
    ensures score < 0 ==> r == 0
    ensures score > 100 ==> r == 100
  {
    if score < 0 then 0 else if score > 100 then 100 else score
  }

  // ---------------------------------------------------------------- security

  /** One entry of the `checkSecurity` pattern table, without its regular expression and message. */
  datatype SecurityPattern = SecurityPattern(severity: Severity, scoreImpact: int)

  /** The table in source order: passwords, API keys, tokens, `eval`, `innerHTML`, `dangerouslySetInnerHTML`, `document.write`. */
  const SecurityPatterns: seq<SecurityPattern> := [
    SecurityPattern(Error, -25), SecurityPattern(Error, -25), SecurityPattern(Error, -25), SecurityPattern(Error, -30),
    SecurityPattern(Error, -20), SecurityPattern(Warning, -10), SecurityPattern(Warning, -10)
  ]

  /** The message of each entry of the table. */
  function PatternMessage(i: nat): string {
    match i
    case 0 => "Hardcoded password detected. Use environment variables."
    case 1 => "Hardcoded API key detected. Use environment variables."
    case 2 => "Hardcoded token detected. Use secure storage."
    case 3 => "eval() usage detected. Severe security risk - avoid at all costs."
    case 4 => "innerHTML usage detected. XSS risk - use textContent or sanitize input."
    case 5 => "dangerouslySetInnerHTML usage. Ensure input is properly sanitized."
    case 6 => "document.write() usage. Prefer modern DOM manipulation."
    case _ => ""
  }

  /** The one-issue batch a guarded report adds: `issue` when `condition` holds, nothing otherwise. */
  function IssueIf(condition: bool, issue: Issue): seq<Issue> {
    if condition then [issue] else []
  }

  /** The issue pattern `i` raises when it matches. */
  function PatternIssue(file: string, i: nat): Issue
    requires i < |SecurityPatterns|
  {
    Issue(SecurityPatterns[i].severity, Security, file, PatternHit(i))
  }

  /** The issues of the first `n` patterns, given which of them matched. */
  function PatternIssues(file: string, hits: seq<bool>, n: nat): seq<Issue>
    requires n <= |hits| == |SecurityPatterns|
  {
    if n == 0 then [] else PatternIssues(file, hits, n - 1) + IssueIf(hits[n - 1], PatternIssue(file, n - 1))
  }

  /** What the first `n` patterns take off the score, given which of them matched. */
  function PatternPenalty(hits: seq<bool>, n: nat): int
    requires n <= |hits| == |SecurityPatterns|
  {
    if n == 0 then 0 else PatternPenalty(hits, n - 1) + (if hits[n - 1] then -SecurityPatterns[n - 1].scoreImpact else 0)
  }

  /** One more pattern of the loop keeps its invariant. */
  lemma PatternsStep(start: seq<Issue>, done: seq<Issue>, m0: Metrics, m: Metrics, file: string, hits: seq<bool>, i: nat,
                     issues: seq<Issue>, metrics: Metrics)
    requires i < |hits| == |SecurityPatterns|
    requires done == start + PatternIssues(file, hits, i) && m == TallyAll(m0, PatternIssues(file, hits, i))
    requires issues == done + IssueIf(hits[i], PatternIssue(file, i)) && metrics == TallyAll(m, IssueIf(hits[i], PatternIssue(file, i)))
    ensures issues == start + PatternIssues(file, hits, i + 1)
    ensures metrics == TallyAll(m0, PatternIssues(file, hits, i + 1))
  {
    TallyAllConcat(m0, PatternIssues(file, hits, i), IssueIf(hits[i], PatternIssue(file, i)));
  }

  /** The raw-query test: the text holds both `SELECT` and `${`. */
  predicate RawQuery(content: string) {
    Text.Contains(content, "SELECT") && Text.Contains(content, "${")
  }

  /** The insecure-random test: `Math.random()` in a text that mentions `crypto` or `security`. */
  predicate WeakRandom(content: string) {
    Text.Contains(content, "Math.random()") && (Text.Contains(content, "crypto") || Text.Contains(content, "security"))
  }

  /** The issues `checkSecurity` adds, `hits` saying which patterns of the table matched. */
  function SecurityIssues(file: string, content: string, hits: seq<bool>): seq<Issue>
    requires |hits| == |SecurityPatterns|
  {
    PatternIssues(file, hits, |hits|)
      + IssueIf(RawQuery(content), Issue(Error, Security, file, SqlInjection))
      + IssueIf(WeakRandom(content), Issue(Warning, Security, file, InsecureRandom))
  }

  /** What `checkSecurity` takes off the score. */
  function SecurityPenalty(content: string, hits: seq<bool>): int
    requires |hits| == |SecurityPatterns|
  {
    PatternPenalty(hits, |hits|) + (if RawQuery(content) then 25 else 0) + (if WeakRandom(content) then 10 else 0)
  }

  // ---------------------------------------------------------------- complexity

  /** The number of `{` minus the number of `}` in `s`. */
  function Balance(s: string): int
    decreases |s|
  {
    if s == [] then 0
    else
      var c := s[|s| - 1];
      Balance(s[..|s| - 1]) + Step(c)
  }

  /** What one character does to the brace depth. */
  function Step(c: char): int {
    if c == '{' then 1 else if c == '}' then -1 else 0
  }

  /** The depth the matcher holds once it has read `content[from..k]`, starting at 1 for the opening brace. */
  function Depth(content: string, from: int, k: int): int
    requires 0 <= from <= k <= |content|
    decreases k - from
  {
    if k == from then 1 else Depth(content, from, k - 1) + Step(content[k - 1])
  }

  /** The brace at `j` brings the depth back to zero. */
  predicate Closes(content: string, from: int, j: int)
    requires 0 <= from <= |content|
  {
    from <= j < |content| && Depth(content, from, j + 1) == 0
  }

  /** A function the source's function pattern matched: where the match starts, its length, the name it captured. */
  datatype FunctionMatch = FunctionMatch(start: nat, headerLength: nat, name: string)

  /** A match lies inside the text it was found in. */
  predicate InContent(m: FunctionMatch, content: string) {
    m.start + m.headerLength <= |content|
  }

  /** The complexity issue of one function, if any, and its deduction. */
  function ComplexityFinding(file: string, name: string, complexity: int): (r: (seq<Issue>, int))
    ensures |r.0| <= 1
    ensures r.0 != [] ==> r.0[0].file == file && r.0[0].category == Complexity && r.0[0].severity != Info
    ensures r.1 == (if r.0 == [] then 0 else if r.0[0].severity == Error then 15 else 8)
  {
    if complexity > 15 then ([Issue(Error, Complexity, file, ComplexityTooHigh(name, complexity))], 15)
    else if complexity > 10 then ([Issue(Warning, Complexity, file, ComplexityHigh(name, complexity))], 8)
    else ([], 0)
  }

  /** The length issue of one function, if any, and its deduction. */
  function LengthFinding(file: string, name: string, functionLines: int): (r: (seq<Issue>, int))
    ensures |r.0| <= 1
    ensures r.0 != [] <==> functionLines > 50
    ensures forall i :: 0 <= i < |r.0| ==> r.0[i].severity == Warning && r.0[i].message == FunctionTooLong(name, functionLines)
    ensures r.1 == 5 * |r.0|
  {
    if functionLines > 50 then ([Issue(Warning, Complexity, file, FunctionTooLong(name, functionLines))], 5) else ([], 0)
  }

  /**
   * The text of a matched function as the source takes it: from the start of the match up
   * to, and not including, the brace that closes it (`end` is the brace matcher's answer).
   */
  function Body(content: string, m: FunctionMatch, end: int): string
    requires InContent(m, content) && m.start + m.headerLength <= end <= |content|
  {
    content[m.start..end]
  }

  predicate IsNewline(c: char) { c == '\n' }

  /** `s.split('\n').length`, counted: one more than the newlines in `s` (`SplitLineCount` proves the two agree). */
  function LineCount(s: string): nat {
    Lists.Count(s, IsNewline) + 1
  }

  /** Everything one function contributes, given its body and the decision-point count. */
  function FunctionFindings(file: string, name: string, body: string, decisionPoints: string -> nat): (r: (seq<Issue>, int))
    ensures 0 <= |r.0| <= 2 && 0 <= r.1 <= 20
    ensures forall i :: 0 <= i < |r.0| ==> r.0[i].file == file && r.0[i].category == Complexity
  {
    var c := ComplexityFinding(file, name, 1 + decisionPoints(body));
    var l := LengthFinding(file, name, LineCount(body));
    (c.0 + l.0, c.1 + l.1)
  }

  /** Where the brace matcher stops, as a function: the first closing brace, or `from` itself. */
  function MatchEnd(content: string, from: int): (end: int)
    requires 0 <= from <= |content|
    ensures from <= end <= |content|
    decreases |content| - from
  {
    FirstClose(content, from, from)
  }

  function FirstClose(content: string, from: int, j: int): (end: int)
    requires 0 <= from <= j <= |content|
    ensures from <= end <= |content|
    ensures end == from || end < |content|
    decreases |content| - j
  {
    if j == |content| then from
    else if Closes(content, from, j) then j
    else FirstClose(content, from, j + 1)
  }

  /** All the matched functions' issues, in match order. */
  function AllFunctionFindings(file: string, content: string, functions: seq<FunctionMatch>, decisionPoints: string -> nat): (r: (seq<Issue>, int))
    requires forall k :: 0 <= k < |functions| ==> InContent(functions[k], content)
    ensures |r.0| <= 2 * |functions| && 0 <= r.1 <= 20 * |functions|
    ensures forall i :: 0 <= i < |r.0| ==> r.0[i].file == file && r.0[i].category == Complexity
    decreases |functions|
  {
    if functions == [] then ([], 0)
    else
      var rest := AllFunctionFindings(file, content, functions[..|functions| - 1], decisionPoints);
      var f := Measured(file, content, functions[|functions| - 1], decisionPoints);
      (rest.0 + f.0, rest.1 + f.1)
  }

  /** The findings of one more matched function come after those of the ones before it. */
  lemma FindingsStep(file: string, content: string, functions: seq<FunctionMatch>, k: int, decisionPoints: string -> nat)
    requires forall k :: 0 <= k < |functions| ==> InContent(functions[k], content)
    requires 0 <= k < |functions|
    ensures AllFunctionFindings(file, content, functions[..k + 1], decisionPoints).0
         == AllFunctionFindings(file, content, functions[..k], decisionPoints).0 + Measured(file, content, functions[k], decisionPoints).0
    ensures AllFunctionFindings(file, content, functions[..k + 1], decisionPoints).1
         == AllFunctionFindings(file, content, functions[..k], decisionPoints).1 + Measured(file, content, functions[k], decisionPoints).1
  {
    assert functions[..k + 1][..k] == functions[..k];
  }

  /** What one matched function contributes, its body cut where the brace matcher stops. */
  function Measured(file: string, content: string, m: FunctionMatch, decisionPoints: string -> nat): (r: (seq<Issue>, int))
    requires InContent(m, content)
    ensures |r.0| <= 2 && 0 <= r.1 <= 20
    ensures forall i :: 0 <= i < |r.0| ==> r.0[i].file == file && r.0[i].category == Complexity
  {
    FunctionFindings(file, m.name, Body(content, m, MatchEnd(content, m.start + m.headerLength)), decisionPoints)
  }

  /** The file-size issue, if any, and its deduction. */
  function FileSizeFinding(file: string, lineCount: int): (r: (seq<Issue>, int))
    ensures |r.0| <= 1
    ensures r.0 != [] <==> lineCount > 500
    ensures forall i :: 0 <= i < |r.0| ==> r.0[i].severity == Warning && r.0[i].message == LargeFile(lineCount)
    ensures r.1 == 5 * |r.0|
  {
    if lineCount > 500 then ([Issue(Warning, FileSize, file, LargeFile(lineCount))], 5) else ([], 0)
  }

  /**
   * Everything `checkComplexity` contributes for one file: nothing unless it is a `.ts` file,
   * at most two issues and 20 points per function and one issue and 5 points for the file,
   * the file-size warning coming last exactly when the file is over 500 lines.
   */
  function ComplexityFindings(file: string, content: string, lines: seq<string>, functions: seq<FunctionMatch>, decisionPoints: string -> nat): (r: (seq<Issue>, int))
    requires forall k :: 0 <= k < |functions| ==> InContent(functions[k], content)
    ensures !Text.EndsWith(file, ".ts") ==> r == ([], 0)
    ensures |r.0| <= 2 * |functions| + 1 && 0 <= r.1 <= 20 * |functions| + 5
    ensures forall i :: 0 <= i < |r.0| ==> r.0[i].file == file
    ensures (r.0 != [] && r.0[|r.0| - 1].category == FileSize) <==> Text.EndsWith(file, ".ts") && |lines| > 500
  {
    if !Text.EndsWith(file, ".ts") then ([], 0)
    else
      var f := AllFunctionFindings(file, content, functions, decisionPoints);
      var s := FileSizeFinding(file, |lines|);
      (f.0 + s.0, f.1 + s.1)
  }

  // ---------------------------------------------------------------- duplication

  /** A line `checkDuplication` looks at: not blank, and not a `//` comment once trimmed. */
  predicate Significant(line: string) {
    var t := Text.Trim(line);
    t != [] && !Text.StartsWith(t, "//")
  }

  function SignificantLines(content: string): (r: seq<string>)
    ensures forall i :: 0 <= i < |r| ==> Significant(r[i]) && '\n' !in r[i]
  {
    var lines := Text.Split(content, '\n');
    var kept := Lists.Filter(lines, Significant);
    Lists.FilterMembership(lines, Significant);
    kept
  }

  /** The five lines starting at `i`, joined back with newlines. */
  function Block(lines: seq<string>, i: int): string
    requires 0 <= i && i + 5 <= |lines|
  {
    Text.Join(lines[i..i + 5], '\n')
  }

  /** Two of the blocks starting before `bound` are equal. */
  predicate RepeatedBlock(lines: seq<string>, bound: int)
    requires bound <= 0 || bound + 4 <= |lines|
  {
    exists a, b :: 0 <= a < b < bound && Block(lines, a) == Block(lines, b)
  }

  /** The blocks starting before `n`, in order. */
  function Blocks(lines: seq<string>, n: int): (r: seq<string>)
    requires 0 <= n && (n == 0 || n + 4 <= |lines|)
    ensures |r| == n
    ensures forall k :: 0 <= k < n ==> r[k] == Block(lines, k)
    decreases n
  {
    if n == 0 then [] else Blocks(lines, n - 1) + [Block(lines, n - 1)]
  }

  /**
   * The loop of `checkDuplication` with its bound as a parameter: it walks the block starts
   * below `bound`, keeps the blocks seen in `blocks`, and stops at the first block seen before.
   */
  method ScanBlocks(lines: seq<string>, bound: int) returns (found: bool)
    requires bound <= |lines| - 4
    ensures found <==> RepeatedBlock(lines, bound)
  {
    var blocks: seq<string> := [];
    var i := 0;
    found := false;
    while i < bound
      invariant 0 <= i && (i == 0 || i <= bound)
      invariant blocks == Blocks(lines, i)
      invariant !RepeatedBlock(lines, i)
    {
      var block := Block(lines, i);
      if block in blocks {
        var a :| 0 <= a < |blocks| && blocks[a] == block;
        assert Block(lines, a) == Block(lines, i);
        found := true;
        return;
      }
      blocks := blocks + [block];
      assert forall a :: 0 <= a < i ==> Block(lines, a) != Block(lines, i) by {
        forall a | 0 <= a < i ensures Block(lines, a) != Block(lines, i) {
          assert blocks[a] == Block(lines, a);
        }
      }
      i := i + 1;
    }
    assert bound <= 0 ==> !RepeatedBlock(lines, bound);
  }

  /** The duplication check's test: two five-line blocks of significant lines are equal. */
  predicate Duplicated(content: string) {
    var lines := SignificantLines(content);
    RepeatedBlock(lines, |lines| - 4)
  }

  function DuplicationIssues(file: string, content: string): seq<Issue> {
    IssueIf(Duplicated(content), Issue(Warning, Duplication, file, DuplicatedCode))
  }

  function DuplicationPenalty(content: string): int {
    if Duplicated(content) then 10 else 0
  }

  /** The issues the modelled checks add for one file, in the order they run. */
  function FileIssues(file: string, content: string, hits: seq<bool>, functions: seq<FunctionMatch>, decisionPoints: string -> nat): seq<Issue>
    requires |hits| == |SecurityPatterns|
    requires forall k :: 0 <= k < |functions| ==> InContent(functions[k], content)
  {
    SecurityIssues(file, content, hits)
      + ComplexityFindings(file, content, Text.Split(content, '\n'), functions, decisionPoints).0
      + DuplicationIssues(file, content)
  }

  /** What the modelled checks take off the score for one file. */
  function FilePenalty(file: string, content: string, hits: seq<bool>, functions: seq<FunctionMatch>, decisionPoints: string -> nat): int
    requires |hits| == |SecurityPatterns|
    requires forall k :: 0 <= k < |functions| ==> InContent(functions[k], content)
  {
    SecurityPenalty(content, hits)
      + ComplexityFindings(file, content, Text.Split(content, '\n'), functions, decisionPoints).1
      + DuplicationPenalty(content)
  }

  // ---------------------------------------------------------------- the analyzer

  class Analyzer {
    var issues: seq<Issue>
    var score: int
    var metrics: Metrics

    /** The counters agree with the issues. */
    predicate Valid()
      reads this
    {
      Counted(issues, metrics)
    }

    /** A fresh analyzer: no issue, a score of 100, every counter at zero. */
    constructor()
      ensures issues == [] && score == 100 && metrics == NoMetrics
      ensures Valid()
    {
      issues := [];
      score := 100;
      metrics := NoMetrics;
    }

    /** `addIssue`: one more issue, one counter up, the score untouched. */
    method AddIssue(severity: Severity, category: Category, file: string, message: Message)
      modifies this
      ensures issues == old(issues) + [Issue(severity, category, file, message)]
      ensures metrics == Tally(old(metrics), severity)
      ensures score == old(score)
      ensures old(Valid()) ==> Valid()
    {
      ghost var wasValid := Valid();
      ghost var before := issues;
      ghost var beforeMetrics := metrics;
      issues := issues + [Issue(severity, category, file, message)];
      if severity == Error {
        metrics := metrics.(criticalIssues := metrics.criticalIssues + 1);
      } else if severity == Warning {
        metrics := metrics.(warnings := metrics.warnings + 1);
      } else {
        metrics := metrics.(infos := metrics.infos + 1);
      }
      if wasValid {
        TallyCounts(before, beforeMetrics, Issue(severity, category, file, message));
      }
    }

    /**
     * `checkSecurity`, with the outcome of each pattern's regular expression given in `hits`:
     * every matching pattern adds its issue and its score impact, then the raw-query and the
     * insecure-random tests.
     */
    method CheckSecurity(file: string, content: string, hits: seq<bool>)
      requires |hits| == |SecurityPatterns|
      modifies this
      ensures issues == old(issues) + SecurityIssues(file, content, hits)
      ensures metrics == TallyAll(old(metrics), SecurityIssues(file, content, hits))
      ensures score == old(score) - SecurityPenalty(content, hits)
      ensures old(Valid()) ==> Valid()
    {
      ghost var p := PatternIssues(file, hits, |hits|);
      ghost var q := IssueIf(RawQuery(content), Issue(Error, Security, file, SqlInjection));
      ghost var w := IssueIf(WeakRandom(content), Issue(Warning, Security, file, InsecureRandom));
      MatchPatterns(file, hits);
      RaiseIf(Text.Contains(content, "SELECT") && Text.Contains(content, "${"), Issue(Error, Security, file, SqlInjection), 25);
      RaiseIf(Text.Contains(content, "Math.random()") && (Text.Contains(content, "crypto") || Text.Contains(content, "security")),
        Issue(Warning, Security, file, InsecureRandom), 10);
      TallyAllConcat(old(metrics), p, q);
      TallyAllConcat(old(metrics), p + q, w);
      Appended(old(issues), p, q);
      Appended(old(issues), p + q, w);
    }

    /** The pattern loop of `checkSecurity`. */
    method MatchPatterns(file: string, hits: seq<bool>)
      requires |hits| == |SecurityPatterns|
      modifies this
      ensures issues == old(issues) + PatternIssues(file, hits, |hits|)
      ensures metrics == TallyAll(old(metrics), PatternIssues(file, hits, |hits|))
      ensures score == old(score) - PatternPenalty(hits, |hits|)
      ensures old(Valid()) ==> Valid()
    {
      var i := 0;
      while i < |SecurityPatterns|
        invariant 0 <= i <= |SecurityPatterns|
        invariant issues == old(issues) + PatternIssues(file, hits, i)
        invariant metrics == TallyAll(old(metrics), PatternIssues(file, hits, i))
        invariant score == old(score) - PatternPenalty(hits, i)
        invariant old(Valid()) ==> Valid()
      {
        ghost var done := issues;
        ghost var counted := metrics;
        ReportPattern(file, hits[i], i);
        PatternsStep(old(issues), done, old(metrics), counted, file, hits, i, issues, metrics);
        i := i + 1;
      }
    }

    /** One round of the pattern loop: pattern `i` reports its issue and score impact when it matched. */
    method ReportPattern(file: string, hit: bool, i: nat)
      requires i < |SecurityPatterns|
      modifies this
      ensures issues == old(issues) + IssueIf(hit, PatternIssue(file, i))
      ensures metrics == TallyAll(old(metrics), IssueIf(hit, PatternIssue(file, i)))
      ensures score == old(score) - (if hit then -SecurityPatterns[i].scoreImpact else 0)
      ensures old(Valid()) ==> Valid()
    {
      var pattern := SecurityPatterns[i];
      RaiseIf(hit, Issue(pattern.severity, Security, file, PatternHit(i)), -pattern.scoreImpact);
    }

    /** One guarded report: when `condition` holds, `issue` is added and `penalty` taken off the score. */
    method RaiseIf(condition: bool, issue: Issue, penalty: int)
      modifies this
      ensures issues == old(issues) + IssueIf(condition, issue)
      ensures metrics == TallyAll(old(metrics), IssueIf(condition, issue))
      ensures score == old(score) - (if condition then penalty else 0)
      ensures old(Valid()) ==> Valid()
    {
      if condition {
        AddIssue(issue.severity, issue.category, issue.file, issue.message);
        score := score - penalty;
        TallyAllOne(old(metrics), issue);
      } else {
        assert issues == old(issues) + [];
      }
    }

    /**
     * `checkComplexity`: for a `.ts` file, every function the pattern matched is measured
     * (its end found by the brace matcher, its complexity one more than the decision points
     * in its body, its length the lines of its body), then the file's own length.
     */
    method CheckComplexity(file: string, content: string, lines: seq<string>, functions: seq<FunctionMatch>, decisionPoints: string -> nat)
      requires forall k :: 0 <= k < |functions| ==> InContent(functions[k], content)
      modifies this
      ensures issues == old(issues) + ComplexityFindings(file, content, lines, functions, decisionPoints).0
      ensures metrics == TallyAll(old(metrics), ComplexityFindings(file, content, lines, functions, decisionPoints).0)
      ensures score == old(score) - ComplexityFindings(file, content, lines, functions, decisionPoints).1
      ensures score <= old(score)
      ensures old(Valid()) ==> Valid()
    {
      if !Text.EndsWith(file, ".ts") {
        assert issues == old(issues) + [];
        return;
      }
      ghost var f := AllFunctionFindings(file, content, functions, decisionPoints);
      ghost var sz := FileSizeFinding(file, |lines|);
      MeasureFunctions(file, content, functions, decisionPoints);
      CheckFileSize(file, |lines|);
      TallyAllConcat(old(metrics), f.0, sz.0);
      assert issues == old(issues) + (f.0 + sz.0);
    }

    /** The closing step of `checkComplexity`: a warning and 5 points off for a file over 500 lines. */
    method CheckFileSize(file: string, lineCount: int)
      modifies this
      ensures issues == old(issues) + FileSizeFinding(file, lineCount).0
      ensures metrics == TallyAll(old(metrics), FileSizeFinding(file, lineCount).0)
      ensures score == old(score) - FileSizeFinding(file, lineCount).1
      ensures old(Valid()) ==> Valid()
    {
      if lineCount > 500 {
        AddIssue(Warning, FileSize, file, LargeFile(lineCount));
        score := score - 5;
        TallyAllOne(old(metrics), Issue(Warning, FileSize, file, LargeFile(lineCount)));
      } else {
        assert issues == old(issues) + [];
      }
    }

    /** The loop of `checkComplexity` over the matched functions, in match order. */
    method MeasureFunctions(file: string, content: string, functions: seq<FunctionMatch>, decisionPoints: string -> nat)
      requires forall k :: 0 <= k < |functions| ==> InContent(functions[k], content)
      modifies this
      ensures issues == old(issues) + AllFunctionFindings(file, content, functions, decisionPoints).0
      ensures metrics == TallyAll(old(metrics), AllFunctionFindings(file, content, functions, decisionPoints).0)
      ensures score == old(score) - AllFunctionFindings(file, content, functions, decisionPoints).1
      ensures old(Valid()) ==> Valid()
    {
      ghost var wasValid := Valid();
      ghost var found: seq<Issue> := [];
      ghost var penalty := 0;
      var k := 0;
      while k < |functions|
        invariant 0 <= k <= |functions|
        invariant found == AllFunctionFindings(file, content, functions[..k], decisionPoints).0
        invariant penalty == AllFunctionFindings(file, content, functions[..k], decisionPoints).1
        invariant issues == old(issues) + found
        invariant metrics == TallyAll(old(metrics), found)
        invariant score == old(score) - penalty
        invariant wasValid ==> Valid()
      {
        ghost var f := Measured(file, content, functions[k], decisionPoints);
        MeasureFunction(file, content, functions[k], decisionPoints);
        FindingsStep(file, content, functions, k, decisionPoints);
        TallyAllConcat(old(metrics), found, f.0);
        Appended(old(issues), found, f.0);
        found, penalty := found + f.0, penalty + f.1;
        k := k + 1;
      }
      assert functions[..k] == functions;
    }

    /** One round of `checkComplexity`'s loop: the function's end, complexity and length, and the issues they raise. */
    method MeasureFunction(file: string, content: string, m: FunctionMatch, decisionPoints: string -> nat)
      requires InContent(m, content)
      modifies this
      ensures issues == old(issues) + Measured(file, content, m, decisionPoints).0
      ensures metrics == TallyAll(old(metrics), Measured(file, content, m, decisionPoints).0)
      ensures score == old(score) - Measured(file, content, m, decisionPoints).1
      ensures old(Valid()) ==> Valid()
    {
      var end := FunctionEnd(content, m.start + m.headerLength);
      var body := content[m.start..end];
      var complexity := 1 + decisionPoints(body);
      ghost var c := ComplexityFinding(file, m.name, complexity);
      ghost var l := LengthFinding(file, m.name, LineCount(body));
      assert Measured(file, content, m, decisionPoints) == (c.0 + l.0, c.1 + l.1);
      ReportComplexity(file, m.name, complexity);
      var functionLines := |Text.Split(body, '\n')|;
      SplitLineCount(body);
      ReportLength(file, m.name, functionLines);
      TallyAllConcat(old(metrics), c.0, l.0);
      assert issues == old(issues) + (c.0 + l.0);
    }

    /** The complexity thresholds of `checkComplexity`: an error and 15 points above 15, a warning and 8 points above 10. */
    method ReportComplexity(file: string, name: string, complexity: int)
      modifies this
      ensures issues == old(issues) + ComplexityFinding(file, name, complexity).0
      ensures metrics == TallyAll(old(metrics), ComplexityFinding(file, name, complexity).0)
      ensures score == old(score) - ComplexityFinding(file, name, complexity).1
      ensures old(Valid()) ==> Valid()
    {
      if complexity > 15 {
        AddIssue(Error, Complexity, file, ComplexityTooHigh(name, complexity));
        score := score - 15;
        TallyAllOne(old(metrics), Issue(Error, Complexity, file, ComplexityTooHigh(name, complexity)));
      } else if complexity > 10 {
        AddIssue(Warning, Complexity, file, ComplexityHigh(name, complexity));
        score := score - 8;
        TallyAllOne(old(metrics), Issue(Warning, Complexity, file, ComplexityHigh(name, complexity)));
      } else {
        assert issues == old(issues) + [];
      }
    }

    /** The length threshold of `checkComplexity`: a warning and 5 points for a function over 50 lines. */
    method ReportLength(file: string, name: string, functionLines: int)
      modifies this
      ensures issues == old(issues) + LengthFinding(file, name, functionLines).0
      ensures metrics == TallyAll(old(metrics), LengthFinding(file, name, functionLines).0)
      ensures score == old(score) - LengthFinding(file, name, functionLines).1
      ensures old(Valid()) ==> Valid()
    {
      if functionLines > 50 {
        AddIssue(Warning, Complexity, file, FunctionTooLong(name, functionLines));
        score := score - 5;
        TallyAllOne(old(metrics), Issue(Warning, Complexity, file, FunctionTooLong(name, functionLines)));
      } else {
        assert issues == old(issues) + [];
      }
    }

    /**
     * `checkDuplication` with its loop bound as written, `i < lines.length - 5`: the last
     * block start, `lines.length - 5`, is never looked at.
     */
    method CheckDuplicationAsWritten(file: string, content: string)
      modifies this
      ensures var lines := SignificantLines(content);
        if RepeatedBlock(lines, |lines| - 5) then
          && issues == old(issues) + [Issue(Warning, Duplication, file, DuplicatedCode)]
          && metrics == Tally(old(metrics), Warning)
          && score == old(score) - 10
        else
          issues == old(issues) && metrics == old(metrics) && score == old(score)
      ensures old(Valid()) ==> Valid()
    {
      var lines := SignificantLines(content);
      var found := ScanBlocks(lines, |lines| - 5);
      if found {
        AddIssue(Warning, Duplication, file, DuplicatedCode);
        score := score - 10;
      }
    }

    /**
     * `checkDuplication` looking at every block start, `i <= lines.length - 5`: one warning
     * and 10 points off when two five-line blocks of significant lines are equal.
     */
    method CheckDuplication(file: string, content: string)
      modifies this
      ensures issues == old(issues) + DuplicationIssues(file, content)
      ensures metrics == TallyAll(old(metrics), DuplicationIssues(file, content))
      ensures score == old(score) - DuplicationPenalty(content)
      ensures score <= old(score) && |issues| <= |old(issues)| + 1
      ensures old(Valid()) ==> Valid()
    {
      var lines := SignificantLines(content);
      var found := ScanBlocks(lines, |lines| - 4);
      RaiseIf(found, Issue(Warning, Duplication, file, DuplicatedCode), 10);
    }

    /**
     * One file of `analyzeFiles` once its content is read: the file and its lines are
     * counted, then the modelled checks run in the source's order (security, complexity,
     * duplication). `hits` are the outcomes of the security patterns' regular expressions,
     * `functions` the matches of the function pattern and `decisionPoints` the count of
     * decision points in a function body.
     */
    method AnalyzeFile(file: string, content: string, hits: seq<bool>, functions: seq<FunctionMatch>, decisionPoints: string -> nat)
      requires |hits| == |SecurityPatterns|
      requires forall k :: 0 <= k < |functions| ==> InContent(functions[k], content)
      modifies this
      ensures metrics.filesAnalyzed == old(metrics.filesAnalyzed) + 1
      ensures metrics.linesAnalyzed == old(metrics.linesAnalyzed) + |Text.Split(content, '\n')|
      ensures issues == old(issues) + FileIssues(file, content, hits, functions, decisionPoints)
      ensures score == old(score) - FilePenalty(file, content, hits, functions, decisionPoints)
      ensures old(Valid()) ==> Valid()
    {
      var lines := Text.Split(content, '\n');
      metrics := metrics.(filesAnalyzed := metrics.filesAnalyzed + 1, linesAnalyzed := metrics.linesAnalyzed + |lines|);
      ghost var counted := metrics;
      ghost var a := SecurityIssues(file, content, hits);
      ghost var b := ComplexityFindings(file, content, lines, functions, decisionPoints).0;
      ghost var c := DuplicationIssues(file, content);
      CheckSecurity(file, content, hits);
      CheckComplexity(file, content, lines, functions, decisionPoints);
      CheckDuplication(file, content);
      TallyAllConcat(counted, a, b);
      TallyAllConcat(counted, a + b, c);
      TallyAllKeepsSizes(counted, a + b + c);
      Appended(old(issues), a, b);
      Appended(old(issues), a + b, c);
    }

    /** `generateReport`, without the timestamp. */
    method GenerateReport() returns (r: Report)
      ensures r.score == Clamp(score) && 0 <= r.score <= 100
      ensures r.issues == issues && r.metrics == metrics
    {
      var s := score;
      if s > 100 { s := 100; }
      if s < 0 { s := 0; }
      r := Report(s, issues, metrics);
    }
  }

  /**
   * The brace matcher of `checkComplexity`: from just after a function's opening brace it
   * walks the text with a depth counter starting at 1 and stops at the brace that brings the
   * depth to 0, which is where the function ends; when the braces never balance the end stays
   * at `from`.
   */
  method FunctionEnd(content: string, from: nat) returns (end: nat)
    requires from <= |content|
    ensures end == MatchEnd(content, from)
  {
    var depth := 1;
    end := from;
    var i := from;
    while i < |content| && depth > 0
      invariant from <= i <= |content|
      invariant depth == Depth(content, from, i)
      invariant depth > 0 ==> end == from && MatchEnd(content, from) == FirstClose(content, from, i)
      invariant depth <= 0 ==> depth == 0 && i > from && end == i - 1 && MatchEnd(content, from) == end
    {
      if content[i] == '{' { depth := depth + 1; }
      if content[i] == '}' { depth := depth - 1; }
      if depth == 0 { end := i; }
      i := i + 1;
    }
  }

  // ---------------------------------------------------------------- properties

  /** Tallying one more issue keeps the counters in step with the issues. */
  lemma TallyCounts(issues: seq<Issue>, m: Metrics, i: Issue)
    requires Counted(issues, m)
    ensures Counted(issues + [i], Tally(m, i.severity))
  {
    Lists.FilterConcat(issues, [i], IsError);
    Lists.FilterConcat(issues, [i], IsWarning);
    Lists.FilterConcat(issues, [i], IsInfo);
  }

  lemma TallyAllOne(m: Metrics, i: Issue)
    ensures TallyAll(m, [i]) == Tally(m, i.severity)
  {
    assert [i][..0] == [];
  }

  /** Tallying issues changes only the three severity counters. */
  lemma {:induction false} TallyAllKeepsSizes(m: Metrics, batch: seq<Issue>)
    ensures TallyAll(m, batch).filesAnalyzed == m.filesAnalyzed
    ensures TallyAll(m, batch).linesAnalyzed == m.linesAnalyzed
    decreases |batch|
  {
    if batch != [] {
      TallyAllKeepsSizes(m, batch[..|batch| - 1]);
    }
  }

  /** Appending two batches one after the other is appending them together. */
  lemma Appended(s: seq<Issue>, a: seq<Issue>, b: seq<Issue>)
    ensures s + (a + b) == s + a + b
  {
  }

  /** Tallying two batches is tallying their concatenation. */
  lemma {:induction false} TallyAllConcat(m: Metrics, a: seq<Issue>, b: seq<Issue>)
    ensures TallyAll(m, a + b) == TallyAll(TallyAll(m, a), b)
    decreases |b|
  {
    if b == [] {
      assert a + b == a;
    } else {
      assert (a + b)[..|a + b| - 1] == a + b[..|b| - 1];
      TallyAllConcat(m, a, b[..|b| - 1]);
    }
  }

  /** Every issue is counted exactly once: the three counters add up to the number of issues. */
  lemma {:induction false} CountersSum(issues: seq<Issue>, m: Metrics)
    requires Counted(issues, m)
    ensures m.criticalIssues + m.warnings + m.infos == |issues|
  {
    SeveritiesPartition(issues);
  }

  lemma {:induction false} SeveritiesPartition(issues: seq<Issue>)
    ensures Lists.Count(issues, IsError) + Lists.Count(issues, IsWarning) + Lists.Count(issues, IsInfo) == |issues|
  {
    if issues != [] {
      SeveritiesPartition(issues[1..]);
    }
  }

  /** From a fresh analyzer, any sequence of `addIssue` calls keeps the counters summing to the issues. */
  lemma FreshCounters(batch: seq<Issue>)
    ensures Counted(batch, TallyAll(NoMetrics, batch))
    ensures TallyAll(NoMetrics, batch).criticalIssues + TallyAll(NoMetrics, batch).warnings + TallyAll(NoMetrics, batch).infos == |batch|
  {
    TallyAllCounts([], NoMetrics, batch);
    assert [] + batch == batch;
    CountersSum(batch, TallyAll(NoMetrics, batch));
  }

  lemma {:induction false} TallyAllCounts(issues: seq<Issue>, m: Metrics, batch: seq<Issue>)
    requires Counted(issues, m)
    ensures Counted(issues + batch, TallyAll(m, batch))
    decreases |batch|
  {
    if batch != [] {
      var init := batch[..|batch| - 1];
      TallyAllCounts(issues, m, init);
      var last := batch[|batch| - 1];
      TallyCounts(issues + init, TallyAll(m, init), last);
      assert batch == init + [last];
      assert issues + batch == (issues + init) + [last];
      assert TallyAll(m, batch) == Tally(TallyAll(m, init), last.severity);
    } else {
      assert issues + batch == issues;
    }
  }

  /** Splitting at newlines gives one piece more than there are newlines. */
  lemma {:induction false} SplitLineCount(s: string)
    ensures |Text.Split(s, '\n')| == LineCount(s)
    decreases |s|
  {
    if '\n' in s {
      var i := Text.IndexOf(s, '\n');
      SplitLineCount(s[i + 1..]);
      assert s == s[..i] + [s[i]] + s[i + 1..];
      Lists.FilterConcat(s[..i] + [s[i]], s[i + 1..], IsNewline);
      Lists.FilterConcat(s[..i], [s[i]], IsNewline);
      Lists.CountExtremes(s[..i], IsNewline);
    } else {
      Lists.CountExtremes(s, IsNewline);
    }
  }

  /** Every entry of the pattern table lowers the score: all its score impacts are negative. */
  lemma SecurityImpactsNegative()
    ensures forall i :: 0 <= i < |SecurityPatterns| ==> SecurityPatterns[i].scoreImpact < 0
  {
  }

  /** The security check never raises the score, and takes off at most the whole table and the two text tests. */
  lemma SecurityPenaltyBounds(file: string, content: string, hits: seq<bool>)
    requires |hits| == |SecurityPatterns|
    ensures 0 <= SecurityPenalty(content, hits) <= 180
    ensures |SecurityIssues(file, content, hits)| <= 9
  {
    PatternPenaltyBounds(hits, |hits|);
    PatternIssueCount(file, hits, |hits|);
    assert TablePenalty(7) == 145;
  }

  /** What the first `n` patterns take off the score when all of them match. */
  function TablePenalty(n: nat): int
    requires n <= |SecurityPatterns|
  {
    if n == 0 then 0 else TablePenalty(n - 1) - SecurityPatterns[n - 1].scoreImpact
  }

  lemma {:induction false} PatternPenaltyBounds(hits: seq<bool>, n: nat)
    requires n <= |hits| == |SecurityPatterns|
    ensures 0 <= PatternPenalty(hits, n) <= TablePenalty(n)
    decreases n
  {
    if n > 0 {
      PatternPenaltyBounds(hits, n - 1);
    }
  }

  /** A pattern adds its issue exactly when it matched. */
  lemma {:induction false} PatternIssueCount(file: string, hits: seq<bool>, n: nat)
    requires n <= |hits| == |SecurityPatterns|
    ensures |PatternIssues(file, hits, n)| == Lists.Count(hits[..n], IsHit) <= n
    decreases n
  {
    if n > 0 {
      PatternIssueCount(file, hits, n - 1);
      Lists.CountStep(hits, IsHit, n - 1);
    }
  }

  predicate IsHit(b: bool) { b }

  /** Every check only takes points off: the score never rises while a file is analyzed. */
  lemma FilePenaltyNonNegative(file: string, content: string, hits: seq<bool>, functions: seq<FunctionMatch>, decisionPoints: string -> nat)
    requires |hits| == |SecurityPatterns|
    requires forall k :: 0 <= k < |functions| ==> InContent(functions[k], content)
    ensures FilePenalty(file, content, hits, functions, decisionPoints) >= 0
  {
    SecurityPenaltyBounds(file, content, hits);
  }

  /** The per-function thresholds: an error above 15, a warning from 11 to 15, nothing up to 10. */
  lemma ComplexityThresholds(file: string, name: string, complexity: int)
    ensures var r := ComplexityFinding(file, name, complexity);
      && (r.0 != [] <==> complexity > 10)
      && (r.0 != [] ==> r.0[0].severity == (if complexity > 15 then Error else Warning))
      && (r.1 == 15 <==> complexity > 15)
      && (r.1 == 8 <==> 10 < complexity <= 15)
  {
  }

  /** The deduction for a function never falls as its complexity rises. */
  lemma ComplexityPenaltyMonotone(file: string, name: string, c1: int, c2: int)
    requires c1 <= c2
    ensures ComplexityFinding(file, name, c1).1 <= ComplexityFinding(file, name, c2).1
  {
  }

  /** The brace the matcher stops at closes the function: the text in between is balanced and never dips below depth 1. */
  lemma MatchEndBalanced(content: string, from: int)
    requires 0 <= from <= |content|
    ensures var end := MatchEnd(content, from);
      end == from || (content[end] == '}' && Balance(content[from..end]) == 0)
    ensures var end := MatchEnd(content, from);
      forall k :: from <= k <= end ==> Balance(content[from..k]) >= 0
    ensures var end := MatchEnd(content, from);
      forall j :: from <= j < end ==> !Closes(content, from, j)
    ensures (exists j :: Closes(content, from, j)) ==> Closes(content, from, MatchEnd(content, from))
  {
    FirstCloseSpec(content, from, from);
    var end := MatchEnd(content, from);
    forall k | from <= k <= end ensures Balance(content[from..k]) >= 0 {
      DepthPositive(content, from, k);
      DepthBalance(content, from, k);
    }
    if end != from {
      DepthPositive(content, from, end);
      DepthBalance(content, from, end);
    }
  }

  /** The matcher's depth is one more than the balance of what it has read. */
  lemma {:induction false} DepthBalance(content: string, from: int, k: int)
    requires 0 <= from <= k <= |content|
    ensures Depth(content, from, k) == 1 + Balance(content[from..k])
    decreases k - from
  {
    if k > from {
      DepthBalance(content, from, k - 1);
      assert content[from..k][..k - 1 - from] == content[from..k - 1];
    }
  }

  /** Before the first closing brace the depth stays at 1 or more. */
  lemma {:induction false} DepthPositive(content: string, from: int, k: int)
    requires 0 <= from <= k <= |content|
    requires forall j :: from <= j < k ==> !Closes(content, from, j)
    ensures Depth(content, from, k) >= 1
    decreases k - from
  {
    if k > from {
      DepthPositive(content, from, k - 1);
      assert !Closes(content, from, k - 1);
    }
  }

  lemma {:induction false} FirstCloseSpec(content: string, from: int, j: int)
    requires 0 <= from <= j <= |content|
    ensures var end := FirstClose(content, from, j);
      (end == from && forall k :: j <= k < |content| ==> !Closes(content, from, k))
      || (j <= end && Closes(content, from, end) && forall k :: j <= k < end ==> !Closes(content, from, k))
    decreases |content| - j
  {
    if j < |content| && !Closes(content, from, j) {
      FirstCloseSpec(content, from, j + 1);
    }
  }

  /** Blocks are equal exactly when their lines are: the lines hold no newline, so joining them loses nothing. */
  lemma BlockEquality(lines: seq<string>, a: int, b: int)
    requires forall i :: 0 <= i < |lines| ==> '\n' !in lines[i]
    requires 0 <= a && a + 5 <= |lines| && 0 <= b && b + 5 <= |lines|
    ensures Block(lines, a) == Block(lines, b) <==> lines[a..a + 5] == lines[b..b + 5]
  {
    if Block(lines, a) == Block(lines, b) {
      JoinInjective(lines[a..a + 5], lines[b..b + 5], '\n');
    }
  }

  /** Joining pieces free of the separator is injective on lists of one length. */
  lemma {:induction false} JoinInjective(p: seq<string>, q: seq<string>, sep: char)
    requires |p| == |q|
    requires forall i :: 0 <= i < |p| ==> sep !in p[i]
    requires forall i :: 0 <= i < |q| ==> sep !in q[i]
    requires Text.Join(p, sep) == Text.Join(q, sep)
    ensures p == q
  {
    if |p| > 1 {
      SplitAtSeparator(p[0], q[0], Text.Join(p[1..], sep), Text.Join(q[1..], sep), sep);
      JoinInjective(p[1..], q[1..], sep);
      assert p == [p[0]] + p[1..];
      assert q == [q[0]] + q[1..];
    }
  }

  /** The first separator of a string splits it one way only. */
  lemma SplitAtSeparator(x: string, y: string, u: string, v: string, sep: char)
    requires sep !in x && sep !in y
    requires x + [sep] + u == y + [sep] + v
    ensures x == y && u == v
  {
    var w := x + [sep] + u;
    assert w[|x|] == sep && w[..|x|] == x;
    assert w == y + [sep] + v && w[..|y|] == y;
    if |x| < |y| {
      ElementAt(y, |x|);
      assert false;
    } else if |y| < |x| {
      ElementAt(x, |y|);
      assert false;
    }
    assert x == w[..|x|] && y == w[..|y|];
    assert u == w[|x| + 1..] && v == w[|y| + 1..];
  }

  lemma ElementAt(s: string, i: int)
    ensures 0 <= i < |s| ==> s[i] in s
  {
  }

  /** The five lines starting at `a` are the five starting at the later `b`. */
  predicate SameLines(lines: seq<string>, a: int, b: int) {
    0 <= a < b && b + 5 <= |lines| && lines[a..a + 5] == lines[b..b + 5]
  }

  /**
   * The corrected scan flags a file exactly when some five significant lines occur twice
   * (the significant lines of a file never hold a newline).
   */
  lemma DuplicationMeaning(lines: seq<string>)
    requires forall i :: 0 <= i < |lines| ==> '\n' !in lines[i]
    ensures RepeatedBlock(lines, |lines| - 4) <==> exists a, b :: SameLines(lines, a, b)
  {
    if RepeatedBlock(lines, |lines| - 4) {
      var a, b :| 0 <= a < b < |lines| - 4 && Block(lines, a) == Block(lines, b);
      BlockEquality(lines, a, b);
      assert SameLines(lines, a, b);
    }
    if exists a, b :: SameLines(lines, a, b) {
      var a, b :| SameLines(lines, a, b);
      BlockEquality(lines, a, b);
    }
  }

  /**
   * Files too short to hold two five-line blocks before the bound are never flagged: up to
   * five significant lines with the corrected bound, up to six with the bound as written.
   */
  lemma ShortFilesNeverFlagged(lines: seq<string>)
    ensures |lines| <= 5 ==> !RepeatedBlock(lines, |lines| - 4)
    ensures |lines| <= 6 ==> !RepeatedBlock(lines, |lines| - 5)
  {
  }

  /** The bounds above are tight: six equal lines are flagged by the corrected bound, seven by the bound as written. */
  lemma ShortestFlagged()
    ensures var six := ["x", "x", "x", "x", "x", "x"];
      RepeatedBlock(six, |six| - 4) && !RepeatedBlock(six, |six| - 5)
    ensures var seven := ["x", "x", "x", "x", "x", "x", "x"];
      RepeatedBlock(seven, |seven| - 5)
  {
    var six := ["x", "x", "x", "x", "x", "x"];
    assert six[0..5] == ["x", "x", "x", "x", "x"] == six[1..6];
    assert Block(six, 0) == Block(six, 1);
    var seven := ["x", "x", "x", "x", "x", "x", "x"];
    assert seven[0..5] == ["x", "x", "x", "x", "x"] == seven[1..6];
    assert Block(seven, 0) == Block(seven, 1);
  }

  /** Looking at one more block start can only find more repeats: the corrected scan flags all the written one does. */
  lemma CorrectedScanFindsMore(lines: seq<string>)
    requires |lines| >= 5
    ensures RepeatedBlock(lines, |lines| - 5) ==> RepeatedBlock(lines, |lines| - 4)
  {
  }

  /**
   * The lines `a b c d e a b c d e`: the two halves are the same five lines, yet the loop as
   * written stops before the second half's block and reports nothing.
   */
  lemma DuplicationMissedAsWritten()
    ensures var lines := ["a", "b", "c", "d", "e", "a", "b", "c", "d", "e"];
      !RepeatedBlock(lines, |lines| - 5) && RepeatedBlock(lines, |lines| - 4)
  {
    var lines := ["a", "b", "c", "d", "e", "a", "b", "c", "d", "e"];
    assert lines[0..5] == lines[5..10];
    assert Block(lines, 0) == Block(lines, 5);
    forall a, b | 0 <= a < b < 5 ensures Block(lines, a) != Block(lines, b) {
      NewlineFree(lines);
      BlockEquality(lines, a, b);
      assert lines[a..a + 5][0] != lines[b..b + 5][0];
    }
  }

  lemma NewlineFree(lines: seq<string>)
    requires forall i :: 0 <= i < |lines| ==> |lines[i]| == 1 && lines[i][0] != '\n'
    ensures forall i :: 0 <= i < |lines| ==> '\n' !in lines[i]
  {
  }
}
