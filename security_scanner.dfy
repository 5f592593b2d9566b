// The npm-audit scoring of the CI security scanner: each severity's vulnerability count is
// compared with a threshold, every excess costs a weight per vulnerability, and critical or
// high packages are listed one by one.

module SecurityScanner {
  import opened Wrappers
  import Lists
  import Text

  datatype Severity = Critical | High | Moderate | Low

  /** The severities in the order the scanner visits them. */
  const Severities: seq<Severity> := [Critical, High, Moderate, Low]

  function Name(s: Severity): string {
    match s
    case Critical => "critical"
    case High => "high"
    case Moderate => "moderate"
    case Low => "low"
  }

  function Weight(s: Severity): (w: int)
    ensures w > 0
  {
    match s
    case Critical => 100
    case High => 50
    case Moderate => 10
    case Low => 5
  }

  function Threshold(s: Severity): (t: int)
    ensures t >= 0
  {
    match s
    case Critical => 0
    case High => 0
    case Moderate => 3
    case Low => 10
  }

  datatype Level = Error | Warning

  datatype Issue = Issue(severity: Level, category: string, message: string)

  /** The `metadata.vulnerabilities` object, as its entries in order: severity name and count. */
  type Counts = seq<(string, int)>

  /** One entry of the top-level `vulnerabilities` object: the package, its severity and the title of its first advisory, if it has one. */
  datatype Package = Package(name: string, severity: string, firstTitle: Option<string>)

  /** The parts of `npm audit --json` the analysis reads. */
  datatype AuditData = AuditData(metadata: Option<Counts>, vulnerabilities: Option<seq<Package>>)

  datatype AuditResult = AuditResult(
    passed: bool,
    scoreImpact: int,
    vulnerabilities: Counts,
    totalVulnerabilities: int,
    issues: seq<Issue>,
    message: string)

  /** `vulnerabilities[severity] || 0`: the count under that name, zero when the name is absent. */
  function CountOf(counts: Counts, name: string): (n: int)
    ensures (forall i :: 0 <= i < |counts| ==> counts[i].0 != name) ==> n == 0
    ensures counts != [] && counts[0].0 == name ==> n == counts[0].1
  {
    if counts == [] then 0
    else if counts[0].0 == name then counts[0].1
    else CountOf(counts[1..], name)
  }

  /** `auditData.metadata?.vulnerabilities || {}` */
  function CountsOf(audit: AuditData): Counts {
    audit.metadata.GetOr([])
  }

  /** The count of each severity, read from the audit's counts. */
  function PerSeverity(counts: Counts): Severity -> int {
    (s: Severity) => CountOf(counts, Name(s))
  }

  function Exceeds(count: Severity -> int, s: Severity): bool {
    count(s) > Threshold(s)
  }

  /** `${count} ${severity} vulnerabilit(y|ies) found (threshold: ${threshold})` */
  function SeverityMessage(count: int, s: Severity): string {
    Text.IntToString(count) + " " + Name(s) + " vulnerabilit" + (if count == 1 then "y" else "ies")
      + " found (threshold: " + Text.IntToString(Threshold(s)) + ")"
  }

  function SeverityIssue(count: Severity -> int, s: Severity): Issue {
    Issue(if s == Critical || s == High then Error else Warning, "Security",
          SeverityMessage(count(s), s))
  }

  /** The issues the severity loop pushes after visiting `ss`, in visiting order. */
  function SeverityIssues(count: Severity -> int, ss: seq<Severity>): seq<Issue> {
    if ss == [] then []
    else
      var s := ss[|ss| - 1];
      SeverityIssues(count, ss[..|ss| - 1]) + (if Exceeds(count, s) then [SeverityIssue(count, s)] else [])
  }

  /** The `scoreImpact` the severity loop accumulates after visiting `ss`. */
  function Penalty(count: Severity -> int, ss: seq<Severity>): int {
    if ss == [] then 0
    else
      var s := ss[|ss| - 1];
      Penalty(count, ss[..|ss| - 1])
        + (if Exceeds(count, s) then (count(s) - Threshold(s)) * Weight(s) else 0)
  }

  /** No severity of `ss` exceeds its threshold. */
  predicate WithinAll(count: Severity -> int, ss: seq<Severity>) {
    forall i :: 0 <= i < |ss| ==> !Exceeds(count, ss[i])
  }

  function IsSevere(p: Package): bool {
    p.severity == "critical" || p.severity == "high"
  }

  /** `data.via[0]?.title || 'Security vulnerability'` */
  function PackageTitle(p: Package): string {
    match p.firstTitle
    case Some(t) => if t != "" then t else "Security vulnerability"
    case None => "Security vulnerability"
  }

  function PackageIssue(p: Package): Issue {
    Issue(Error, "Vulnerable Package", p.name + ": " + PackageTitle(p) + " (" + p.severity + ")")
  }

  /** The issues the package loop pushes after visiting `ps`. */
  function PackageIssues(ps: seq<Package>): seq<Issue> {
    if ps == [] then []
    else
      var p := ps[|ps| - 1];
      PackageIssues(ps[..|ps| - 1]) + (if IsSevere(p) then [PackageIssue(p)] else [])
  }

  function EntryCount(e: (string, int)): int { e.1 }

  /** One more severity visited: the issues after `ss[..i + 1]` from those after `ss[..i]`. */
  lemma IssuesStep(count: Severity -> int, ss: seq<Severity>, i: int)
    requires 0 <= i < |ss|
    ensures SeverityIssues(count, ss[..i + 1])
         == SeverityIssues(count, ss[..i]) + (if Exceeds(count, ss[i]) then [SeverityIssue(count, ss[i])] else [])
  {
    assert ss[..i + 1][..i] == ss[..i];
  }

  /** One more severity visited: the penalty after `ss[..i + 1]` from that after `ss[..i]`. */
  lemma PenaltyStep(count: Severity -> int, ss: seq<Severity>, i: int)
    requires 0 <= i < |ss|
    ensures Penalty(count, ss[..i + 1])
         == Penalty(count, ss[..i]) + (if Exceeds(count, ss[i]) then (count(ss[i]) - Threshold(ss[i])) * Weight(ss[i]) else 0)
  {
    assert ss[..i + 1][..i] == ss[..i];
  }

  /** One more severity visited: the verdict after `ss[..i + 1]` from that after `ss[..i]`. */
  lemma WithinStep(count: Severity -> int, ss: seq<Severity>, i: int)
    requires 0 <= i < |ss|
    ensures WithinAll(count, ss[..i + 1]) <==> WithinAll(count, ss[..i]) && !Exceeds(count, ss[i])
  {
    assert ss[..i + 1][..i] == ss[..i];
  }

  /** One more package visited. */
  lemma PackageStep(ps: seq<Package>, j: int)
    requires 0 <= j < |ps|
    ensures PackageIssues(ps[..j + 1]) == PackageIssues(ps[..j]) + (if IsSevere(ps[j]) then [PackageIssue(ps[j])] else [])
  {
    assert ps[..j + 1][..j] == ps[..j];
  }

  /** The severity loop of `analyzeAuditResults`, over the severities `ss`. */
  method CheckSeverities(counts: Counts, ss: seq<Severity>) returns (passed: bool, scoreImpact: int, issues: seq<Issue>)
    ensures passed <==> WithinAll(PerSeverity(counts), ss)
    ensures scoreImpact == Penalty(PerSeverity(counts), ss)
    ensures issues == SeverityIssues(PerSeverity(counts), ss)
  {
    ghost var tally := PerSeverity(counts);
    issues := [];
    scoreImpact := 0;
    passed := true;
    var i := 0;
    while i < |ss|
      invariant 0 <= i <= |ss|
      invariant issues == SeverityIssues(tally, ss[..i])
      invariant scoreImpact == Penalty(tally, ss[..i])
      invariant passed <==> WithinAll(tally, ss[..i])
    {
      IssuesStep(tally, ss, i);
      PenaltyStep(tally, ss, i);
      WithinStep(tally, ss, i);
      passed, scoreImpact, issues := CheckSeverity(counts, ss[i], passed, scoreImpact, issues);
      i := i + 1;
    }
    assert ss[..i] == ss;
  }

  /** One round of the severity loop: the count of `severity` against its threshold. */
  method CheckSeverity(counts: Counts, severity: Severity, passed: bool, scoreImpact: int, issues: seq<Issue>)
    returns (passed': bool, scoreImpact': int, issues': seq<Issue>)
    ensures passed' <==> passed && !Exceeds(PerSeverity(counts), severity)
    ensures scoreImpact' == scoreImpact
      + (if Exceeds(PerSeverity(counts), severity) then (PerSeverity(counts)(severity) - Threshold(severity)) * Weight(severity) else 0)
    ensures issues' == issues
      + (if Exceeds(PerSeverity(counts), severity) then [SeverityIssue(PerSeverity(counts), severity)] else [])
  {
    passed', scoreImpact', issues' := passed, scoreImpact, issues;
    var count := CountOf(counts, Name(severity));
    if count > Threshold(severity) {
      passed' := false;
      var excess := count - Threshold(severity);
      scoreImpact' := scoreImpact' + excess * Weight(severity);
      issues' := issues' + [Issue(if severity == Critical || severity == High then Error else Warning, "Security",
                                  SeverityMessage(count, severity))];
    }
  }

  /** The package loop of `analyzeAuditResults`: the issues pushed after `issues`. */
  method CheckPackages(issues: seq<Issue>, packages: seq<Package>) returns (r: seq<Issue>)
    ensures r == issues + PackageIssues(packages)
  {
    r := issues;
    var j := 0;
    while j < |packages|
      invariant 0 <= j <= |packages|
      invariant r == issues + PackageIssues(packages[..j])
    {
      PackageStep(packages, j);
      if IsSevere(packages[j]) {
        r := r + [PackageIssue(packages[j])];
      }
      j := j + 1;
    }
    assert packages[..j] == packages;
  }

  /** `analyzeAuditResults(auditData)` */
  method AnalyzeAuditResults(audit: AuditData) returns (r: AuditResult)
    ensures r.passed <==> WithinAll(PerSeverity(CountsOf(audit)), Severities)
    ensures r.scoreImpact == -Penalty(PerSeverity(CountsOf(audit)), Severities)
    ensures r.issues == SeverityIssues(PerSeverity(CountsOf(audit)), Severities) + PackageIssues(audit.vulnerabilities.GetOr([]))
    ensures r.vulnerabilities == CountsOf(audit)
    ensures r.totalVulnerabilities == Lists.Sum(CountsOf(audit), EntryCount)
    ensures r.message == if r.passed then "No critical security vulnerabilities" else "Security vulnerabilities detected"
  {
    var vulnerabilities := CountsOf(audit);
    var passed, scoreImpact, issues := CheckSeverities(vulnerabilities, Severities);
    if audit.vulnerabilities.Some? {
      issues := CheckPackages(issues, audit.vulnerabilities.value);
    }
    r := AuditResult(passed, -scoreImpact, vulnerabilities, Lists.Sum(vulnerabilities, EntryCount), issues,
                     if passed then "No critical security vulnerabilities" else "Security vulnerabilities detected");
  }

  // ---------------------------------------------------------------- properties

  /** The penalty is never negative, and it is zero exactly when no severity exceeds its threshold. */
  lemma {:induction false} PenaltySign(count: Severity -> int, ss: seq<Severity>)
    ensures Penalty(count, ss) >= 0
    ensures Penalty(count, ss) == 0 <==> WithinAll(count, ss)
  {
    if ss != [] {
      var n := |ss| - 1;
      PenaltySign(count, ss[..n]);
      PenaltyStep(count, ss, n);
      WithinStep(count, ss, n);
      assert ss[..n + 1] == ss;
    }
  }

  /** Hence the audit's `scoreImpact` is at most zero, and zero exactly when the audit passes. */
  lemma ScoreImpactSign(count: Severity -> int)
    ensures -Penalty(count, Severities) <= 0
    ensures -Penalty(count, Severities) == 0 <==> WithinAll(count, Severities)
  {
    PenaltySign(count, Severities);
  }

  /** Every count within its threshold: none critical or high, at most 3 moderate and at most 10 low. */
  lemma WithinThresholds(count: Severity -> int)
    ensures WithinAll(count, Severities) <==> count(Critical) <= 0 && count(High) <= 0 && count(Moderate) <= 3 && count(Low) <= 10
  {
    assert Severities[0] == Critical && Severities[1] == High && Severities[2] == Moderate && Severities[3] == Low;
  }

  /** The audit passes exactly when critical and high are absent, at most 3 are moderate and at most 10 low. */
  lemma PassedThresholds(counts: Counts)
    ensures WithinAll(PerSeverity(counts), Severities) <==>
      && CountOf(counts, "critical") <= 0
      && CountOf(counts, "high") <= 0
      && CountOf(counts, "moderate") <= 3
      && CountOf(counts, "low") <= 10
  {
    WithinThresholds(PerSeverity(counts));
  }

  function ExceedsIn(count: Severity -> int): Severity -> bool {
    (s: Severity) => Exceeds(count, s)
  }

  /** An exceeding severity that produces an error rather than a warning. */
  function ErrorIn(count: Severity -> int): Severity -> bool {
    (s: Severity) => Exceeds(count, s) && (s == Critical || s == High)
  }

  function IsError(issue: Issue): bool { issue.severity == Error }

  /** There is one severity issue per exceeding severity, and it is an error exactly for critical and high. */
  lemma {:induction false} SeverityIssueCount(count: Severity -> int, ss: seq<Severity>)
    ensures |SeverityIssues(count, ss)| == Lists.Count(ss, ExceedsIn(count))
    ensures Lists.Count(SeverityIssues(count, ss), IsError) == Lists.Count(ss, ErrorIn(count))
  {
    if ss != [] {
      var n := |ss| - 1;
      var front := SeverityIssues(count, ss[..n]);
      var last: seq<Issue> := if Exceeds(count, ss[n]) then [SeverityIssue(count, ss[n])] else [];
      SeverityIssueCount(count, ss[..n]);
      IssuesStep(count, ss, n);
      assert ss == ss[..n] + [ss[n]];
      Lists.FilterConcat(ss[..n], [ss[n]], ExceedsIn(count));
      Lists.FilterConcat(ss[..n], [ss[n]], ErrorIn(count));
      Lists.FilterConcat(front, last, IsError);
    }
  }

  /** The severity issue of a severity, as a callback. */
  function IssueOf(count: Severity -> int): Severity -> Issue {
    (s: Severity) => SeverityIssue(count, s)
  }

  /**
   * The severity issues are exactly the issues of the exceeding severities, in visiting order:
   * one per exceeding severity and none for the others.
   */
  lemma {:induction false} SeverityIssuesExact(count: Severity -> int, ss: seq<Severity>)
    ensures SeverityIssues(count, ss) == Lists.Map(Lists.Filter(ss, ExceedsIn(count)), IssueOf(count))
  {
    if ss != [] {
      var f, g := ExceedsIn(count), IssueOf(count);
      var n := |ss| - 1;
      var init, x := ss[..n], ss[n];
      SeverityIssuesExact(count, init);
      IssuesStep(count, ss, n);
      assert ss == init + [x];
      Lists.FilterConcat(init, [x], f);
      Lists.MapConcat(Lists.Filter(init, f), Lists.Filter([x], f), g);
      assert Lists.Map(Lists.Filter([x], f), g) == if Exceeds(count, x) then [SeverityIssue(count, x)] else [];
    }
  }

  /** There is one package issue per critical or high package, and each is an error. */
  lemma {:induction false} PackageIssuesShape(ps: seq<Package>)
    ensures |PackageIssues(ps)| == Lists.Count(ps, IsSevere)
    ensures forall k :: 0 <= k < |PackageIssues(ps)| ==> PackageIssues(ps)[k].severity == Error
  {
    if ps != [] {
      var init := ps[..|ps| - 1];
      PackageIssuesShape(init);
      assert ps == init + [ps[|ps| - 1]];
      Lists.FilterConcat(init, [ps[|ps| - 1]], IsSevere);
    }
  }
}
