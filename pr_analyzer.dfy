// The CI metadata analyzer for pull requests: the title, description, branch, commits and
// size each yield a list of issues and a score impact, and the score is 100 plus the
// impacts, clamped to 0..100.

module PrAnalyzer {
  import opened Wrappers
  import Text
  import Lists

  const BranchPrefixes: seq<string> :=
    ["feature/", "feat/", "bugfix/", "fix/", "hotfix/", "chore/", "refactor/", "docs/", "test/", "perf/", "style/"]

  /** `validBranchPrefixes.join(', ')` */
  const PrefixList := "feature/, feat/, bugfix/, fix/, hotfix/, chore/, refactor/, docs/, test/, perf/, style/"

  const CommitTypes: seq<string> :=
    ["feat", "fix", "docs", "style", "refactor", "perf", "test", "build", "ci", "chore", "revert"]

  datatype Level = Error | Warning | Info

  datatype Category = PrTitle | PrDescription | BranchNaming | CommitMessages | PrSize

  function CategoryName(c: Category): string {
    match c
    case PrTitle => "PR Title"
    case PrDescription => "PR Description"
    case BranchNaming => "Branch Naming"
    case CommitMessages => "Commit Messages"
    case PrSize => "PR Size"
  }

  /**
   * Every message the analyzer emits, with the values it interpolates; `MessageText`
   * renders each one as the text the analyzer prints.
   */
  datatype Message =
    | EmptyTitle
    | TitleTooShort(length: int)
    | TitleTooLong(length: int)
    | TitleLengthOk
    | TitleConventional
    | TitleNotConventional
    | TitleLowercase
    | EmptyDescription
    | DescriptionTooShort(length: int)
    | DescriptionComprehensive
    | DescriptionAdequate
    | DescriptionStructured
    | DescriptionTested
    | DescriptionBreaking
    | BranchFollows(branch: string)
    | BranchDeviates(branch: string)
    | BranchNotKebab
    | RatioGood(conventional: int, total: int)
    | RatioFair(conventional: int, total: int)
    | RatioLow(conventional: int, total: int)
    | PoorCommits(poor: int)
    | SizeLarge(changes: int)
    | SizeMedium(changes: int)
    | SizeFine(changes: int)
    | ManyFiles(files: int)

  datatype Issue = Issue(severity: Level, category: Category, message: Message)

  /** What each `analyze…` step returns. */
  datatype CheckResult = CheckResult(issues: seq<Issue>, scoreImpact: int)

  /**
   * The pull request as the analyzer receives it. An absent field is `None`; the commits are
   * their messages.
   */
  datatype PrData = PrData(
    title: Option<string>,
    description: Option<string>,
    branch: Option<string>,
    commits: Option<seq<string>>,
    additions: Option<int>,
    deletions: Option<int>,
    changedFiles: Option<int>)

  datatype Metadata = Metadata(
    title: Option<string>,
    description: Option<string>,
    branch: Option<string>,
    additions: Option<int>,
    deletions: Option<int>,
    changedFiles: Option<int>)

  datatype Analysis = Analysis(score: int, issues: seq<Issue>, metadata: Metadata)

  const NoResult := CheckResult([], 0)

  /** One step's issues followed by another's, and the two impacts added. */
  function Then(a: CheckResult, b: CheckResult): (r: CheckResult)
    ensures |r.issues| == |a.issues| + |b.issues|
  {
    CheckResult(a.issues + b.issues, a.scoreImpact + b.scoreImpact)
  }

  /** `issues.push({severity, category, message}); scoreImpact += impact` on the result so far. */
  function Report(r: CheckResult, l: Level, c: Category, m: Message, impact: int): (r': CheckResult)
    ensures |r'.issues| == |r.issues| + 1 && r'.issues[..|r.issues|] == r.issues
    ensures r'.issues[|r.issues|] == Issue(l, c, m)
  {
    CheckResult(r.issues + [Issue(l, c, m)], r.scoreImpact + impact)
  }

  const Tick := "\U{2713} "

  // ---------------------------------------------------------------- pattern meanings

  /** `(\(.+\))?: .+` after the type: an optional parenthesised scope, a colon, a space and one more character on the same line. */
  predicate ConventionalRest(r: string) {
    || (|r| >= 3 && r[0] == ':' && r[1] == ' ' && !Text.IsLineTerminator(r[2]))
    || (exists k :: 2 <= k <= |r| - 4
          && r[0] == '('
          && (forall j :: 1 <= j < k ==> !Text.IsLineTerminator(r[j]))
          && r[k] == ')' && r[k + 1] == ':' && r[k + 2] == ' ' && !Text.IsLineTerminator(r[k + 3]))
  }

  /** `^(feat|fix|…|revert)(\(.+\))?: .+`: some commit type, then the rest of the pattern. */
  predicate Conventional(s: string) {
    exists i :: 0 <= i < |CommitTypes| && Text.StartsWith(s, CommitTypes[i]) && ConventionalRest(s[|CommitTypes[i]|..])
  }

  /** `s` contains one of the `words`, letters compared without regard to ASCII case (the `/i` flag). */
  predicate ContainsFolded(s: string, words: seq<string>) {
    exists i :: 0 <= i < |words| && Text.Contains(Text.LowerAscii(s), words[i])
  }

  /** `/## (context|background|why)/i` */
  predicate HasContext(d: string) { ContainsFolded(d, ["## context", "## background", "## why"]) }

  /** `/## (changes|what|implementation)/i` */
  predicate HasChanges(d: string) { ContainsFolded(d, ["## changes", "## what", "## implementation"]) }

  /** `/## (testing|test|tested)/i` */
  predicate HasTesting(d: string) { ContainsFolded(d, ["## testing", "## test", "## tested"]) }

  /** `/breaking change/i` */
  predicate MentionsBreaking(d: string) { ContainsFolded(d, ["breaking change"]) }

  /** `/[A-Z\s]/` */
  predicate HasUpperOrSpace(b: string) {
    exists i :: 0 <= i < |b| && (Text.IsUpperAscii(b[i]) || Text.IsWhitespace(b[i]))
  }

  /** The three non-descriptive commit patterns: a bare placeholder word (any case), at most five characters on one line, or keyboard noise. */
  predicate PoorCommit(m: string) {
    || Text.LowerAscii(m) in ["wip", "temp", "test", "fix", "update"]
    || (1 <= |m| <= 5 && forall i :: 0 <= i < |m| ==> !Text.IsLineTerminator(m[i]))
    || Text.LowerAscii(m) in ["asdf", "qwer", "typo"]
  }

  /** `!s || s.trim().length === 0`: missing, or nothing but white space (see `BlankIsTrimmedEmpty`). */
  predicate Blank(s: Option<string>) {
    s.None? || Text.AllWhitespace(s.value)
  }

  lemma BlankIsTrimmedEmpty(s: Option<string>)
    ensures Blank(s) <==> s.None? || Text.Trim(s.value) == []
  {
    if s.Some? {
      Text.TrimEmptyIffAllWhitespace(s.value);
    }
  }

  // ---------------------------------------------------------------- the messages

  /** `${conventionalCommits}/${commits.length} commits follow conventional format` */
  function Ratio(c: int, n: int): string {
    Text.IntToString(c) + "/" + Text.IntToString(n) + " commits follow conventional format"
  }

  /** The text of each message, as the analyzer prints it. */
  function MessageText(m: Message): string {
    match m
    case EmptyTitle => "PR title is empty. Provide a descriptive title."
    case TitleTooShort(n) => "PR title too short (" + Text.IntToString(n) + " chars). Use descriptive titles (min 10 chars)."
    case TitleTooLong(n) => "PR title too long (" + Text.IntToString(n) + " chars). Keep it concise (max 100 chars)."
    case TitleLengthOk => Tick + "PR title length appropriate"
    case TitleConventional => Tick + "PR title follows conventional commit format"
    case TitleNotConventional => "Consider using conventional commit format: type(scope): description"
    case TitleLowercase => "PR title should start with uppercase letter"
    case EmptyDescription => "PR description is empty. Explain what changes and why."
    case DescriptionTooShort(n) => "PR description insufficient (" + Text.IntToString(n) + " chars). Explain what and why (min 20 chars)."
    case DescriptionComprehensive => Tick + "PR description is comprehensive"
    case DescriptionAdequate => Tick + "PR description is adequate"
    case DescriptionStructured => Tick + "PR description well-structured with context and changes"
    case DescriptionTested => Tick + "PR includes testing information"
    case DescriptionBreaking => "Breaking change detected. Ensure proper documentation and version bump."
    case BranchFollows(b) => Tick + "Branch \"" + b + "\" follows naming convention"
    case BranchDeviates(b) => "Branch \"" + b + "\" doesn't follow convention. Use: " + PrefixList
    case BranchNotKebab => "Branch name should be lowercase with hyphens (kebab-case)"
    case RatioGood(c, n) => Tick + Ratio(c, n)
    case RatioFair(c, n) => Ratio(c, n)
    case RatioLow(c, n) => "Only " + Ratio(c, n)
    case PoorCommits(p) => Text.IntToString(p) + " commit(s) have non-descriptive messages. Use meaningful descriptions."
    case SizeLarge(t) => "Large PR: " + Text.IntToString(t) + " lines changed. Consider splitting into smaller PRs for easier review."
    case SizeMedium(t) => "Medium PR: " + Text.IntToString(t) + " lines changed. Still reviewable but could be smaller."
    case SizeFine(t) => Tick + "Appropriately sized PR: " + Text.IntToString(t) + " lines changed"
    case ManyFiles(f) => Text.IntToString(f) + " files changed. Large number of files may indicate scope creep."
  }

  // ---------------------------------------------------------------- title

  function TitleLength(r: CheckResult, t: string): CheckResult {
    if |t| < 10 then Report(r, Error, PrTitle, TitleTooShort(|t|), -10)
    else if |t| > 100 then Report(r, Warning, PrTitle, TitleTooLong(|t|), -5)
    else Report(r, Info, PrTitle, TitleLengthOk, 0)
  }

  function TitleFormat(r: CheckResult, t: string): CheckResult {
    if Conventional(t) then Report(r, Info, PrTitle, TitleConventional, 5)
    else Report(r, Warning, PrTitle, TitleNotConventional, -3)
  }

  /** `title[0] !== title[0].toUpperCase()`, for a title that is not conventional. */
  function TitleCase(r: CheckResult, t: string): CheckResult
    requires t != []
  {
    if Text.IsLowerAscii(t[0]) && !Conventional(t) then Report(r, Info, PrTitle, TitleLowercase, -2)
    else r
  }

  /** What `analyzeTitle` reports: the length, format and case checks, in that order. */
  function TitleCheck(title: Option<string>): CheckResult {
    if Blank(title) then Report(NoResult, Error, PrTitle, EmptyTitle, -20)
    else
      var t := title.value;
      TitleCase(TitleFormat(TitleLength(NoResult, t), t), t)
  }

  method AnalyzeTitle(title: Option<string>) returns (r: CheckResult)
    ensures r == TitleCheck(title)
  {
    var issues: seq<Issue> := [];
    var scoreImpact := 0;
    if Blank(title) {
      issues := issues + [Issue(Error, PrTitle, EmptyTitle)];
      return CheckResult(issues, -20);
    }
    var t := title.value;
    if |t| < 10 {
      issues := issues + [Issue(Error, PrTitle, TitleTooShort(|t|))];
      scoreImpact := scoreImpact - 10;
    } else if |t| > 100 {
      issues := issues + [Issue(Warning, PrTitle, TitleTooLong(|t|))];
      scoreImpact := scoreImpact - 5;
    } else {
      issues := issues + [Issue(Info, PrTitle, TitleLengthOk)];
    }
    if Conventional(t) {
      issues := issues + [Issue(Info, PrTitle, TitleConventional)];
      scoreImpact := scoreImpact + 5;
    } else {
      issues := issues + [Issue(Warning, PrTitle, TitleNotConventional)];
      scoreImpact := scoreImpact - 3;
    }
    if Text.IsLowerAscii(t[0]) && !Conventional(t) {
      issues := issues + [Issue(Info, PrTitle, TitleLowercase)];
      scoreImpact := scoreImpact - 2;
    }
    r := CheckResult(issues, scoreImpact);
  }

  // ---------------------------------------------------------------- description

  function DescriptionLength(r: CheckResult, d: string): CheckResult {
    if |d| < 20 then Report(r, Error, PrDescription, DescriptionTooShort(|d|), -15)
    else if |d| > 1000 then Report(r, Info, PrDescription, DescriptionComprehensive, 5)
    else if |d| > 100 then Report(r, Info, PrDescription, DescriptionAdequate, 3)
    else r
  }

  function DescriptionStructure(r: CheckResult, d: string): CheckResult {
    if HasContext(d) && HasChanges(d) then Report(r, Info, PrDescription, DescriptionStructured, 5) else r
  }

  function DescriptionTesting(r: CheckResult, d: string): CheckResult {
    if HasTesting(d) then Report(r, Info, PrDescription, DescriptionTested, 3) else r
  }

  function DescriptionBreakingCheck(r: CheckResult, d: string): CheckResult {
    if MentionsBreaking(d) then Report(r, Warning, PrDescription, DescriptionBreaking, 0) else r
  }

  /** What `analyzeDescription` reports: the length, structure, testing and breaking-change checks, in that order. */
  function DescriptionCheck(description: Option<string>): CheckResult {
    if Blank(description) then Report(NoResult, Error, PrDescription, EmptyDescription, -20)
    else
      var d := description.value;
      DescriptionBreakingCheck(DescriptionTesting(DescriptionStructure(DescriptionLength(NoResult, d), d), d), d)
  }

  method AnalyzeDescription(description: Option<string>) returns (r: CheckResult)
    ensures r == DescriptionCheck(description)
  {
    var issues: seq<Issue> := [];
    var scoreImpact := 0;
    if Blank(description) {
      issues := issues + [Issue(Error, PrDescription, EmptyDescription)];
      return CheckResult(issues, -20);
    }
    var d := description.value;
    if |d| < 20 {
      issues := issues + [Issue(Error, PrDescription, DescriptionTooShort(|d|))];
      scoreImpact := scoreImpact - 15;
    } else if |d| > 1000 {
      issues := issues + [Issue(Info, PrDescription, DescriptionComprehensive)];
      scoreImpact := scoreImpact + 5;
    } else if |d| > 100 {
      issues := issues + [Issue(Info, PrDescription, DescriptionAdequate)];
      scoreImpact := scoreImpact + 3;
    }
    assert CheckResult(issues, scoreImpact) == DescriptionLength(NoResult, d);
    var hasContext := HasContext(d);
    var hasChanges := HasChanges(d);
    var hasTesting := HasTesting(d);
    if hasContext && hasChanges {
      issues := issues + [Issue(Info, PrDescription, DescriptionStructured)];
      scoreImpact := scoreImpact + 5;
    }
    if hasTesting {
      issues := issues + [Issue(Info, PrDescription, DescriptionTested)];
      scoreImpact := scoreImpact + 3;
    }
    assert CheckResult(issues, scoreImpact) == DescriptionTesting(DescriptionStructure(DescriptionLength(NoResult, d), d), d);
    if MentionsBreaking(d) {
      issues := issues + [Issue(Warning, PrDescription, DescriptionBreaking)];
    }
    r := CheckResult(issues, scoreImpact);
  }

  // ---------------------------------------------------------------- branch

  /** `validBranchPrefixes.some((prefix) => branch.startsWith(prefix))` */
  predicate KnownPrefix(b: string) {
    exists i :: 0 <= i < |BranchPrefixes| && Text.StartsWith(b, BranchPrefixes[i])
  }

  function BranchPrefix(r: CheckResult, b: string): CheckResult {
    if KnownPrefix(b) then Report(r, Info, BranchNaming, BranchFollows(b), 3)
    else Report(r, Warning, BranchNaming, BranchDeviates(b), -5)
  }

  function BranchCase(r: CheckResult, b: string): CheckResult {
    if HasUpperOrSpace(b) then Report(r, Warning, BranchNaming, BranchNotKebab, -3) else r
  }

  /** What `analyzeBranch` reports: nothing for a missing or empty name, else the prefix and the case checks. */
  function BranchCheck(branch: Option<string>): CheckResult {
    if branch.None? || branch.value == [] then NoResult
    else BranchCase(BranchPrefix(NoResult, branch.value), branch.value)
  }

  method AnalyzeBranch(branch: Option<string>) returns (r: CheckResult)
    ensures r == BranchCheck(branch)
  {
    var issues: seq<Issue> := [];
    var scoreImpact := 0;
    if branch.None? || branch.value == [] {
      return CheckResult(issues, scoreImpact);
    }
    var b := branch.value;
    var validPrefix := KnownPrefix(b);
    if validPrefix {
      issues := issues + [Issue(Info, BranchNaming, BranchFollows(b))];
      scoreImpact := scoreImpact + 3;
    } else {
      issues := issues + [Issue(Warning, BranchNaming, BranchDeviates(b))];
      scoreImpact := scoreImpact - 5;
    }
    if HasUpperOrSpace(b) {
      issues := issues + [Issue(Warning, BranchNaming, BranchNotKebab)];
      scoreImpact := scoreImpact - 3;
    }
    r := CheckResult(issues, scoreImpact);
  }

  // ---------------------------------------------------------------- commits

  function IsConventional(m: string): bool { Conventional(m) }

  function IsPoor(m: string): bool { PoorCommit(m) }

  /** The ratio check, in integers: `conventional / total >= 0.8` is `5 * conventional >= 4 * total`, and `>= 0.5` is `2 * conventional >= total`. */
  function RatioCheck(r: CheckResult, conventional: int, total: int): CheckResult {
    if 5 * conventional >= 4 * total then Report(r, Info, CommitMessages, RatioGood(conventional, total), 5)
    else if 2 * conventional >= total then Report(r, Info, CommitMessages, RatioFair(conventional, total), 0)
    else Report(r, Warning, CommitMessages, RatioLow(conventional, total), -3)
  }

  function PoorCheck(r: CheckResult, poor: int): CheckResult {
    if poor > 0 then Report(r, Warning, CommitMessages, PoorCommits(poor), -2 * poor) else r
  }

  /** What `analyzeCommits` reports: nothing for no commits, else the ratio and the non-descriptive checks. */
  function CommitCheck(commits: seq<string>): CheckResult {
    if commits == [] then NoResult
    else PoorCheck(RatioCheck(NoResult, Lists.Count(commits, IsConventional), |commits|), Lists.Count(commits, IsPoor))
  }

  /** The counting loop of `analyzeCommits`. */
  method CountCommits(commits: seq<string>) returns (conventionalCommits: int, poorCommits: int)
    ensures conventionalCommits == Lists.Count(commits, IsConventional)
    ensures poorCommits == Lists.Count(commits, IsPoor)
  {
    conventionalCommits, poorCommits := 0, 0;
    var i := 0;
    while i < |commits|
      invariant 0 <= i <= |commits|
      invariant conventionalCommits == Lists.Count(commits[..i], IsConventional)
      invariant poorCommits == Lists.Count(commits[..i], IsPoor)
    {
      var message := commits[i];
      Lists.CountStep(commits, IsConventional, i);
      Lists.CountStep(commits, IsPoor, i);
      if Conventional(message) {
        conventionalCommits := conventionalCommits + 1;
      }
      if PoorCommit(message) {
        poorCommits := poorCommits + 1;
      }
      i := i + 1;
    }
    assert commits[..i] == commits;
  }

  method AnalyzeCommits(commits: seq<string>) returns (r: CheckResult)
    ensures r == CommitCheck(commits)
  {
    var issues: seq<Issue> := [];
    var scoreImpact := 0;
    if commits == [] {
      return CheckResult(issues, scoreImpact);
    }
    var conventionalCommits, poorCommits := CountCommits(commits);
    if 5 * conventionalCommits >= 4 * |commits| {
      issues := issues + [Issue(Info, CommitMessages, RatioGood(conventionalCommits, |commits|))];
      scoreImpact := scoreImpact + 5;
    } else if 2 * conventionalCommits >= |commits| {
      issues := issues + [Issue(Info, CommitMessages, RatioFair(conventionalCommits, |commits|))];
    } else {
      issues := issues + [Issue(Warning, CommitMessages, RatioLow(conventionalCommits, |commits|))];
      scoreImpact := scoreImpact - 3;
    }
    if poorCommits > 0 {
      issues := issues + [Issue(Warning, CommitMessages, PoorCommits(poorCommits))];
      scoreImpact := scoreImpact - poorCommits * 2;
    }
    r := CheckResult(issues, scoreImpact);
  }

  // ---------------------------------------------------------------- size

  /** `prData.additions || 0` and the like: a missing count is 0. */
  function TotalChanges(pr: PrData): int { pr.additions.GetOr(0) + pr.deletions.GetOr(0) }

  function SizeBucket(r: CheckResult, total: int): CheckResult {
    if total > 1000 then Report(r, Warning, PrSize, SizeLarge(total), -10)
    else if total > 500 then Report(r, Info, PrSize, SizeMedium(total), -3)
    else Report(r, Info, PrSize, SizeFine(total), 3)
  }

  function FileCount(r: CheckResult, files: int): CheckResult {
    if files > 30 then Report(r, Warning, PrSize, ManyFiles(files), -5) else r
  }

  /** What `analyzePRSize` reports: the changed-line bucket, then the file-count check. */
  function SizeCheck(pr: PrData): CheckResult {
    FileCount(SizeBucket(NoResult, TotalChanges(pr)), pr.changedFiles.GetOr(0))
  }

  method AnalyzePrSize(pr: PrData) returns (r: CheckResult)
    ensures r == SizeCheck(pr)
  {
    var issues: seq<Issue> := [];
    var scoreImpact := 0;
    var additions := pr.additions.GetOr(0);
    var deletions := pr.deletions.GetOr(0);
    var changedFiles := pr.changedFiles.GetOr(0);
    var totalChanges := additions + deletions;
    if totalChanges > 1000 {
      issues := issues + [Issue(Warning, PrSize, SizeLarge(totalChanges))];
      scoreImpact := scoreImpact - 10;
    } else if totalChanges > 500 {
      issues := issues + [Issue(Info, PrSize, SizeMedium(totalChanges))];
      scoreImpact := scoreImpact - 3;
    } else {
      issues := issues + [Issue(Info, PrSize, SizeFine(totalChanges))];
      scoreImpact := scoreImpact + 3;
    }
    if changedFiles > 30 {
      issues := issues + [Issue(Warning, PrSize, ManyFiles(changedFiles))];
      scoreImpact := scoreImpact - 5;
    }
    r := CheckResult(issues, scoreImpact);
  }

  // ---------------------------------------------------------------- analyze

  /** Every step's result in order; the commit step only when commits are supplied. */
  function AllChecks(pr: PrData): CheckResult {
    Then(Then(Then(Then(TitleCheck(pr.title), DescriptionCheck(pr.description)), BranchCheck(pr.branch)),
              if pr.commits.Some? then CommitCheck(pr.commits.value) else NoResult),
         SizeCheck(pr))
  }

  /** `Math.max(0, Math.min(100, score))` */
  function Clamp(score: int): (r: int)
    ensures 0 <= r <= 100
    ensures 0 <= score <= 100 ==> r == score
    ensures score < 0 ==> r == 0
    ensures score > 100 ==> r == 100
  {
    if score < 0 then 0 else if score > 100 then 100 else score
  }

  method Analyze(pr: PrData) returns (r: Analysis)
    ensures r.score == Clamp(100 + AllChecks(pr).scoreImpact)
    ensures r.issues == AllChecks(pr).issues
    ensures r.metadata == Metadata(pr.title, pr.description, pr.branch, pr.additions, pr.deletions, pr.changedFiles)
  {
    var issues: seq<Issue> := [];
    var score := 100;
    // `done` is the part of `AllChecks(pr)` accumulated so far.
    ghost var done: CheckResult;

    var titleResult := AnalyzeTitle(pr.title);
    issues := issues + titleResult.issues;
    score := score + titleResult.scoreImpact;
    assert issues == titleResult.issues;
    done := titleResult;

    var descResult := AnalyzeDescription(pr.description);
    issues := issues + descResult.issues;
    score := score + descResult.scoreImpact;
    done := Then(done, descResult);

    var branchResult := AnalyzeBranch(pr.branch);
    issues := issues + branchResult.issues;
    score := score + branchResult.scoreImpact;
    done := Then(done, branchResult);

    if pr.commits.Some? {
      var commitResult := AnalyzeCommits(pr.commits.value);
      issues := issues + commitResult.issues;
      score := score + commitResult.scoreImpact;
      done := Then(done, commitResult);
    } else {
      assert issues + [] == issues;
      done := Then(done, NoResult);
    }
    assert issues == done.issues && score == 100 + done.scoreImpact;

    var sizeResult := AnalyzePrSize(pr);
    issues := issues + sizeResult.issues;
    score := score + sizeResult.scoreImpact;
    done := Then(done, sizeResult);

    r := Analysis(if score < 0 then 0 else if score > 100 then 100 else score, issues,
                  Metadata(pr.title, pr.description, pr.branch, pr.additions, pr.deletions, pr.changedFiles));
  }

  // ---------------------------------------------------------------- properties

  /** Every issue in `r` belongs to category `c`. */
  predicate AllIn(r: CheckResult, c: Category) {
    forall i :: 0 <= i < |r.issues| ==> r.issues[i].category == c
  }

  /**
   * A blank title is one error costing 20; any other title gets a length verdict and a format
   * verdict, plus the case hint exactly when it starts with a lower-case letter and is not
   * conventional, for an impact between -15 and +5.
   */
  lemma TitleCheckShape(title: Option<string>)
    ensures Blank(title) ==> TitleCheck(title) == CheckResult([Issue(Error, PrTitle, EmptyTitle)], -20)
    ensures !Blank(title) ==>
      var t := title.value;
      && 2 <= |TitleCheck(title).issues| <= 3
      && -15 <= TitleCheck(title).scoreImpact <= 5
      && (|TitleCheck(title).issues| == 3 <==> Text.IsLowerAscii(t[0]) && !Conventional(t))
      && (TitleCheck(title).issues[1] == Issue(Info, PrTitle, TitleConventional) <==> Conventional(t))
    ensures AllIn(TitleCheck(title), PrTitle)
  {
  }

  /**
   * A blank description is one error costing 20; otherwise the impact lies between -15 and +13,
   * and a breaking-change mention adds its warning and leaves the score alone.
   */
  lemma DescriptionCheckShape(description: Option<string>)
    ensures Blank(description) ==> DescriptionCheck(description) == CheckResult([Issue(Error, PrDescription, EmptyDescription)], -20)
    ensures !Blank(description) ==> -15 <= DescriptionCheck(description).scoreImpact <= 13
    ensures !Blank(description) ==>
      (Issue(Warning, PrDescription, DescriptionBreaking) in DescriptionCheck(description).issues <==> MentionsBreaking(description.value))
    ensures AllIn(DescriptionCheck(description), PrDescription)
  {
    if !Blank(description) {
      var d := description.value;
      var length := DescriptionLength(NoResult, d);
      var before := DescriptionTesting(DescriptionStructure(length, d), d);
      DescriptionSteps(NoResult, d);
      DescriptionSteps(length, d);
      DescriptionSteps(DescriptionStructure(length, d), d);
      DescriptionSteps(before, d);
      BreakingWarningSteps(NoResult, d);
      BreakingWarningSteps(length, d);
      BreakingWarningSteps(DescriptionStructure(length, d), d);
      BreakingWarningSteps(before, d);
      assert Issue(Warning, PrDescription, DescriptionBreaking) !in before.issues;
    }
  }

  /** What each step of the description check may add to the result so far. */
  lemma DescriptionSteps(r: CheckResult, d: string)
    ensures -15 <= DescriptionLength(r, d).scoreImpact - r.scoreImpact <= 5
    ensures DescriptionStructure(r, d).scoreImpact - r.scoreImpact in {0, 5}
    ensures DescriptionTesting(r, d).scoreImpact - r.scoreImpact in {0, 3}
    ensures DescriptionBreakingCheck(r, d).scoreImpact == r.scoreImpact
    ensures AllIn(r, PrDescription) ==>
      AllIn(DescriptionLength(r, d), PrDescription) && AllIn(DescriptionStructure(r, d), PrDescription)
      && AllIn(DescriptionTesting(r, d), PrDescription) && AllIn(DescriptionBreakingCheck(r, d), PrDescription)
  {
  }

  /** Only the last step of the description check adds the breaking-change warning. */
  lemma BreakingWarningSteps(r: CheckResult, d: string)
    ensures Issue(Warning, PrDescription, DescriptionBreaking) !in r.issues ==>
      && Issue(Warning, PrDescription, DescriptionBreaking) !in DescriptionLength(r, d).issues
      && Issue(Warning, PrDescription, DescriptionBreaking) !in DescriptionStructure(r, d).issues
      && Issue(Warning, PrDescription, DescriptionBreaking) !in DescriptionTesting(r, d).issues
      && (Issue(Warning, PrDescription, DescriptionBreaking) in DescriptionBreakingCheck(r, d).issues <==> MentionsBreaking(d))
  {
  }

  /**
   * A missing or empty branch name reports nothing; any other name gets exactly one prefix
   * verdict, the approving one exactly when it has a known prefix, for an impact of 3, 0, -5 or -8.
   */
  lemma BranchCheckShape(branch: Option<string>)
    ensures branch.None? || branch.value == [] ==> BranchCheck(branch) == NoResult
    ensures branch.Some? && branch.value != [] ==>
      var r := BranchCheck(branch);
      && 1 <= |r.issues| <= 2
      && r.scoreImpact in {3, 0, -5, -8}
      && (r.issues[0] == Issue(Info, BranchNaming, BranchFollows(branch.value)) <==> KnownPrefix(branch.value))
      && (|r.issues| == 2 <==> HasUpperOrSpace(branch.value))
    ensures AllIn(BranchCheck(branch), BranchNaming)
  {
  }

  /** A larger share of conventional commits never lowers the ratio bonus. */
  lemma RatioMonotone(c1: int, c2: int, total: int)
    requires c1 <= c2
    ensures RatioCheck(NoResult, c1, total).scoreImpact <= RatioCheck(NoResult, c2, total).scoreImpact
  {
  }

  /**
   * No commits report nothing; otherwise the impact is the ratio bonus (+5, 0 or -3) less two
   * points per non-descriptive commit, so it lies between `-3 - 2 * |commits|` and +5.
   */
  lemma CommitCheckShape(commits: seq<string>)
    ensures commits == [] ==> CommitCheck(commits) == NoResult
    ensures commits != [] ==>
      CommitCheck(commits).scoreImpact == RatioCheck(NoResult, Lists.Count(commits, IsConventional), |commits|).scoreImpact - 2 * Lists.Count(commits, IsPoor)
    ensures -3 - 2 * |commits| <= CommitCheck(commits).scoreImpact <= 5
    ensures AllIn(CommitCheck(commits), CommitMessages)
  {
  }

  /** All commits conventional and none of them non-descriptive: one approving line and +5. */
  lemma CleanCommits(commits: seq<string>)
    requires commits != []
    requires forall i :: 0 <= i < |commits| ==> Conventional(commits[i]) && !PoorCommit(commits[i])
    ensures CommitCheck(commits) == CheckResult([Issue(Info, CommitMessages, RatioGood(|commits|, |commits|))], 5)
  {
    Lists.CountExtremes(commits, IsConventional);
    Lists.CountExtremes(commits, IsPoor);
  }

  /** `prData.additions || 0`: a missing count reads as zero. */
  lemma SizeMissingIsZero(pr: PrData)
    ensures SizeCheck(pr) == SizeCheck(pr.(additions := Some(pr.additions.GetOr(0)),
                                           deletions := Some(pr.deletions.GetOr(0)),
                                           changedFiles := Some(pr.changedFiles.GetOr(0))))
  {
  }

  /** The size verdict: one or two size issues, for an impact between -15 and +3. */
  lemma SizeCheckShape(pr: PrData)
    ensures -15 <= SizeCheck(pr).scoreImpact <= 3
    ensures 1 <= |SizeCheck(pr).issues| <= 2 && AllIn(SizeCheck(pr), PrSize)
  {
  }

  /** A bigger change never scores better on size. */
  lemma SizeCheckMonotone(pr: PrData, bigger: PrData)
    requires TotalChanges(pr) <= TotalChanges(bigger) && pr.changedFiles.GetOr(0) <= bigger.changedFiles.GetOr(0)
    ensures SizeCheck(bigger).scoreImpact <= SizeCheck(pr).scoreImpact
  {
  }

  /**
   * The total impact lies between -63 (less the commit penalties) and +29: without commits
   * the score is at least 37, and a pull request that gets every bonus is clamped to 100.
   */
  lemma AllChecksBounds(pr: PrData)
    ensures pr.commits.None? ==> -63 <= AllChecks(pr).scoreImpact <= 24
    ensures pr.commits.Some? ==> -66 - 2 * |pr.commits.value| <= AllChecks(pr).scoreImpact <= 29
    ensures pr.commits.None? ==> Clamp(100 + AllChecks(pr).scoreImpact) >= 37
  {
    var commits := if pr.commits.Some? then CommitCheck(pr.commits.value) else NoResult;
    assert AllChecks(pr).scoreImpact
        == TitleCheck(pr.title).scoreImpact + DescriptionCheck(pr.description).scoreImpact
         + BranchCheck(pr.branch).scoreImpact + commits.scoreImpact + SizeCheck(pr).scoreImpact;
    StepImpacts(pr);
    if pr.commits.Some? {
      CommitCheckShape(pr.commits.value);
    }
  }

  /** The range of each step's impact, commits aside. */
  lemma StepImpacts(pr: PrData)
    ensures -20 <= TitleCheck(pr.title).scoreImpact <= 5
    ensures -20 <= DescriptionCheck(pr.description).scoreImpact <= 13
    ensures -8 <= BranchCheck(pr.branch).scoreImpact <= 3
    ensures -15 <= SizeCheck(pr).scoreImpact <= 3
  {
    TitleCheckShape(pr.title);
    DescriptionCheckShape(pr.description);
    BranchCheckShape(pr.branch);
    SizeCheckShape(pr);
  }

  /** `fix: correct typo` follows the conventional format; `Fix typo` and `update readme` do not. */
  lemma ConventionalExamples()
    ensures Conventional("fix: correct typo")
    ensures !Conventional("Fix typo")
    ensures !Conventional("update readme")
  {
    assert Text.StartsWith("fix: correct typo", CommitTypes[1]);
    assert ConventionalRest("fix: correct typo"[|CommitTypes[1]|..]);
    forall i | 0 <= i < |CommitTypes|
      ensures !Text.StartsWith("Fix typo", CommitTypes[i]) && !Text.StartsWith("update readme", CommitTypes[i])
    {
      assert CommitTypes[i][0] != 'F' && CommitTypes[i][0] != 'u';
    }
  }

  /** A title starting with a letter is not blank. */
  lemma NonBlankTitle(t: string)
    requires t != [] && (Text.IsLowerAscii(t[0]) || Text.IsUpperAscii(t[0]))
    ensures !Blank(Some(t))
  {
    assert !Text.IsWhitespace(t[0]);
  }

  /** A conventional title of reasonable length earns the format bonus and nothing else. */
  lemma ConventionalTitleExample()
    ensures TitleCheck(Some("fix: correct typo")) ==
      CheckResult([Issue(Info, PrTitle, TitleLengthOk), Issue(Info, PrTitle, TitleConventional)], 5)
  {
    var t := "fix: correct typo";
    ConventionalExamples();
    NonBlankTitle(t);
    var length := TitleLength(NoResult, t);
    assert length == CheckResult([Issue(Info, PrTitle, TitleLengthOk)], 0);
    var format := TitleFormat(length, t);
    assert format.issues == [Issue(Info, PrTitle, TitleLengthOk), Issue(Info, PrTitle, TitleConventional)];
    assert TitleCase(format, t) == format;
  }

  /** A lower-case title outside the conventional format loses the format points and the case points. */
  lemma LowercaseTitleExample()
    ensures TitleCheck(Some("update readme")) ==
      CheckResult([Issue(Info, PrTitle, TitleLengthOk), Issue(Warning, PrTitle, TitleNotConventional), Issue(Info, PrTitle, TitleLowercase)], -5)
  {
    var t := "update readme";
    ConventionalExamples();
    NonBlankTitle(t);
    var length := TitleLength(NoResult, t);
    assert length == CheckResult([Issue(Info, PrTitle, TitleLengthOk)], 0);
    var format := TitleFormat(length, t);
    assert format.issues == [Issue(Info, PrTitle, TitleLengthOk), Issue(Warning, PrTitle, TitleNotConventional)];
    assert Text.IsLowerAscii(t[0]);
  }
}
