// The code metrics report: the blank / comment / code classification of a file's lines,
// the global counters it feeds, and the quality grade of the report.

module MetricsReport {
  import Text

  datatype LineKind = Blank | Comment | Code

  /** What the classifier sees in a trimmed line, tested in the order the classifier tests it. */
  datatype Shape = Empty | LineComment | BlockOpen | Other(closing: bool)

  function ShapeOf(t: string): Shape {
    if t == "" then Empty
    else if Text.StartsWith(t, "//") then LineComment
    else if Text.StartsWith(t, "/*") then BlockOpen
    else Other(Text.EndsWith(t, "*/"))
  }

  /** A line that opens a block comment (after trimming). */
  predicate Opens(t: string) {
    Text.StartsWith(t, "/*")
  }

  /** A line that closes an open block comment: the only kind of line that clears the flag. */
  predicate Closes(t: string) {
    t != "" && !Text.StartsWith(t, "//") && !Text.StartsWith(t, "/*") && Text.EndsWith(t, "*/")
  }

  /** How a line is counted, given whether a block comment is open. */
  function KindOf(s: Shape, inComment: bool): (r: LineKind)
    ensures r == Blank <==> s == Empty
    ensures r == Code ==> !inComment
    ensures s != Empty && (inComment || s == BlockOpen || s == LineComment) ==> r == Comment
  {
    match s
    case Empty => Blank
    case LineComment => Comment
    case BlockOpen => Comment
    case Other(_) => if inComment then Comment else Code
  }

  /** Whether a block comment is open after a line. */
  function FlagAfter(s: Shape, inComment: bool): (r: bool)
    ensures s == Empty || s == LineComment ==> r == inComment
    ensures s == BlockOpen ==> r
    ensures inComment && !r <==> inComment && s == Other(true)
    ensures !inComment && r <==> !inComment && s == BlockOpen
  {
    match s
    case Empty => inComment
    case LineComment => inComment
    case BlockOpen => true
    case Other(closing) => inComment && !closing
  }

  /** The per-file counters and the block-comment flag. */
  datatype Counts = Counts(blank: nat, comment: nat, code: nat, inComment: bool)

  function One(b: bool): nat { if b then 1 else 0 }

  /** The counters after one more line. */
  function Next(c: Counts, s: Shape): Counts {
    Counts(c.blank + One(KindOf(s, c.inComment) == Blank), c.comment + One(KindOf(s, c.inComment) == Comment),
           c.code + One(KindOf(s, c.inComment) == Code), FlagAfter(s, c.inComment))
  }

  /** The shapes of a file's lines, each line trimmed first. */
  function Shapes(lines: seq<string>): (r: seq<Shape>)
    ensures |r| == |lines|
  {
    seq(|lines|, i requires 0 <= i < |lines| => ShapeOf(Text.Trim(lines[i])))
  }

  /** The counters after the first `n` lines of a file; every file starts outside a comment. */
  function Scan(shapes: seq<Shape>, n: nat): Counts
    requires n <= |shapes|
  {
    if n == 0 then Counts(0, 0, 0, false) else Next(Scan(shapes, n - 1), shapes[n - 1])
  }

  /** A block comment opened at line `j` and no line after it, before line `n`, closes it. */
  predicate OpenSince(shapes: seq<Shape>, j: int, n: int)
    requires 0 <= j < n <= |shapes|
  {
    shapes[j] == BlockOpen && forall k :: j < k < n ==> shapes[k] != Other(true)
  }

  /** The global counters of the report. */
  class Metrics {
    var files: nat
    var lines: nat
    var codeLines: nat
    var commentLines: nat
    var blankLines: nat

    /** Every counted line is exactly one of blank, comment and code. */
    predicate Valid()
      reads this
    {
      lines == codeLines + commentLines + blankLines
    }

    constructor ()
      ensures files == 0 && lines == 0 && codeLines == 0 && commentLines == 0 && blankLines == 0
      ensures Valid()
    {
      files, lines, codeLines, commentLines, blankLines := 0, 0, 0, 0, 0;
    }

    /**
     * `analyzeFile` once the file is read: the file is counted and its lines classified.
     * The structure and complexity passes that follow are not part of this model.
     */
    method AnalyzeFile(content: string)
      modifies this
      ensures var lines' := Text.Split(content, '\n');
        && files == old(files) + 1
        && lines == old(lines) + |lines'|
        && blankLines == old(blankLines) + Scan(Shapes(lines'), |lines'|).blank
        && commentLines == old(commentLines) + Scan(Shapes(lines'), |lines'|).comment
        && codeLines == old(codeLines) + Scan(Shapes(lines'), |lines'|).code
      ensures old(Valid()) ==> Valid()
    {
      var fileLines := Text.Split(content, '\n');
      files := files + 1;
      var blank, comment, code := ClassifyLines(fileLines);
      blankLines := blankLines + blank;
      commentLines := commentLines + comment;
      codeLines := codeLines + code;
      lines := lines + |fileLines|;
    }
  }

  /** The classification loop of `analyzeFile`, with the flag starting closed for every file. */
  method ClassifyLines(lines: seq<string>) returns (blank: nat, comment: nat, code: nat)
    ensures blank == Scan(Shapes(lines), |lines|).blank
    ensures comment == Scan(Shapes(lines), |lines|).comment
    ensures code == Scan(Shapes(lines), |lines|).code
    ensures blank + comment + code == |lines|
  {
    blank, comment, code := 0, 0, 0;
    var inComment := false;
    var i := 0;
    while i < |lines|
      invariant 0 <= i <= |lines|
      invariant Scan(Shapes(lines), i) == Counts(blank, comment, code, inComment)
    {
      var trimmed := Text.Trim(lines[i]);
      assert Shapes(lines)[i] == ShapeOf(trimmed);
      blank, comment, code, inComment := ClassifyLine(trimmed, blank, comment, code, inComment);
      i := i + 1;
    }
    ScanTotal(Shapes(lines), |lines|);
  }

  /** One round of the classification loop, on the trimmed line. */
  method ClassifyLine(trimmed: string, blank: nat, comment: nat, code: nat, inComment: bool)
    returns (blank': nat, comment': nat, code': nat, inComment': bool)
    ensures Counts(blank', comment', code', inComment') == Next(Counts(blank, comment, code, inComment), ShapeOf(trimmed))
  {
    blank', comment', code', inComment' := blank, comment, code, inComment;
    if trimmed == "" {
      blank' := blank' + 1;
    } else if Text.StartsWith(trimmed, "//") {
      comment' := comment' + 1;
    } else if Text.StartsWith(trimmed, "/*") {
      inComment' := true;
      comment' := comment' + 1;
    } else if inComment' {
      comment' := comment' + 1;
      if Text.EndsWith(trimmed, "*/") {
        inComment' := false;
      }
    } else {
      code' := code' + 1;
    }
  }

  // ---------------------------------------------------------------- the grade

  /** The issue points of the grade: 2 for many complex methods, 1 each for the other three. */
  function IssuePoints(complexMethods: nat, longMethods: nat, largeClasses: nat, densityOutOfRange: bool): (r: nat)
    ensures r <= 5
    ensures r == 0 <==> complexMethods <= 10 && longMethods <= 5 && largeClasses == 0 && !densityOutOfRange
  {
    (if complexMethods > 10 then 2 else 0) + (if longMethods > 5 then 1 else 0)
      + (if largeClasses > 0 then 1 else 0) + (if densityOutOfRange then 1 else 0)
  }

  /** The rank of a grade letter, 'A' best. */
  function Rank(grade: char): nat {
    if grade == 'A' then 0 else if grade == 'B' then 1 else if grade == 'C' then 2 else 3
  }

  /**
   * The quality grade of `generateReport`. Whether the comment density lies outside the
   * 5 to 15 percent band is given as `densityOutOfRange`.
   */
  method QualityGrade(complexMethods: nat, longMethods: nat, largeClasses: nat, densityOutOfRange: bool)
    returns (grade: char)
    ensures grade in {'A', 'B', 'C', 'D'}
    ensures grade == 'A' <==> IssuePoints(complexMethods, longMethods, largeClasses, densityOutOfRange) <= 1
    ensures grade == 'B' <==> IssuePoints(complexMethods, longMethods, largeClasses, densityOutOfRange) == 2
    ensures grade == 'C' <==> IssuePoints(complexMethods, longMethods, largeClasses, densityOutOfRange) == 3
    ensures grade == 'D' <==> IssuePoints(complexMethods, longMethods, largeClasses, densityOutOfRange) > 3
  {
    grade := 'A';
    var issues := 0;
    if complexMethods > 10 { issues := issues + 2; }
    if longMethods > 5 { issues := issues + 1; }
    if largeClasses > 0 { issues := issues + 1; }
    if densityOutOfRange { issues := issues + 1; }

    if issues > 3 {
      grade := 'D';
    } else if issues > 2 {
      grade := 'C';
    } else if issues > 1 {
      grade := 'B';
    }
  }

  /** The grade a number of issue points earns. */
  function GradeOf(points: nat): (r: char)
    ensures Rank(r) == if points <= 1 then 0 else if points >= 4 then 3 else points - 1
  {
    if points > 3 then 'D' else if points > 2 then 'C' else if points > 1 then 'B' else 'A'
  }

  /** A worse count on any axis never earns a better grade. */
  lemma GradeMonotone(c: nat, l: nat, g: nat, d: bool, c': nat, l': nat, g': nat, d': bool)
    requires c <= c' && l <= l' && g <= g' && (d ==> d')
    ensures IssuePoints(c, l, g, d) <= IssuePoints(c', l', g', d')
    ensures Rank(GradeOf(IssuePoints(c, l, g, d))) <= Rank(GradeOf(IssuePoints(c', l', g', d')))
  {
  }

  // ---------------------------------------------------------------- properties

  /** The shape names what the classifier tests: an opening line and a closing line. */
  lemma ShapeMeaning(t: string)
    ensures ShapeOf(t) == BlockOpen <==> Opens(t)
    ensures ShapeOf(t) == Other(true) <==> Closes(t)
    ensures ShapeOf(t) == Empty <==> t == ""
  {
    if Opens(t) {
      assert t[..2] == "/*";
      assert t[1] == '*';
      assert !Text.StartsWith(t, "//");
    }
  }

  /** Every line lands in exactly one of the three counters. */
  lemma {:induction false} ScanTotal(shapes: seq<Shape>, n: nat)
    requires n <= |shapes|
    ensures Scan(shapes, n).blank + Scan(shapes, n).comment + Scan(shapes, n).code == n
  {
    if n > 0 {
      ScanTotal(shapes, n - 1);
    }
  }

  /**
   * The flag after `n` lines is set exactly when some earlier line opened a block comment
   * and no line since closed it.
   */
  lemma {:induction false} FlagMeaning(shapes: seq<Shape>, n: nat)
    requires n <= |shapes|
    ensures Scan(shapes, n).inComment <==> exists j :: 0 <= j < n && OpenSince(shapes, j, n)
  {
    if n > 0 {
      FlagMeaning(shapes, n - 1);
      var s := shapes[n - 1];
      if Scan(shapes, n).inComment {
        if s != BlockOpen {
          assert Scan(shapes, n - 1).inComment && s != Other(true);
          var j :| 0 <= j < n - 1 && OpenSince(shapes, j, n - 1);
          assert OpenSince(shapes, j, n);
        } else {
          assert OpenSince(shapes, n - 1, n);
        }
      } else {
        forall j | 0 <= j < n
          ensures !OpenSince(shapes, j, n)
        {
          if j < n - 1 {
            assert OpenSince(shapes, j, n) ==> OpenSince(shapes, j, n - 1);
          }
        }
      }
    }
  }

  /** Once a block comment is open, every non-blank line up to the one closing it is a comment. */
  lemma InsideCommentIsComment(shapes: seq<Shape>, n: nat)
    requires n < |shapes| && Scan(shapes, n).inComment && shapes[n] != Empty
    ensures Scan(shapes, n + 1).comment == Scan(shapes, n).comment + 1
    ensures Scan(shapes, n + 1).code == Scan(shapes, n).code
  {
  }
}
