/** The LINQ query analyzer for Entity Framework Core code: each line holding a LINQ call is
    checked by substring tests for an N+1 risk, synchronous execution and two reorderings. */
module LinqAnalysis {
  import opened Wrappers
  import opened Strings
  import Collections

  datatype Severity = Low | Medium | High
  {
    function Name(): string
    {
      match this
      case Low => "low"
      case Medium => "medium"
      case High => "high"
    }
  }

  /** The issues `_analyze_query` raises. */
  datatype Issue = PotentialNPlusOne | SyncExecution
  {
    function Type(): string
    {
      match this
      case PotentialNPlusOne => "potential_n_plus_1"
      case SyncExecution => "sync_execution"
    }

    function Level(): Severity
    {
      match this
      case PotentialNPlusOne => High
      case SyncExecution => Medium
    }

    function Message(): string
    {
      match this
      case PotentialNPlusOne => "Potential N+1 query problem detected"
      case SyncExecution => "Using synchronous ToList()"
    }

    function Suggestion(): (r: string)
      ensures |r| > 0
    {
      match this
      case PotentialNPlusOne => "Consider using .Include() to eager load related entities"
      case SyncExecution => "Consider using ToListAsync() for async execution"
    }
  }

  /** The suggestions `_analyze_query` makes; both have type "optimization". */
  datatype Suggestion = WhereBeforeSelect | PredicateInFirstOrDefault
  {
    function Type(): string { "optimization" }

    function Message(): string
    {
      match this
      case WhereBeforeSelect => "Consider placing Where before Select for better performance"
      case PredicateInFirstOrDefault => "Consider using FirstOrDefault(predicate) instead of Where().FirstOrDefault()"
    }
  }

  datatype QueryAnalysis = QueryAnalysis(query: string, issues: seq<Issue>, suggestions: seq<Suggestion>)

  datatype Report = Report(totalQueries: nat, analyzedQueries: seq<QueryAnalysis>, issues: seq<Issue>, totalIssues: nat)

  /** A regex match: the half-open range `[start, end)` of `content` it covers. */
  datatype Span = Span(start: int, end: int)

  predicate SpansIn(content: string, spans: seq<Span>)
  {
    forall i :: 0 <= i < |spans| ==> 0 <= spans[i].start <= spans[i].end <= |content|
  }

  // The four checks of `_analyze_query`, as Python `in` and `find` tests.

  predicate NavigationWithoutInclude(q: string)
  {
    !Contains(q, ".Include(") && (Contains(q, "Navigation") || Contains(q, "Related"))
  }

  predicate Synchronous(q: string)
  {
    Contains(q, ".ToList()")
  }

  predicate SelectBeforeWhere(q: string)
  {
    Contains(q, ".Select(") && Contains(q, ".Where(") && Find(q, ".Select(") < Find(q, ".Where(")
  }

  predicate BareFirstOrDefault(q: string)
  {
    Contains(q, ".FirstOrDefault()") && !Contains(q, ".Where(")
  }

  /** What `_analyze_query` returns for one query line. */
  function AnalysisOf(q: string): (r: QueryAnalysis)
    ensures r.query == q
    ensures PotentialNPlusOne in r.issues <==> NavigationWithoutInclude(q)
    ensures SyncExecution in r.issues <==> Synchronous(q)
    ensures WhereBeforeSelect in r.suggestions <==> SelectBeforeWhere(q)
    ensures PredicateInFirstOrDefault in r.suggestions <==> BareFirstOrDefault(q)
    ensures forall i, j :: 0 <= i < j < |r.issues| ==> r.issues[i] == PotentialNPlusOne && r.issues[j] == SyncExecution
    ensures forall i, j :: 0 <= i < j < |r.suggestions| ==>
      r.suggestions[i] == WhereBeforeSelect && r.suggestions[j] == PredicateInFirstOrDefault
  {
    QueryAnalysis(q, IssuesOf(q), SuggestionsOf(q))
  }

  /** The issues of one query, each present exactly when its check fires, in the source's order. */
  function IssuesOf(q: string): (r: seq<Issue>)
    ensures PotentialNPlusOne in r <==> NavigationWithoutInclude(q)
    ensures SyncExecution in r <==> Synchronous(q)
    ensures forall i, j :: 0 <= i < j < |r| ==> r[i] == PotentialNPlusOne && r[j] == SyncExecution
  {
    (if NavigationWithoutInclude(q) then [PotentialNPlusOne] else []) + (if Synchronous(q) then [SyncExecution] else [])
  }

  /** The suggestions of one query, likewise. */
  function SuggestionsOf(q: string): (r: seq<Suggestion>)
    ensures WhereBeforeSelect in r <==> SelectBeforeWhere(q)
    ensures PredicateInFirstOrDefault in r <==> BareFirstOrDefault(q)
    ensures forall i, j :: 0 <= i < j < |r| ==> r[i] == WhereBeforeSelect && r[j] == PredicateInFirstOrDefault
  {
    (if SelectBeforeWhere(q) then [WhereBeforeSelect] else []) + (if BareFirstOrDefault(q) then [PredicateInFirstOrDefault] else [])
  }

  /** The Select-before-Where suggestion, in terms of occurrences: some ".Select(" starts before
      every ".Where(", and there is a ".Where(". */
  lemma SelectBeforeWhereIff(q: string)
    ensures WhereBeforeSelect in AnalysisOf(q).suggestions <==>
      exists i :: OccursAt(q, ".Select(", i) && (exists j :: OccursAt(q, ".Where(", j)) &&
        forall j :: OccursAt(q, ".Where(", j) ==> i < j
  {
    ContainsIff(q, ".Select(");
    ContainsIff(q, ".Where(");
    var s := Find(q, ".Select(");
    var w := Find(q, ".Where(");
    if SelectBeforeWhere(q) {
      assert OccursAt(q, ".Where(", w);
      assert forall j :: OccursAt(q, ".Where(", j) ==> s < j;
    } else {
      forall i | OccursAt(q, ".Select(", i) && (exists j :: OccursAt(q, ".Where(", j))
        ensures exists j :: OccursAt(q, ".Where(", j) && j <= i
      {
        assert s != -1 && s <= i;
        assert w != -1 && OccursAt(q, ".Where(", w) && w <= s;
      }
    }
  }

  /** Every issue carries one of the three severities and a non-empty suggestion. */
  lemma IssuesWellFormed(a: QueryAnalysis)
    requires a == AnalysisOf(a.query)
    ensures forall i :: 0 <= i < |a.issues| ==>
      a.issues[i].Level().Name() in ["low", "medium", "high"] && |a.issues[i].Suggestion()| > 0
    ensures |a.issues| <= 2 && |a.suggestions| <= 2
  {
  }

  /** `_analyze_query`. */
  method AnalyzeQuery(q: string) returns (a: QueryAnalysis)
    ensures a == AnalysisOf(q)
  {
    var issues: seq<Issue> := [];
    var suggestions: seq<Suggestion> := [];
    if NavigationWithoutInclude(q) {
      issues := issues + [PotentialNPlusOne];
    }
    if Synchronous(q) {
      issues := issues + [SyncExecution];
    }
    assert issues == IssuesOf(q);
    if Contains(q, ".Select(") && Contains(q, ".Where(") {
      var selectPos := Find(q, ".Select(");
      var wherePos := Find(q, ".Where(");
      if selectPos < wherePos {
        suggestions := suggestions + [WhereBeforeSelect];
      }
    }
    if BareFirstOrDefault(q) {
      suggestions := suggestions + [PredicateInFirstOrDefault];
    }
    assert suggestions == SuggestionsOf(q);
    a := QueryAnalysis(q, issues, suggestions);
  }

  // Extraction of the query lines.

  /** How the line around a match is cut: as `_extract_linq_queries` slices it, or as the
      slicing is evidently meant to work. */
  datatype Slicing = AsWritten | Corrected

  /** The line around a match as `_extract_linq_queries` slices it: from the preceding newline
      (`rfind` gives -1 when there is none) to the following one (`find` gives -1 likewise). A
      -1 used as a slice bound counts from the end of the content. */
  function LineAsWritten(content: string, start: nat, end: nat): string
    requires start <= end <= |content|
  {
    Strip(Slice(content, RFind(content, "\n", 0, start), FindFrom(content, "\n", end)))
  }

  /** The whole line, or lines, around a match: from just after the preceding newline, or the
      start of the content, to the following newline, or the end of the content. */
  function LineOf(content: string, start: nat, end: nat): string
    requires start <= end <= |content|
  {
    var before := RFind(content, "\n", 0, start);
    var after := FindFrom(content, "\n", end);
    Strip(content[before + 1..if after == -1 then |content| else after])
  }

  function LineBy(how: Slicing, content: string, start: nat, end: nat): string
    requires start <= end <= |content|
  {
    match how
    case AsWritten => LineAsWritten(content, start, end)
    case Corrected => LineOf(content, start, end)
  }

  /** A slice around an occurrence holds it, shifted by the slice's start. */
  lemma SliceHolds(content: string, lo: nat, hi: nat, start: nat, end: nat)
    requires lo <= start <= end <= hi <= |content|
    ensures OccursAt(content[lo..hi], content[start..end], start - lo)
  {
    var t := content[lo..hi];
    assert forall i :: 0 <= i < end - start ==> t[start - lo..end - lo][i] == content[start..end][i];
  }

  /** The corrected line contains the matched call, whatever line of the content it is on. */
  lemma LineHoldsMatch(content: string, start: nat, end: nat)
    requires start < end <= |content|
    requires !IsSpace(content[start]) && !IsSpace(content[end - 1])
    ensures Contains(LineOf(content, start, end), content[start..end])
  {
    var before := RFind(content, "\n", 0, start);
    var after := FindFrom(content, "\n", end);
    var hi := if after == -1 then |content| else after;
    SliceHolds(content, before + 1, hi, start, end);
    StripKeeps(content[before + 1..hi], content[start..end], start - (before + 1));
  }

  /** Between a newline before the match and a newline after it, both slicings agree: the
      source's slice then starts at that newline, which `strip()` removes. */
  lemma AsWrittenInnerLine(content: string, start: nat, end: nat)
    requires start <= end <= |content|
    requires '\n' in content[..start] && '\n' in content[end..]
    ensures LineAsWritten(content, start, end) == LineOf(content, start, end)
  {
    var before := RFind(content, "\n", 0, start);
    var after := FindFrom(content, "\n", end);
    NewlineBefore(content, start);
    NewlineAfter(content, end);
    var whole := content[before..after];
    assert Slice(content, before, after) == whole;
    assert whole[0] == '\n' && whole[1..] == content[before + 1..after];
    assert LStrip(whole) == LStrip(content[before + 1..after]);
  }

  /** With a newline before `start`, `rfind` finds the last one. */
  lemma NewlineBefore(content: string, start: nat)
    requires start <= |content| && '\n' in content[..start]
    ensures var r := RFind(content, "\n", 0, start); 0 <= r < start && content[r] == '\n'
  {
    var i :| 0 <= i < start && content[..start][i] == '\n';
    assert OccursAt(content, "\n", i) by { assert content[i..i + 1] == [content[i]]; }
    var r := RFind(content, "\n", 0, start);
    assert i <= r && OccursAt(content, "\n", r);
    assert content[r] == content[r..r + 1][0];
  }

  /** With a newline at or after `end`, `find` finds the first one. */
  lemma NewlineAfter(content: string, end: nat)
    requires end <= |content| && '\n' in content[end..]
    ensures var r := FindFrom(content, "\n", end); end <= r < |content| && content[r] == '\n'
  {
    var j :| 0 <= j < |content| - end && content[end..][j] == '\n';
    assert OccursAt(content, "\n", end + j) by { assert content[end + j..end + j + 1] == [content[end + j]]; }
    var r := FindFrom(content, "\n", end);
    assert end <= r <= end + j && OccursAt(content, "\n", r);
    assert content[r] == content[r..r + 1][0];
  }


  /** A call on the first line is lost: `rfind` gives -1 and the slice runs from the last
      character. */
  lemma AsWrittenLosesFirstLine()
    ensures LineAsWritten(".ToList()", 0, 9) == ""
    ensures ReportFor(Some(".ToList()"), [Span(0, 9)], AsWritten) == Ok(Report(1, [AnalysisOf("")], [], 0))
  {
    var a := ".ToList()";
    assert RFind(a, "\n", 0, 0) == -1;
    assert FindFrom(a, "\n", 9) == -1;
    assert Slice(a, -1, -1) == "";
    QueriesOfOne(a, Span(0, 9), AsWritten);
    ReportOfOne("");
    assert Find("", "Navigation") == -1 && Find("", "Related") == -1 && Find("", ".ToList()") == -1;
    assert AnalysisOf("").issues == [];
  }

  /** A call on a last line with no newline after it loses its final character: `find` gives
      -1 and the slice stops before the last one. */
  lemma AsWrittenCutsLastLine()
    ensures LineAsWritten("\n.ToList()", 1, 10) == ".ToList("
    ensures !Synchronous(LineAsWritten("\n.ToList()", 1, 10))
  {
    var a := "\n.ToList()";
    assert RFind(a, "\n", 0, 1) == 0 by {
      assert OccursAt(a, "\n", 0);
    }
    assert FindFrom(a, "\n", 10) == -1;
    assert Slice(a, 0, -1) == "\n.ToList(";
    assert LStrip("\n.ToList(") == ".ToList(" by {
      assert "\n.ToList("[1..] == ".ToList(";
    }
    assert !Contains(".ToList(", ".ToList()");
  }

  /** The corrected slicing keeps a call that is alone on the only line, and reports it. */
  lemma LineOfKeepsOnlyLine()
    ensures LineOf(".ToList()", 0, 9) == ".ToList()"
    ensures ReportFor(Some(".ToList()"), [Span(0, 9)], Corrected).value.issues == [SyncExecution]
  {
    var a := ".ToList()";
    OnlyLineKept();
    ReportForOne(a, Span(0, 9), Corrected);
    assert LineBy(Corrected, a, 0, 9) == a;
    ReportOfOne(a);
    ToListIssues();
  }

  /** The corrected line of a call alone in the content is the whole content. */
  lemma OnlyLineKept()
    ensures LineOf(".ToList()", 0, 9) == ".ToList()"
  {
    var a := ".ToList()";
    assert RFind(a, "\n", 0, 0) == -1;
    assert FindFrom(a, "\n", 9) == -1;
    assert a[0..9] == a;
    assert LStrip(a) == a;
    assert RStripSpace(a) == a;
  }

  /** The lone call raises exactly the synchronous-execution issue. */
  lemma ToListIssues()
    ensures AnalysisOf(".ToList()").issues == [SyncExecution]
  {
    var a := ".ToList()";
    assert Synchronous(a) by { assert OccursAt(a, ".ToList()", 0); }
    assert !NavigationWithoutInclude(a) by {
      CharAbsent(a, "Navigation", 0);
      CharAbsent(a, "Related", 0);
    }
  }

  /** A text lacking one of the characters of `sub` does not contain `sub`. */
  lemma CharAbsent(s: string, sub: string, k: nat)
    requires k < |sub| && sub[k] !in s
    ensures !Contains(s, sub)
  {
    ContainsIff(s, sub);
  }

  /** A single match gives its line as the only query. */
  lemma QueriesOfOne(content: string, span: Span, how: Slicing)
    requires 0 <= span.start <= span.end <= |content|
    ensures SpansIn(content, [span])
    ensures Queries(content, [span], how) == [LineBy(how, content, span.start, span.end)]
  {
    var line := LineBy(how, content, span.start, span.end);
    assert Lines(content, [span], how) == [line];
    DedupOne(line);
  }

  lemma DedupOne(x: string)
    ensures Dedup([x]) == [x]
  {
    assert [x][..0] == [];
  }

  /** The report on a single match is the report on its line. */
  lemma ReportForOne(content: string, span: Span, how: Slicing)
    requires 0 <= span.start <= span.end <= |content|
    ensures SpansIn(content, [span])
    ensures ReportFor(Some(content), [span], how) == Ok(ReportOf([LineBy(how, content, span.start, span.end)]))
  {
    QueriesOfOne(content, span, how);
  }

  /** The report on a single query. */
  lemma ReportOfOne(q: string)
    ensures ReportOf([q]) == Report(1, [AnalysisOf(q)], AnalysisOf(q).issues, |AnalysisOf(q).issues|)
  {
    var qa := [AnalysisOf(q)];
    assert Analyses([q]) == qa;
    assert qa[..0] == [];
    assert AllIssues(qa) == AllIssues([]) + qa[0].issues;
  }

  /** The lines of all matches, in match order. */
  function Lines(content: string, spans: seq<Span>, how: Slicing): (r: seq<string>)
    requires SpansIn(content, spans)
    ensures |r| == |spans|
    ensures forall i :: 0 <= i < |spans| ==> r[i] == LineBy(how, content, spans[i].start, spans[i].end)
  {
    seq(|spans|, i requires 0 <= i < |spans| => LineBy(how, content, spans[i].start, spans[i].end))
  }

  /** Keeps the first occurrence of every line, in order. */
  function Dedup(s: seq<string>): (r: seq<string>)
  {
    if s == [] then []
    else
      var d := Dedup(s[..|s| - 1]);
      if s[|s| - 1] in d then d else d + [s[|s| - 1]]
  }

  /** A line is kept exactly when it occurs, and no line is kept twice. */
  lemma {:induction false} DedupExact(s: seq<string>)
    ensures forall x :: x in Dedup(s) <==> x in s
    ensures forall i, j :: 0 <= i < j < |Dedup(s)| ==> Dedup(s)[i] != Dedup(s)[j]
  {
    if s != [] {
      var init := s[..|s| - 1];
      DedupExact(init);
      assert s == init + [s[|s| - 1]];
    }
  }

  /** The query lines `_extract_linq_queries` returns for the given matches: each match's line,
      once. */
  function Queries(content: string, spans: seq<Span>, how: Slicing): (r: seq<string>)
    requires SpansIn(content, spans)
    ensures forall x :: x in r <==> exists i :: 0 <= i < |spans| && x == LineBy(how, content, spans[i].start, spans[i].end)
    ensures forall i, j :: 0 <= i < j < |r| ==> r[i] != r[j]
  {
    var lines := Lines(content, spans, how);
    DedupExact(lines);
    Dedup(lines)
  }

  /** `_extract_linq_queries`, given the matches of its seven patterns in the order they are
      tried. */
  method ExtractLinqQueries(content: string, spans: seq<Span>, how: Slicing) returns (queries: seq<string>)
    requires SpansIn(content, spans)
    ensures queries == Queries(content, spans, how)
  {
    queries := [];
    for i := 0 to |spans|
      invariant queries == Dedup(Lines(content, spans[..i], how))
    {
      var line := LineBy(how, content, spans[i].start, spans[i].end);
      DedupStep(content, spans, i, how);
      if line !in queries {
        queries := queries + [line];
      }
    }
    assert spans[..|spans|] == spans;
  }

  /** One more match adds its line unless it is already there. */
  lemma DedupStep(content: string, spans: seq<Span>, i: nat, how: Slicing)
    requires SpansIn(content, spans) && i < |spans|
    ensures var d := Dedup(Lines(content, spans[..i], how));
      var line := LineBy(how, content, spans[i].start, spans[i].end);
      Dedup(Lines(content, spans[..i + 1], how)) == if line in d then d else d + [line]
  {
    var l := Lines(content, spans[..i + 1], how);
    assert l[..i] == Lines(content, spans[..i], how);
  }

  function Analyses(qs: seq<string>): (r: seq<QueryAnalysis>)
    ensures |r| == |qs|
    ensures forall i :: 0 <= i < |qs| ==> r[i] == AnalysisOf(qs[i])
  {
    Collections.Map(AnalysisOf, qs)
  }

  /** The issues of all analyses, query by query. */
  function AllIssues(qa: seq<QueryAnalysis>): seq<Issue>
  {
    if qa == [] then [] else AllIssues(qa[..|qa| - 1]) + qa[|qa| - 1].issues
  }

  function ReportOf(qs: seq<string>): Report
  {
    var qa := Analyses(qs);
    Report(|qs|, qa, AllIssues(qa), |AllIssues(qa)|)
  }

  /** `analyze`: a missing file raises `FileNotFoundError`; otherwise one analysis per
      extracted query, whose issues, and only those, the report collects, at most two a query. */
  function ReportFor(content: Option<string>, spans: seq<Span>, how: Slicing): (r: Result<Report, string>)
    requires content.Some? ==> SpansIn(content.value, spans)
    ensures r.Err? <==> content.None?
    ensures r.Ok? ==> r.value.totalQueries == |r.value.analyzedQueries| == |Queries(content.value, spans, how)|
    ensures r.Ok? ==> r.value.totalIssues == |r.value.issues| <= 2 * r.value.totalQueries
    ensures r.Ok? ==> forall x :: x in r.value.issues <==>
      exists i :: 0 <= i < |r.value.analyzedQueries| && x in r.value.analyzedQueries[i].issues
  {
    match content
    case None => Err("FileNotFoundError")
    case Some(c) =>
      var qs := Queries(c, spans, how);
      IssueCount(qs);
      forall x { IssuesOfQueries(Analyses(qs), x); }
      Ok(ReportOf(qs))
  }

  /** An issue is reported exactly when some query raises it. */
  lemma {:induction false} IssuesOfQueries(qa: seq<QueryAnalysis>, x: Issue)
    ensures x in AllIssues(qa) <==> exists i :: 0 <= i < |qa| && x in qa[i].issues
  {
    if qa != [] {
      var init := qa[..|qa| - 1];
      IssuesOfQueries(init, x);
      assert forall i :: 0 <= i < |init| ==> init[i] == qa[i];
    }
  }

  /** At most two issues per query. */
  lemma {:induction false} IssueCount(qs: seq<string>)
    ensures |AllIssues(Analyses(qs))| <= 2 * |qs|
  {
    if qs != [] {
      var init := qs[..|qs| - 1];
      IssueCount(init);
      assert Analyses(qs)[..|qs| - 1] == Analyses(init);
      IssuesWellFormed(AnalysisOf(qs[|qs| - 1]));
    }
  }

  /** The issues of the query added last follow those of the queries before it. */
  lemma AllIssuesSnoc(qa: seq<QueryAnalysis>, a: QueryAnalysis)
    ensures AllIssues(qa + [a]) == AllIssues(qa) + a.issues
  {
    assert (qa + [a])[..|qa|] == qa;
  }

  lemma AnalysesSnoc(qs: seq<string>, i: nat)
    requires i < |qs|
    ensures Analyses(qs[..i + 1]) == Analyses(qs[..i]) + [AnalysisOf(qs[i])]
  {
    Collections.MapSnoc(AnalysisOf, qs, i);
  }

  /** An issue a query raises is in the report. */
  lemma QueryIssueReported(qs: seq<string>, q: string, x: Issue)
    requires q in qs && x in AnalysisOf(q).issues
    ensures x in ReportOf(qs).issues
  {
    var i :| 0 <= i < |qs| && qs[i] == q;
    IssuesOfQueries(Analyses(qs), x);
    assert x in Analyses(qs)[i].issues;
  }

  /** A matched call whose line the slicing keeps whole raises its issue in the report. */
  lemma CallReported(content: string, spans: seq<Span>, k: nat, how: Slicing, x: Issue)
    requires SpansIn(content, spans) && k < |spans|
    requires x in AnalysisOf(LineBy(how, content, spans[k].start, spans[k].end)).issues
    ensures x in ReportFor(Some(content), spans, how).value.issues
  {
    var line := LineBy(how, content, spans[k].start, spans[k].end);
    assert line in Queries(content, spans, how);
    QueryIssueReported(Queries(content, spans, how), line, x);
  }

  /** With the corrected slicing, every `.ToList()` call the regex finds yields a
      `sync_execution` issue in the report. */
  lemma SyncCallReported(content: string, spans: seq<Span>, k: nat)
    requires SpansIn(content, spans) && k < |spans|
    requires content[spans[k].start..spans[k].end] == ".ToList()"
    ensures SyncExecution in ReportFor(Some(content), spans, Corrected).value.issues
  {
    var span := spans[k];
    assert content[span.start] == '.' && content[span.end - 1] == ')';
    LineHoldsMatch(content, span.start, span.end);
    CallReported(content, spans, k, Corrected, SyncExecution);
  }

  /** As written, a `.ToList()` call yields a `sync_execution` issue when its line has a
      newline both before and after it. */
  lemma SyncCallReportedAsWritten(content: string, spans: seq<Span>, k: nat)
    requires SpansIn(content, spans) && k < |spans|
    requires content[spans[k].start..spans[k].end] == ".ToList()"
    requires '\n' in content[..spans[k].start] && '\n' in content[spans[k].end..]
    ensures SyncExecution in ReportFor(Some(content), spans, AsWritten).value.issues
  {
    var span := spans[k];
    assert content[span.start] == '.' && content[span.end - 1] == ')';
    LineHoldsMatch(content, span.start, span.end);
    AsWrittenInnerLine(content, span.start, span.end);
    CallReported(content, spans, k, AsWritten, SyncExecution);
  }

  /** `analyze`: extract the query lines, analyze each and collect their issues in order. */
  method Analyze(content: Option<string>, spans: seq<Span>, how: Slicing) returns (r: Result<Report, string>)
    requires content.Some? ==> SpansIn(content.value, spans)
    ensures r == ReportFor(content, spans, how)
  {
    if content.None? {
      return Err("FileNotFoundError");
    }
    var queries := ExtractLinqQueries(content.value, spans, how);
    var analyzed: seq<QueryAnalysis> := [];
    var issues: seq<Issue> := [];
    for i := 0 to |queries|
      invariant analyzed == Analyses(queries[..i])
      invariant issues == AllIssues(analyzed)
    {
      var analysis := AnalyzeQuery(queries[i]);
      AnalysesSnoc(queries, i);
      AllIssuesSnoc(analyzed, analysis);
      analyzed := analyzed + [analysis];
      if analysis.issues != [] {
        issues := issues + analysis.issues;
      }
    }
    assert queries[..|queries|] == queries;
    r := Ok(Report(|queries|, analyzed, issues, |issues|));
  }
}
