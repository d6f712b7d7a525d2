/** Complexity metrics for a file: the analyzer's per-function scores, or placeholders when
    the analyzer has no cyclomatic calculation, their mean and the functions above the
    threshold. */
module Complexity {
  import opened Wrappers
  import opened Collections

  /** A function's score as an analyzer reports it: a number, or a dict of named metrics. */
  datatype Score = IntScore(n: int) | DictScore(metrics: Dict<string, int>)

  /** What the analyzer's cyclomatic calculation returns: normally a dict from function name
      to score, or some other value. */
  datatype Scores = ScoreDict(scores: Dict<string, Score>) | NotADict

  /** The report; `functionComplexities` is what the analyzer returned. */
  datatype Report = Report(fileComplexity: real, functionComplexities: Scores, highComplexityFunctions: seq<string>)

  const Threshold := 10

  /** The score every function gets without a cyclomatic calculation. */
  const Placeholder: Score := DictScore([("cyclomatic", 1), ("cognitive", 1)])

  /** `score.get("cyclomatic", 0)` for a dict score. */
  function Cyclomatic(metrics: Dict<string, int>): int
  {
    match Get(metrics, "cyclomatic")
    case Some(v) => v
    case None => 0
  }

  predicate High(s: Score)
  {
    match s
    case IntScore(n) => n > Threshold
    case DictScore(m) => Cyclomatic(m) > Threshold
  }

  /** The names whose score is above the threshold, in dict order. */
  function HighNames(d: Dict<string, Score>): (r: seq<string>)
    ensures forall k :: 0 <= k < |r| ==> exists i :: 0 <= i < |d| && d[i].0 == r[k] && High(d[i].1)
    ensures forall i :: 0 <= i < |d| && High(d[i].1) ==> d[i].0 in r
  {
    if d == [] then []
    else
      var rest := HighNames(d[..|d| - 1]);
      assert forall i :: 0 <= i < |d| - 1 ==> d[..|d| - 1][i] == d[i];
      rest + (if High(d[|d| - 1].1) then [d[|d| - 1].0] else [])
  }

  predicate AllInts(d: Dict<string, Score>)
  {
    forall i :: 0 <= i < |d| ==> d[i].1.IntScore?
  }

  function SumInts(d: Dict<string, Score>): int
    requires AllInts(d)
  {
    if d == [] then 0 else SumInts(d[..|d| - 1]) + d[|d| - 1].1.n
  }

  /** `calculate_complexity` once the scores are known. The mean is taken when the first score
      is a number; `sum` then raises a `TypeError` if a later score is a dict. A first score
      that is a dict gives 1. */
  function ReportOf(c: Scores): (r: Result<Report, string>)
    ensures (c.NotADict? || c.scores == []) ==> r == Ok(Report(0.0, c, []))
    ensures c.ScoreDict? && c.scores != [] && AllInts(c.scores) ==>
      r.Ok? && r.value.fileComplexity * |c.scores| as real == SumInts(c.scores) as real
    ensures c.ScoreDict? && c.scores != [] && c.scores[0].1.DictScore? ==> r.Ok? && r.value.fileComplexity == 1.0
    ensures r.Err? <==> c.ScoreDict? && c.scores != [] && c.scores[0].1.IntScore? && !AllInts(c.scores)
    ensures r.Ok? ==> r.value.functionComplexities == c
    ensures r.Ok? && c.ScoreDict? ==> r.value.highComplexityFunctions == HighNames(c.scores)
  {
    if c.NotADict? || c.scores == [] then Ok(Report(0.0, c, []))
    else if c.scores[0].1.IntScore? then
      if AllInts(c.scores) then Ok(Report(SumInts(c.scores) as real / |c.scores| as real, c, HighNames(c.scores)))
      else Err("TypeError")
    else Ok(Report(1.0, c, HighNames(c.scores)))
  }

  /** The placeholder scores for the functions, by name; a repeated name is assigned twice. */
  function Placeholders(names: seq<string>): Dict<string, Score>
  {
    if names == [] then [] else Put(Placeholders(names[..|names| - 1]), names[|names| - 1], Placeholder)
  }

  /** Every function gets exactly one placeholder entry, and nothing else is in the dict. */
  lemma {:induction false} PlaceholdersExact(names: seq<string>)
    ensures UniqueKeys(Placeholders(names))
    ensures forall i :: 0 <= i < |Placeholders(names)| ==> Placeholders(names)[i].1 == Placeholder
    ensures forall n :: HasKey(Placeholders(names), n) <==> n in names
  {
    if names != [] {
      var init := names[..|names| - 1];
      var last := names[|names| - 1];
      PlaceholdersExact(init);
      forall n ensures HasKey(Placeholders(names), n) <==> n in names {
        PutGet(Placeholders(init), last, Placeholder, n);
        assert names == init + [last];
      }
      PutGet(Placeholders(init), last, Placeholder, last);
    }
  }

  /** No score above the threshold, no name in the high list. */
  lemma {:induction false} NoneHigh(d: Dict<string, Score>)
    requires forall i :: 0 <= i < |d| ==> !High(d[i].1)
    ensures HighNames(d) == []
  {
    if d != [] {
      var init := d[..|d| - 1];
      assert forall i :: 0 <= i < |init| ==> init[i] == d[i];
      NoneHigh(init);
    }
  }

  /** With placeholders the file complexity is 1 and no function is above the threshold. */
  lemma PlaceholderReport(names: seq<string>)
    requires names != []
    ensures var r := ReportOf(ScoreDict(Placeholders(names)));
      r.Ok? && r.value.fileComplexity == 1.0 && r.value.highComplexityFunctions == []
  {
    var d := Placeholders(names);
    PlaceholdersExact(names);
    assert names[0] in names;
    assert Cyclomatic(Placeholder.metrics) == 1 by {
      GetAt(Placeholder.metrics, 0);
    }
    NoneHigh(d);
  }

  /** Integer scores: the file complexity is their mean, at most the largest and at least the
      smallest of them. */
  lemma {:induction false} MeanBetween(d: Dict<string, Score>, lo: int, hi: int)
    requires d != [] && AllInts(d)
    requires forall i :: 0 <= i < |d| ==> lo <= d[i].1.n <= hi
    ensures lo * |d| <= SumInts(d) <= hi * |d|
  {
    var init := d[..|d| - 1];
    if init != [] {
      assert forall i :: 0 <= i < |init| ==> init[i] == d[i];
      MeanBetween(init, lo, hi);
    }
  }

  /** `calculate_complexity`: the analyzer's own scores when it has a cyclomatic calculation,
      else a placeholder per function found. */
  method CalculateComplexity(cyclomatic: Option<Scores>, functionNames: seq<string>) returns (r: Result<Report, string>)
    ensures cyclomatic.Some? ==> r == ReportOf(cyclomatic.value)
    ensures cyclomatic.None? ==> r == ReportOf(ScoreDict(Placeholders(functionNames)))
  {
    var complexities: Scores;
    if cyclomatic.Some? {
      complexities := cyclomatic.value;
    } else {
      var d: Dict<string, Score> := [];
      for i := 0 to |functionNames|
        invariant d == Placeholders(functionNames[..i])
      {
        assert functionNames[..i + 1][..i] == functionNames[..i];
        d := Put(d, functionNames[i], Placeholder);
      }
      assert functionNames[..|functionNames|] == functionNames;
      complexities := ScoreDict(d);
    }
    r := ReportOf(complexities);
  }
}
