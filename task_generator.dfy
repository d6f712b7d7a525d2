/** The task planner: complexity estimates, custom task breakdowns, commit counts, and the
    refinement of an existing plan (removal, splitting, re-estimation, renumbering). The project
    name the planner extracts from the description with regular expressions is a parameter. */
module TaskGenerator {
  import opened Wrappers
  import opened Collections
  import Strings
  import opened TaskTemplates

  const DefaultMaxLoc: int := 500

  /** The constraints dict as supplied; any key may be absent. */
  datatype Constraints = Constraints(maxLocPerCommit: Option<int>, includeTests: Option<bool>, includeDocs: Option<bool>)

  /** The constraints after `setdefault`. */
  datatype Settings = Settings(maxLocPerCommit: int, includeTests: bool, includeDocs: bool)

  /** Absent keys take the defaults 500, true and true; given values are kept. */
  function WithDefaults(c: Constraints): (s: Settings)
    ensures c.maxLocPerCommit.Some? ==> s.maxLocPerCommit == c.maxLocPerCommit.value
    ensures c.maxLocPerCommit.None? ==> s.maxLocPerCommit == DefaultMaxLoc
    ensures s.includeTests == (c.includeTests.None? || c.includeTests.value)
    ensures s.includeDocs == (c.includeDocs.None? || c.includeDocs.value)
  {
    Settings(
      if c.maxLocPerCommit.Some? then c.maxLocPerCommit.value else DefaultMaxLoc,
      if c.includeTests.Some? then c.includeTests.value else true,
      if c.includeDocs.Some? then c.includeDocs.value else true)
  }

  /** Python's `a // b`, which rounds toward negative infinity. */
  function FloorDiv(a: int, b: int): (q: int)
    requires b != 0
    ensures b > 0 ==> b * q <= a < b * q + b
    ensures b < 0 ==> b * q >= a > b * q + b
  {
    if b > 0 then a / b else (-a) / (-b)
  }

  function SumLoc(ts: seq<Task>): int
  {
    if |ts| == 0 then 0 else SumLoc(ts[..|ts| - 1]) + ts[|ts| - 1].estimatedLoc
  }

  /** `_calculate_commits`: `max(1, ceil(total / max_loc))`; a zero limit raises
      `ZeroDivisionError`. */
  function Commits(totalLoc: int, maxLoc: int): (r: Result<int, string>)
    ensures r.Err? <==> maxLoc == 0
    ensures r.Ok? ==> r.value >= 1
  {
    if maxLoc == 0 then Err("ZeroDivisionError") else Ok(Max(1, FloorDiv(totalLoc + maxLoc - 1, maxLoc)))
  }

  /** With a positive limit the commit count is the ceiling of total / limit, and 1 when there
      is nothing to write. */
  lemma CommitsCeiling(totalLoc: int, maxLoc: int)
    requires maxLoc > 0
    ensures var c := Commits(totalLoc, maxLoc).value;
      && (totalLoc <= 0 ==> c == 1)
      && (totalLoc > 0 ==> (c - 1) * maxLoc < totalLoc <= c * maxLoc)
  {
    var q := FloorDiv(totalLoc + maxLoc - 1, maxLoc);
    assert maxLoc * q <= totalLoc + maxLoc - 1 < maxLoc * q + maxLoc;
    assert maxLoc * (q - 1) == maxLoc * q - maxLoc;
  }

  /** Complexity estimation. */

  const FeatureKeywords: seq<string> :=
    ["analyze", "generate", "search", "find", "create", "update", "delete", "monitor", "track", "integrate", "parse", "process"]

  datatype Indicators = Indicators(async: bool, database: bool, api: bool, caching: bool, realTime: bool)

  datatype Level = Low | Medium | High
  {
    function Rank(): nat
    {
      match this
      case Low => 0
      case Medium => 1
      case High => 2
    }
  }

  datatype Estimate = Estimate(featureCount: nat, indicators: Indicators, estimatedLoc: int, estimatedHours: real, level: Level)

  function DetectIndicators(description: string): Indicators
  {
    var d := Strings.Lower(description);
    Indicators(
      Strings.Contains(d, "async") || Strings.Contains(d, "concurrent"),
      Strings.Contains(d, "database") || Strings.Contains(d, "sqlite") || Strings.Contains(d, "postgres"),
      Strings.Contains(d, "api") || Strings.Contains(d, "http"),
      Strings.Contains(d, "cache"),
      Strings.Contains(d, "real-time") || Strings.Contains(d, "websocket"))
  }

  function ActiveCount(ind: Indicators): (n: nat)
    ensures n <= 5
  {
    (if ind.async then 1 else 0) + (if ind.database then 1 else 0) + (if ind.api then 1 else 0)
    + (if ind.caching then 1 else 0) + (if ind.realTime then 1 else 0)
  }

  /** `_get_complexity_level`. */
  function ComplexityLevel(totalLoc: int, active: nat): Level
  {
    if totalLoc < 300 && active <= 1 then Low
    else if totalLoc < 600 && active <= 2 then Medium
    else High
  }

  /** More lines or more indicators never give a lower level. */
  lemma LevelMonotone(loc1: int, active1: nat, loc2: int, active2: nat)
    requires loc1 <= loc2 && active1 <= active2
    ensures ComplexityLevel(loc1, active1).Rank() <= ComplexityLevel(loc2, active2).Rank()
  {
  }

  /** `estimate_complexity`; the hours are left unrounded. */
  function EstimateComplexity(description: string): (e: Estimate)
    ensures e.featureCount <= |FeatureKeywords|
    ensures e.estimatedLoc == 200 + 80 * e.featureCount + 100 * ActiveCount(e.indicators)
    ensures e.estimatedHours * 50.0 == e.estimatedLoc as real
    ensures e.level == ComplexityLevel(e.estimatedLoc, ActiveCount(e.indicators))
  {
    var fc := CountContained(Strings.Lower(description), FeatureKeywords);
    var ind := DetectIndicators(description);
    var loc := 200 + fc * 80 + ActiveCount(ind) * 100;
    Estimate(fc, ind, loc, loc as real / 50.0, ComplexityLevel(loc, ActiveCount(ind)))
  }

  /** An estimate lies between 200 and 1660 lines; it is low exactly when no indicator and at
      most one feature keyword is mentioned, and high whenever three indicators are. */
  lemma EstimateBounds(description: string)
    ensures var e := EstimateComplexity(description);
      && 200 <= e.estimatedLoc <= 1660
      && (e.level == Low <==> e.featureCount <= 1 && ActiveCount(e.indicators) == 0)
      && (ActiveCount(e.indicators) >= 3 ==> e.level == High)
  {
    LevelOfEstimate(EstimateComplexity(description));
  }

  lemma LevelOfEstimate(e: Estimate)
    requires e.featureCount <= 12 && ActiveCount(e.indicators) <= 5
    requires e.estimatedLoc == 200 + 80 * e.featureCount + 100 * ActiveCount(e.indicators)
    requires e.level == ComplexityLevel(e.estimatedLoc, ActiveCount(e.indicators))
    ensures && 200 <= e.estimatedLoc <= 1660
      && (e.level == Low <==> e.featureCount <= 1 && ActiveCount(e.indicators) == 0)
      && (ActiveCount(e.indicators) >= 3 ==> e.level == High)
  {
  }

  /** Database detection. */

  /** The database types in declaration order with the keywords for each. */
  const DbTypes: seq<(string, seq<string>)> := [
    ("postgres", ["postgres", "postgresql"]), ("mysql", ["mysql"]), ("sqlite", ["sqlite"]),
    ("mongodb", ["mongo", "mongodb"]), ("redis", ["redis"])]

  predicate MentionsAny(text: string, keywords: seq<string>)
  {
    exists k :: 0 <= k < |keywords| && Strings.Contains(text, keywords[k])
  }

  /** The position of the first type one of whose keywords occurs in `text`. */
  function FirstMentioned(text: string, types: seq<(string, seq<string>)>): (r: Option<nat>)
    ensures r.None? <==> forall i :: 0 <= i < |types| ==> !MentionsAny(text, types[i].1)
    ensures r.Some? ==> (r.value < |types| && MentionsAny(text, types[r.value].1) &&
      forall j :: 0 <= j < r.value ==> !MentionsAny(text, types[j].1))
  {
    if |types| == 0 then None
    else if MentionsAny(text, types[0].1) then Some(0)
    else
      var r := FirstMentioned(text, types[1..]);
      assert forall i :: 1 <= i < |types| ==> types[1..][i - 1] == types[i];
      if r.None? then None else Some(r.value + 1)
  }

  /** `_detect_db_type`: the first type mentioned, otherwise sqlite. */
  function DetectDbType(description: string): (r: string)
    ensures var text := Strings.Lower(description);
      || (exists i :: 0 <= i < |DbTypes| && r == DbTypes[i].0 && MentionsAny(text, DbTypes[i].1) &&
            forall j :: 0 <= j < i ==> !MentionsAny(text, DbTypes[j].1))
      || (r == "sqlite" && forall i :: 0 <= i < |DbTypes| ==> !MentionsAny(text, DbTypes[i].1))
  {
    var f := FirstMentioned(Strings.Lower(description), DbTypes);
    if f.Some? then DbTypes[f.value].0 else "sqlite"
  }

  /** Custom generation. */

  /** `list(range(lo, hi))`. */
  function Range(lo: int, hi: int): (r: seq<int>)
    ensures |r| == if hi >= lo then hi - lo else 0
    ensures forall i :: 0 <= i < |r| ==> r[i] == lo + i
  {
    if hi <= lo then [] else seq(hi - lo, i requires 0 <= i < hi - lo => lo + i)
  }

  /** `_generate_custom_tasks`. */
  function CustomTasks(description: string, s: Settings): seq<Task>
  {
    var est := EstimateComplexity(description);
    CustomTasksFor(description, est.estimatedLoc, est.featureCount, s)
  }

  /** The custom breakdown for an estimate of `loc` lines and `featureCount` features. */
  function CustomTasksFor(description: string, loc: int, featureCount: nat, s: Settings): seq<Task>
  {
    var integration := if featureCount > 3 then [CustomIntegrationTask(loc)] else [];
    var testsId := 2 + |integration|;
    var tests := if s.includeTests then [CustomTestsTask(loc, testsId)] else [];
    var docsId := testsId + |tests|;
    var docs := if s.includeDocs then [CustomDocsTask(docsId)] else [];
    [CustomCoreTask(description, loc)] + integration + tests + docs
  }

  function CustomCoreTask(description: string, loc: int): Task
  {
    Task(1, "Implement core functionality", "Core logic based on: " + PyTake(description, 100) + "...",
      loc / 2, [], ["src/core.py"], "core_logic")
  }

  function CustomIntegrationTask(loc: int): Task
  {
    Task(2, "Build interface/integration layer", "External interfaces and integrations", loc / 4, [1],
      ["src/interface.py"], "integration")
  }

  /** The tests task depends on every task before it. */
  function CustomTestsTask(loc: int, id: int): Task
  {
    Task(id, "Write test suite", "Comprehensive tests for all components", loc / 3, Range(1, id),
      ["tests/test_core.py"], "tests")
  }

  function CustomDocsTask(id: int): Task
  {
    Task(id, "Create documentation", "README, usage examples, API docs", 150, [1], ["README.md"], "documentation")
  }

  predicate HasKind(ts: seq<Task>, kind: string)
  {
    exists i :: 0 <= i < |ts| && ts[i].kind == kind
  }

  /** The custom breakdown: the core task first with half the estimate and no dependencies;
      an integration task exactly when more than three features are mentioned; a tests task,
      depending on every earlier task, exactly when tests are wanted; a documentation task
      exactly when docs are wanted; numbered 1..n with dependencies on earlier tasks only. */
  lemma CustomTasksShape(description: string, s: Settings)
    ensures var ts := CustomTasks(description, s);
      var est := EstimateComplexity(description);
      && |ts| >= 1
      && ts[0].kind == "core_logic" && ts[0].estimatedLoc == est.estimatedLoc / 2 && ts[0].dependencies == []
      && (HasKind(ts, "integration") <==> est.featureCount > 3)
      && (HasKind(ts, "tests") <==> s.includeTests)
      && (HasKind(ts, "documentation") <==> s.includeDocs)
      && (forall i :: 0 <= i < |ts| && ts[i].kind == "tests" ==> ts[i].dependencies == Range(1, ts[i].id))
      && WellNumbered(ts)
  {
    var est := EstimateComplexity(description);
    CustomShapeFor(description, est.estimatedLoc, est.featureCount, s);
  }

  lemma CustomShapeFor(description: string, loc: int, fc: nat, s: Settings)
    ensures var ts := CustomTasksFor(description, loc, fc, s);
      && |ts| >= 1
      && ts[0].kind == "core_logic" && ts[0].estimatedLoc == loc / 2 && ts[0].dependencies == []
      && (HasKind(ts, "integration") <==> fc > 3)
      && (HasKind(ts, "tests") <==> s.includeTests)
      && (HasKind(ts, "documentation") <==> s.includeDocs)
      && (forall i :: 0 <= i < |ts| && ts[i].kind == "tests" ==> ts[i].dependencies == Range(1, ts[i].id))
      && WellNumbered(ts)
  {
    CustomKinds(description, loc, fc, s);
    CustomNumbered(description, loc, fc, s);
  }

  /** Which kinds of task the custom breakdown holds. */
  lemma CustomKinds(description: string, loc: int, fc: nat, s: Settings)
    ensures var ts := CustomTasksFor(description, loc, fc, s);
      && (HasKind(ts, "integration") <==> fc > 3)
      && (HasKind(ts, "tests") <==> s.includeTests)
      && (HasKind(ts, "documentation") <==> s.includeDocs)
  {
    var ts := CustomTasksFor(description, loc, fc, s);
    var n := (if fc > 3 then 1 else 0);
    var t := (if s.includeTests then 1 else 0);
    assert |ts| == 1 + n + t + (if s.includeDocs then 1 else 0);
    assert forall i :: 0 <= i < |ts| && ts[i].kind == "integration" ==> i == 1 && fc > 3;
    assert forall i :: 0 <= i < |ts| && ts[i].kind == "tests" ==> i == 1 + n && s.includeTests;
    assert forall i :: 0 <= i < |ts| && ts[i].kind == "documentation" ==> i == |ts| - 1 && s.includeDocs;
    if fc > 3 {
      assert ts[1].kind == "integration";
    }
    if s.includeTests {
      assert ts[1 + n].kind == "tests";
    }
    if s.includeDocs {
      assert ts[|ts| - 1].kind == "documentation";
    }
  }

  /** The custom breakdown is numbered 1..n, and the tests task depends on every earlier one. */
  lemma CustomNumbered(description: string, loc: int, fc: nat, s: Settings)
    ensures var ts := CustomTasksFor(description, loc, fc, s);
      && |ts| >= 1
      && ts[0].kind == "core_logic" && ts[0].estimatedLoc == loc / 2 && ts[0].dependencies == []
      && (forall i :: 0 <= i < |ts| && ts[i].kind == "tests" ==> ts[i].dependencies == Range(1, ts[i].id))
      && WellNumbered(ts)
  {
    var ts := CustomTasksFor(description, loc, fc, s);
    var n := (if fc > 3 then 1 else 0);
    var t := (if s.includeTests then 1 else 0);
    assert |ts| == 1 + n + t + (if s.includeDocs then 1 else 0);
    assert forall i :: 0 <= i < |ts| ==> ts[i].id == i + 1;
    forall i, k | 0 <= i < |ts| && 0 <= k < |ts[i].dependencies| ensures 1 <= ts[i].dependencies[k] < ts[i].id {
    }
  }

  /** Plans. */

  datatype Plan = Plan(
    project: string, description: string, template: string, totalEstimatedLoc: int,
    commitsNeeded: int, maxLocPerCommit: int, tasks: seq<Task>, taskCount: int)

  /** The totals of a plan agree with its tasks. */
  predicate Consistent(p: Plan)
  {
    p.totalEstimatedLoc == SumLoc(p.tasks) && p.taskCount == |p.tasks| &&
    Commits(p.totalEstimatedLoc, p.maxLocPerCommit) == Ok(p.commitsNeeded)
  }

  /** The tasks of a plan: a registered template other than `custom`, else custom generation. */
  function PlanTasks(description: string, template: string, s: Settings, ctx: Context): seq<Task>
  {
    if template != "custom" && GetTemplate(template).Some? then GenerateTasks(GetTemplate(template).value, ctx)
    else CustomTasks(description, s)
  }

  /** `generate_task_plan`. */
  function GenerateTaskPlan(description: string, template: string, constraints: Constraints, projectName: string)
    : (r: Result<Plan, string>)
    ensures r.Ok? ==>
      && r.value.project == projectName && r.value.description == description && r.value.template == template
      && r.value.maxLocPerCommit == WithDefaults(constraints).maxLocPerCommit
  {
    var s := WithDefaults(constraints);
    var ctx := Context(description, s.includeTests, s.includeDocs, projectName, projectName, DetectDbType(description));
    var tasks := PlanTasks(description, template, s, ctx);
    var total := SumLoc(tasks);
    var commits := Commits(total, s.maxLocPerCommit);
    if commits.Err? then Err(commits.error)
    else Ok(Plan(projectName, description, template, total, commits.value, s.maxLocPerCommit, tasks, |tasks|))
  }

  /** A plan fails only for a zero commit size; otherwise its totals agree with its tasks, which
      are numbered 1..n with dependencies on earlier tasks, and an unknown template name gives
      the custom breakdown. */
  lemma GeneratedPlan(description: string, template: string, constraints: Constraints, projectName: string)
    ensures var r := GenerateTaskPlan(description, template, constraints, projectName);
      && (r.Err? <==> WithDefaults(constraints).maxLocPerCommit == 0)
      && (r.Ok? ==> Consistent(r.value) && WellNumbered(r.value.tasks) && r.value.template == template)
      && (r.Ok? && GetTemplate(template).None? ==> r.value.tasks == CustomTasks(description, WithDefaults(constraints)))
  {
    var s := WithDefaults(constraints);
    var ctx := Context(description, s.includeTests, s.includeDocs, projectName, projectName, DetectDbType(description));
    if template != "custom" && GetTemplate(template).Some? {
      TemplatesWellNumbered(GetTemplate(template).value, ctx);
    } else {
      CustomTasksShape(description, s);
    }
  }

  /** Splitting. */

  /** The `split_count` copies of `t`, titled by part, each with `loc // split_count` lines; a
      negative count gives none. */
  function Parts(t: Task, n: int): (r: seq<Task>)
    requires n != 0
    ensures |r| == Max(0, n)
    ensures forall k :: 0 <= k < |r| ==>
      r[k] == t.(title := t.title + " - Part " + Strings.NatToString(k + 1), estimatedLoc := FloorDiv(t.estimatedLoc, n))
  {
    seq(Max(0, n), k requires 0 <= k < Max(0, n) =>
      t.(title := t.title + " - Part " + Strings.NatToString(k + 1), estimatedLoc := FloorDiv(t.estimatedLoc, n)))
  }

  /** What one task becomes: its parts when it carries `taskId`, else itself. A zero count
      never gets here for a matching task, as the division raises first. */
  function Piece(t: Task, taskId: int, n: int): (r: seq<Task>)
    ensures t.id == taskId ==> |r| == Max(0, n) && forall k :: 0 <= k < |r| ==> r[k].id == taskId
    ensures t.id != taskId ==> r == [t]
  {
    if t.id != taskId then [t] else if n == 0 then [] else Parts(t, n)
  }

  /** The tasks with every task of id `taskId` replaced by its parts, ids not yet renumbered. */
  function Expanded(ts: seq<Task>, taskId: int, n: int): seq<Task>
  {
    if |ts| == 0 then [] else Expanded(ts[..|ts| - 1], taskId, n) + Piece(ts[|ts| - 1], taskId, n)
  }

  /** Ids 1..n in list order. */
  function Renumbered(ts: seq<Task>): (r: seq<Task>)
    ensures |r| == |ts| && forall i :: 0 <= i < |ts| ==> r[i] == ts[i].(id := i + 1)
  {
    seq(|ts|, i requires 0 <= i < |ts| => ts[i].(id := i + 1))
  }

  /** `_split_task`: a zero count raises as soon as a task matches. */
  function SplitTaskSpec(ts: seq<Task>, taskId: int, n: int): (r: Result<seq<Task>, string>)
    ensures r.Ok? ==> forall i :: 0 <= i < |r.value| ==> r.value[i].id == i + 1
    ensures r.Ok? && n != 0 ==> |r.value| == |ts| + (Max(0, n) - 1) * CountId(ts, taskId)
  {
    if n == 0 && exists i :: 0 <= i < |ts| && ts[i].id == taskId then Err("ZeroDivisionError")
    else
      var e := Expanded(ts, taskId, n);
      assert n != 0 ==> |e| == |ts| + (Max(0, n) - 1) * CountId(ts, taskId) by {
        if n != 0 { ExpandedLength(ts, taskId, n); }
      }
      Ok(Renumbered(e))
  }

  /** `result` is `src` with ids 1..n. */
  predicate Numbers(result: seq<Task>, src: seq<Task>)
  {
    |result| == |src| && forall j :: 0 <= j < |src| ==> result[j] == src[j].(id := j + 1)
  }

  function CountId(ts: seq<Task>, taskId: int): nat
  {
    if |ts| == 0 then 0 else CountId(ts[..|ts| - 1], taskId) + (if ts[|ts| - 1].id == taskId then 1 else 0)
  }

  /** Splitting adds `split_count - 1` tasks per matching task and keeps the other tasks, in
      their order; a part keeps the task's id until renumbering, so the parts are exactly the
      tasks carrying it. */
  lemma {:induction false} ExpandedLength(ts: seq<Task>, taskId: int, n: int)
    requires n != 0
    ensures |Expanded(ts, taskId, n)| == |ts| + (Max(0, n) - 1) * CountId(ts, taskId)
  {
    if |ts| > 0 {
      var m := |ts| - 1;
      ExpandedLength(ts[..m], taskId, n);
      var e0 := Expanded(ts[..m], taskId, n);
      var p := Piece(ts[m], taskId, n);
      assert Expanded(ts, taskId, n) == e0 + p;
      LengthStep(m, |e0|, |p|, CountId(ts[..m], taskId), CountId(ts, taskId), Max(0, n) - 1, ts[m].id == taskId);
    }
  }

  /** The arithmetic of one step of `ExpandedLength`. */
  lemma LengthStep(len: int, e0: int, p: int, c: int, k: int, d: int, hit: bool)
    requires e0 == len + d * c
    requires hit ==> p == d + 1 && k == c + 1
    requires !hit ==> p == 1 && k == c
    ensures e0 + p == len + 1 + d * k
  {
    if hit {
      assert d * k == d * c + d;
    }
  }

  /** The tasks not carrying `taskId`, in order. */
  function Others(ts: seq<Task>, taskId: int): (r: seq<Task>)
    ensures forall i :: 0 <= i < |r| ==> r[i] in ts && r[i].id != taskId
  {
    if |ts| == 0 then []
    else
      var front := Others(ts[..|ts| - 1], taskId);
      assert forall t :: t in ts[..|ts| - 1] ==> t in ts;
      front + (if ts[|ts| - 1].id != taskId then [ts[|ts| - 1]] else [])
  }

  lemma {:induction false} OthersAppend(a: seq<Task>, b: seq<Task>, taskId: int)
    ensures Others(a + b, taskId) == Others(a, taskId) + Others(b, taskId)
    decreases |b|
  {
    if |b| == 0 {
      assert a + b == a;
    } else {
      var m := |b| - 1;
      assert (a + b)[..|a + b| - 1] == a + b[..m];
      OthersAppend(a, b[..m], taskId);
    }
  }

  lemma {:induction false} OthersNone(b: seq<Task>, taskId: int)
    requires forall i :: 0 <= i < |b| ==> b[i].id == taskId
    ensures Others(b, taskId) == []
  {
    if |b| > 0 {
      OthersNone(b[..|b| - 1], taskId);
    }
  }

  lemma {:induction false} ExpandedOthers(ts: seq<Task>, taskId: int, n: int)
    requires n != 0
    ensures Others(Expanded(ts, taskId, n), taskId) == Others(ts, taskId)
  {
    if |ts| > 0 {
      var m := |ts| - 1;
      ExpandedOthers(ts[..m], taskId, n);
      var piece := Piece(ts[m], taskId, n);
      OthersAppend(Expanded(ts[..m], taskId, n), piece, taskId);
      if ts[m].id == taskId {
        OthersNone(piece, taskId);
      } else {
        assert Others(piece, taskId) == [ts[m]] by {
          assert piece[..0] == [];
        }
      }
    }
  }

  /** Renumbering. */

  /** The first position holding a task with id `id`, or -1. */
  function PosOf(ts: seq<Task>, id: int): (p: int)
    ensures -1 <= p < |ts|
    ensures p == -1 <==> forall j :: 0 <= j < |ts| ==> ts[j].id != id
    ensures p >= 0 ==> ts[p].id == id && forall j :: 0 <= j < p ==> ts[j].id != id
  {
    if |ts| == 0 then -1
    else
      var p := PosOf(ts[..|ts| - 1], id);
      assert forall j :: 0 <= j < |ts| - 1 ==> ts[..|ts| - 1][j] == ts[j];
      if p >= 0 then p else if ts[|ts| - 1].id == id then |ts| - 1 else -1
  }

  /** The dependencies as new ids: each old id is followed to the task that carried it, and an
      id no remaining task carries is dropped. */
  function MapDeps(ts: seq<Task>, deps: seq<int>): (r: seq<int>)
    ensures |r| <= |deps|
  {
    if |deps| == 0 then []
    else
      var front := MapDeps(ts, deps[..|deps| - 1]);
      var p := PosOf(ts, deps[|deps| - 1]);
      if p >= 0 then front + [p + 1] else front
  }

  /** Every mapped dependency is the new id of a task that carried one of the old ids. */
  lemma {:induction false} MapDepsFrom(ts: seq<Task>, deps: seq<int>)
    ensures forall k :: 0 <= k < |MapDeps(ts, deps)| ==>
      exists j :: 0 <= j < |deps| && 0 <= PosOf(ts, deps[j]) && MapDeps(ts, deps)[k] == PosOf(ts, deps[j]) + 1
  {
    if |deps| > 0 {
      var m := |deps| - 1;
      MapDepsFrom(ts, deps[..m]);
      var r := MapDeps(ts, deps);
      var front := MapDeps(ts, deps[..m]);
      var p := PosOf(ts, deps[m]);
      assert r == if p >= 0 then front + [p + 1] else front;
      forall k | 0 <= k < |r|
        ensures exists j :: 0 <= j < |deps| && 0 <= PosOf(ts, deps[j]) && r[k] == PosOf(ts, deps[j]) + 1
      {
        if k < |front| {
          assert r[k] == front[k];
          assert exists j :: 0 <= j < |deps[..m]| && 0 <= PosOf(ts, deps[..m][j]) && front[k] == PosOf(ts, deps[..m][j]) + 1;
          var j :| 0 <= j < |deps[..m]| && 0 <= PosOf(ts, deps[..m][j]) && front[k] == PosOf(ts, deps[..m][j]) + 1;
          assert deps[..m][j] == deps[j];
        } else {
          assert 0 <= PosOf(ts, deps[m]) && r[k] == PosOf(ts, deps[m]) + 1;
        }
      }
    } else {
      assert MapDeps(ts, deps) == [];
    }
  }

  /** Renumbering as intended: ids 1..n in order, dependencies followed to their tasks. */
  function RenumberIntended(ts: seq<Task>): (r: seq<Task>)
    ensures |r| == |ts|
    ensures forall i :: 0 <= i < |ts| ==> r[i] == ts[i].(id := i + 1, dependencies := MapDeps(ts, ts[i].dependencies))
  {
    seq(|ts|, i requires 0 <= i < |ts| => ts[i].(id := i + 1, dependencies := MapDeps(ts, ts[i].dependencies)))
  }

  predicate IdsIncreasing(ts: seq<Task>)
  {
    forall i, j :: 0 <= i < j < |ts| ==> ts[i].id < ts[j].id
  }

  predicate DepsEarlier(ts: seq<Task>)
  {
    forall i, k :: 0 <= i < |ts| && 0 <= k < |ts[i].dependencies| ==> ts[i].dependencies[k] < ts[i].id
  }

  /** When ids increase along the list and tasks only depend on smaller ids, the intended
      renumbering numbers 1..n and keeps every dependency on an earlier task. */
  lemma IntendedWellNumbered(ts: seq<Task>)
    requires IdsIncreasing(ts) && DepsEarlier(ts)
    ensures WellNumbered(RenumberIntended(ts))
  {
    var r := RenumberIntended(ts);
    forall i, k | 0 <= i < |r| && 0 <= k < |r[i].dependencies| ensures 1 <= r[i].dependencies[k] < r[i].id {
      MappedDepEarlier(ts, i, k);
    }
  }

  /** A mapped dependency of the task at position `i` is the new id of an earlier task. */
  lemma MappedDepEarlier(ts: seq<Task>, i: nat, k: nat)
    requires IdsIncreasing(ts) && DepsEarlier(ts) && i < |ts|
    requires k < |MapDeps(ts, ts[i].dependencies)|
    ensures 1 <= MapDeps(ts, ts[i].dependencies)[k] <= i
  {
    var deps := ts[i].dependencies;
    MapDepsFrom(ts, deps);
    var kd :| 0 <= kd < |deps| && 0 <= PosOf(ts, deps[kd]) && MapDeps(ts, deps)[k] == PosOf(ts, deps[kd]) + 1;
    var p := PosOf(ts, deps[kd]);
    assert ts[p].id == deps[kd] < ts[i].id;
  }


  /** `[tasks[i-1]['id'] for i in deps if i <= len(tasks)]` over the list as it stands mid-loop:
      Python's negative indices count from the end, and one before the start raises. */
  function RemapAsWritten(cur: seq<Task>, deps: seq<int>): Result<seq<int>, string>
  {
    if |deps| == 0 then Ok([])
    else
      var front := RemapAsWritten(cur, deps[..|deps| - 1]);
      var i := deps[|deps| - 1];
      var slot := if i - 1 >= 0 then i - 1 else i - 1 + |cur|;
      if front.Err? then front
      else if i > |cur| then front
      else if 0 <= slot < |cur| then Ok(front.value + [cur[slot].id])
      else Err("IndexError")
  }

  /** The renumbering loop of `refine_task_plan` from position `k` on: each task takes the id
      `k + 1`, then reads its dependencies as positions into the partly renumbered list. */
  function RenumberAsWrittenFrom(ts: seq<Task>, k: nat): Result<seq<Task>, string>
    requires k <= |ts|
    decreases |ts| - k
  {
    if k == |ts| then Ok(ts)
    else
      var cur := ts[k := ts[k].(id := k + 1)];
      var deps := RemapAsWritten(cur, ts[k].dependencies);
      if deps.Err? then Err(deps.error)
      else RenumberAsWrittenFrom(cur[k := cur[k].(dependencies := deps.value)], k + 1)
  }

  function RenumberAsWritten(ts: seq<Task>): Result<seq<Task>, string>
  {
    RenumberAsWrittenFrom(ts, 0)
  }

  /** Some dependency lies before the start of a list of `n` tasks even as a negative index, so
      `tasks[i-1]` raises `IndexError`. */
  predicate BadDep(n: int, deps: seq<int>)
  {
    exists j :: 0 <= j < |deps| && deps[j] <= -n
  }

  /** `r` is `ts` with only ids and dependencies changed. */
  predicate SameExceptNumbering(r: seq<Task>, ts: seq<Task>)
  {
    |r| == |ts| && forall i :: 0 <= i < |ts| ==> r[i] == ts[i].(id := r[i].id, dependencies := r[i].dependencies)
  }

  /** The dependency comprehension raises exactly on a dependency at or below `-len(tasks)`;
      otherwise it keeps at most the dependencies it was given. */
  lemma {:induction false} RemapErrIff(cur: seq<Task>, deps: seq<int>)
    ensures RemapAsWritten(cur, deps).Err? <==> BadDep(|cur|, deps)
    ensures RemapAsWritten(cur, deps).Ok? ==> |RemapAsWritten(cur, deps).value| <= |deps|
  {
    if |deps| > 0 {
      var front := deps[..|deps| - 1];
      RemapErrIff(cur, front);
      if BadDep(|cur|, front) {
        var j :| 0 <= j < |front| && front[j] <= -|cur|;
        assert deps[j] == front[j];
      }
    }
  }

  /** The as-written loop from position `k` on raises exactly when a task not yet reached has a
      dependency at or below `-len(tasks)`; otherwise it numbers those tasks by position and
      changes nothing but ids and dependencies. */
  lemma {:induction false} AsWrittenFromProps(ts: seq<Task>, k: nat)
    requires k <= |ts|
    ensures RenumberAsWrittenFrom(ts, k).Err? <==> exists i :: k <= i < |ts| && BadDep(|ts|, ts[i].dependencies)
    ensures var r := RenumberAsWrittenFrom(ts, k);
      r.Ok? ==> && SameExceptNumbering(r.value, ts)
                && (forall i :: 0 <= i < k ==> r.value[i] == ts[i])
                && (forall i :: k <= i < |ts| ==> r.value[i].id == i + 1)
    decreases |ts| - k
  {
    if k < |ts| {
      var cur := ts[k := ts[k].(id := k + 1)];
      RemapErrIff(cur, ts[k].dependencies);
      var deps := RemapAsWritten(cur, ts[k].dependencies);
      if deps.Ok? {
        var next := cur[k := cur[k].(dependencies := deps.value)];
        AsWrittenFromProps(next, k + 1);
        assert forall i :: k < i < |ts| ==> next[i] == ts[i];
        var r := RenumberAsWrittenFrom(next, k + 1);
        if r.Ok? {
          assert r.value[k] == next[k];
        }
      }
    }
  }

  /** `refine_task_plan`'s renumbering raises exactly on a dependency at or below
      `-len(tasks)`; otherwise tasks are numbered 1..n and keep everything but their ids and
      dependencies. */
  lemma AsWrittenProps(ts: seq<Task>)
    ensures RenumberAsWritten(ts).Err? <==> exists i :: 0 <= i < |ts| && BadDep(|ts|, ts[i].dependencies)
    ensures var r := RenumberAsWritten(ts);
      r.Ok? ==> SameExceptNumbering(r.value, ts) && forall i :: 0 <= i < |ts| ==> r.value[i].id == i + 1
  {
    AsWrittenFromProps(ts, 0);
  }

  /** Which renumbering refinement uses: the source's, or the evidently intended one. */
  datatype Renumbering = AsWritten | Corrected

  function Renumber(ts: seq<Task>, how: Renumbering): Result<seq<Task>, string>
  {
    match how
    case AsWritten => RenumberAsWritten(ts)
    case Corrected => Ok(RenumberIntended(ts))
  }

  /** On a plan already numbered 1..n both renumberings change nothing. */
  lemma RenumberingsAgreeWhenNumbered(ts: seq<Task>)
    requires WellNumbered(ts)
    ensures RenumberAsWritten(ts) == Ok(ts)
    ensures RenumberIntended(ts) == ts
  {
    AsWrittenFixes(ts, 0);
    IntendedFixes(ts);
  }

  lemma IntendedFixes(ts: seq<Task>)
    requires WellNumbered(ts)
    ensures RenumberIntended(ts) == ts
  {
    var r := RenumberIntended(ts);
    forall i | 0 <= i < |ts| ensures r[i] == ts[i] {
      MapDepsNumbered(ts, ts[i].dependencies);
    }
  }

  lemma {:induction false} AsWrittenFixes(ts: seq<Task>, k: nat)
    requires WellNumbered(ts) && k <= |ts|
    ensures RenumberAsWrittenFrom(ts, k) == Ok(ts)
    decreases |ts| - k
  {
    if k < |ts| {
      assert ts[k := ts[k].(id := k + 1)] == ts;
      RemapNumbered(ts, ts[k].dependencies);
      assert ts[k := ts[k].(dependencies := ts[k].dependencies)] == ts;
      AsWrittenFixes(ts, k + 1);
    }
  }

  lemma {:induction false} RemapNumbered(ts: seq<Task>, deps: seq<int>)
    requires forall i :: 0 <= i < |ts| ==> ts[i].id == i + 1
    requires forall k :: 0 <= k < |deps| ==> 1 <= deps[k] <= |ts|
    ensures RemapAsWritten(ts, deps) == Ok(deps)
  {
    if |deps| > 0 {
      RemapNumbered(ts, deps[..|deps| - 1]);
      assert deps == deps[..|deps| - 1] + [deps[|deps| - 1]];
    }
  }

  lemma {:induction false} MapDepsNumbered(ts: seq<Task>, deps: seq<int>)
    requires forall i :: 0 <= i < |ts| ==> ts[i].id == i + 1
    requires forall k :: 0 <= k < |deps| ==> 1 <= deps[k] <= |ts|
    ensures MapDeps(ts, deps) == deps
  {
    if |deps| > 0 {
      MapDepsNumbered(ts, deps[..|deps| - 1]);
      var d := deps[|deps| - 1];
      assert ts[d - 1].id == d;
      assert PosOf(ts, d) == d - 1;
      assert deps == deps[..|deps| - 1] + [deps[|deps| - 1]];
    }
  }

  /** Removing task 1 from a plan whose other tasks depend on it, as `refine_task_plan` does for
      `remove_task_ids=[1]` on a custom plan, makes the first remaining task depend on itself. */
  lemma AsWrittenSelfDependency(a: Task, b: Task)
    requires a.dependencies == [1] && b.dependencies == [1]
    ensures RenumberAsWritten([a, b]) == Ok([a.(id := 1), b.(id := 2)])
    ensures !WellNumbered(RenumberAsWritten([a, b]).value)
  {
    var s1 := [a, b][0 := a.(id := 1)];
    RemapSingle(s1, 1);
    var s1' := s1[0 := s1[0].(dependencies := [1])];
    var s2 := s1'[1 := s1'[1].(id := 2)];
    RemapSingle(s2, 1);
    var r := s2[1 := s2[1].(dependencies := [1])];
    assert r == [a.(id := 1), b.(id := 2)];
    assert RenumberAsWrittenFrom(r, 2) == Ok(r);
    assert RenumberAsWrittenFrom(s1', 1) == RenumberAsWrittenFrom(r, 2);
    assert RenumberAsWrittenFrom([a, b], 0) == RenumberAsWrittenFrom(s1', 1);
    assert r[0].dependencies[0] == r[0].id;
  }

  lemma RemapSingle(cur: seq<Task>, i: int)
    requires 1 <= i <= |cur|
    ensures RemapAsWritten(cur, [i]) == Ok([cur[i - 1].id])
  {
    var one := [i];
    assert one[..0] == [];
    assert RemapAsWritten(cur, one[..0]) == Ok([]);
    assert RemapAsWritten(cur, one[..0]).value + [cur[i - 1].id] == [cur[i - 1].id];
  }

  /** On the same input the intended renumbering drops the dependency on the removed task. */
  lemma IntendedDropsRemoved(a: Task, b: Task)
    requires a.id == 2 && b.id == 3 && a.dependencies == [1] && b.dependencies == [1]
    ensures RenumberIntended([a, b]) == [a.(id := 1, dependencies := []), b.(id := 2, dependencies := [])]
  {
    assert PosOf([a, b], 1) == -1;
  }

  /** Estimates. */

  /** `adjust_estimates`: each task whose id is a key takes that key's estimate. */
  function AdjustLoc(ts: seq<Task>, adj: Dict<int, int>): (r: seq<Task>)
    ensures |r| == |ts|
    ensures forall i :: 0 <= i < |ts| ==>
      r[i] == (if HasKey(adj, ts[i].id) then ts[i].(estimatedLoc := Get(adj, ts[i].id).value) else ts[i])
  {
    seq(|ts|, i requires 0 <= i < |ts| =>
      if HasKey(adj, ts[i].id) then ts[i].(estimatedLoc := Get(adj, ts[i].id).value) else ts[i])
  }

  /** Refinement. */

  datatype Adjustments = Adjustments(
    removeTaskIds: Option<set<int>>, removeTaskTypes: Option<set<string>>,
    splitTaskId: Option<int>, splitCount: Option<int>, adjustEstimates: Option<Dict<int, int>>)

  /** The tasks that survive removal by id and then by type. */
  function Survivors(ts: seq<Task>, adj: Adjustments): seq<Task>
  {
    var a := if adj.removeTaskIds.Some? then Filter(ts, (t: Task) => t.id !in adj.removeTaskIds.value) else ts;
    if adj.removeTaskTypes.Some? then Filter(a, (t: Task) => t.kind !in adj.removeTaskTypes.value) else a
  }

  /** The refined task list: removal, splitting, new estimates, then renumbering. Without a
      split the corrected renumbering cannot fail; whenever refinement succeeds the tasks are
      numbered 1..n. */
  function RefineTasks(ts: seq<Task>, adj: Adjustments, how: Renumbering): (r: Result<seq<Task>, string>)
    ensures adj.splitTaskId.None? && how == Corrected ==> r.Ok?
    ensures r.Ok? ==> forall i :: 0 <= i < |r.value| ==> r.value[i].id == i + 1
  {
    var b := Survivors(ts, adj);
    var c := if adj.splitTaskId.Some?
      then SplitTaskSpec(b, adj.splitTaskId.value, if adj.splitCount.Some? then adj.splitCount.value else 2)
      else Ok(b);
    if c.Err? then c
    else
      var d := if adj.adjustEstimates.Some? then AdjustLoc(c.value, adj.adjustEstimates.value) else c.value;
      AsWrittenProps(d);
      Renumber(d, how)
  }

  /** `refine_task_plan`: the other keys of the plan are kept and its totals recomputed. */
  function RefinePlan(plan: Plan, adj: Adjustments, how: Renumbering): (r: Result<Plan, string>)
    ensures r.Ok? ==>
      && r.value.project == plan.project && r.value.description == plan.description
      && r.value.template == plan.template && r.value.maxLocPerCommit == plan.maxLocPerCommit
  {
    var ts := RefineTasks(plan.tasks, adj, how);
    if ts.Err? then Err(ts.error)
    else
      var total := SumLoc(ts.value);
      var commits := Commits(total, plan.maxLocPerCommit);
      if commits.Err? then Err(commits.error)
      else Ok(plan.(tasks := ts.value, taskCount := |ts.value|, totalEstimatedLoc := total, commitsNeeded := commits.value))
  }

  /** A refined plan keeps its totals consistent, and it fails only where the task list
      does or where the commit count divides by zero. */
  lemma RefinedTotals(plan: Plan, adj: Adjustments, how: Renumbering)
    ensures var r := RefinePlan(plan, adj, how);
      && (r.Err? <==> RefineTasks(plan.tasks, adj, how).Err? || plan.maxLocPerCommit == 0)
      && (r.Ok? ==> Consistent(r.value) && r.value.tasks == RefineTasks(plan.tasks, adj, how).value)
  {
    var ts := RefineTasks(plan.tasks, adj, how);
    if ts.Ok? {
      var total := SumLoc(ts.value);
      assert Commits(total, plan.maxLocPerCommit).Err? <==> plan.maxLocPerCommit == 0;
    }
  }

  /** Without a split, the corrected refinement cannot fail, and the source's fails exactly on
      a surviving dependency at or below minus the number of survivors; the refined tasks are
      the surviving ones in order, with their titles and types. */
  lemma RefinedSurvivors(ts: seq<Task>, adj: Adjustments, how: Renumbering)
    requires adj.splitTaskId.None?
    ensures var r := RefineTasks(ts, adj, how); var s := Survivors(ts, adj);
      && (r.Err? <==> how == AsWritten && exists i :: 0 <= i < |s| && BadDep(|s|, s[i].dependencies))
      && (r.Ok? ==>
            && |r.value| == |s|
            && forall i :: 0 <= i < |s| ==> r.value[i].title == s[i].title && r.value[i].kind == s[i].kind)
  {
    var s := Survivors(ts, adj);
    var d := if adj.adjustEstimates.Some? then AdjustLoc(s, adj.adjustEstimates.value) else s;
    assert RefineTasks(ts, adj, how) == Renumber(d, how);
    AsWrittenProps(d);
    assert forall i :: 0 <= i < |s| ==> d[i].dependencies == s[i].dependencies;
  }

  /** Removing task 1 from a plan whose other tasks both depend on it, as `remove_task_ids=[1]`
      does: as written, the first remaining task depends on itself; corrected, neither keeps a
      dependency. */
  lemma RefineRemovesFirst(a: Task, b: Task, c: Task)
    requires a.id == 1 && b.id == 2 && c.id == 3 && b.dependencies == [1] && c.dependencies == [1]
    ensures var adj := Adjustments(Some({1}), None, None, None, None);
      && RefineTasks([a, b, c], adj, AsWritten) == Ok([b.(id := 1), c.(id := 2)])
      && RefineTasks([a, b, c], adj, Corrected) == Ok([b.(id := 1, dependencies := []), c.(id := 2, dependencies := [])])
  {
    var adj := Adjustments(Some({1}), None, None, None, None);
    var keep := (t: Task) => t.id !in adj.removeTaskIds.value;
    assert [a, b, c][1..] == [b, c] && [b, c][1..] == [c] && [c][1..] == [];
    assert Filter([c], keep) == [c];
    assert Filter([b, c], keep) == [b, c];
    assert Filter([a, b, c], keep) == [b, c];
    assert Survivors([a, b, c], adj) == [b, c];
    AsWrittenSelfDependency(b, c);
    IntendedDropsRemoved(b, c);
  }

  /** A survivor is a task of the plan whose id and type were not removed. */
  lemma SurvivorsRemoved(ts: seq<Task>, adj: Adjustments)
    ensures var s := Survivors(ts, adj);
      forall i :: 0 <= i < |s| ==>
        && s[i] in ts
        && (adj.removeTaskIds.Some? ==> s[i].id !in adj.removeTaskIds.value)
        && (adj.removeTaskTypes.Some? ==> s[i].kind !in adj.removeTaskTypes.value)
  {
    var s := Survivors(ts, adj);
    var a := if adj.removeTaskIds.Some? then Filter(ts, (t: Task) => t.id !in adj.removeTaskIds.value) else ts;
    forall i | 0 <= i < |s|
      ensures s[i] in ts && (adj.removeTaskIds.Some? ==> s[i].id !in adj.removeTaskIds.value)
    {
      assert s[i] in a;
    }
  }

  /** With the corrected renumbering and no split, a plan whose ids increase and whose tasks
      depend on smaller ids comes back numbered 1..n with dependencies on earlier tasks only. */
  lemma RefinedWellNumbered(ts: seq<Task>, adj: Adjustments)
    requires adj.splitTaskId.None? && IdsIncreasing(ts) && DepsEarlier(ts)
    ensures RefineTasks(ts, adj, Corrected).Ok? && WellNumbered(RefineTasks(ts, adj, Corrected).value)
  {
    var s := Survivors(ts, adj);
    var d := if adj.adjustEstimates.Some? then AdjustLoc(s, adj.adjustEstimates.value) else s;
    SurvivorsOrdered(ts, adj);
    assert IdsIncreasing(d) && DepsEarlier(d);
    IntendedWellNumbered(d);
    assert RefineTasks(ts, adj, Corrected) == Ok(RenumberIntended(d));
  }

  /** Removal keeps ids increasing and dependencies on smaller ids. */
  lemma SurvivorsOrdered(ts: seq<Task>, adj: Adjustments)
    requires IdsIncreasing(ts) && DepsEarlier(ts)
    ensures IdsIncreasing(Survivors(ts, adj)) && DepsEarlier(Survivors(ts, adj))
  {
    var R := (x: Task, y: Task) => x.id < y.id;
    assert Pairwise(ts, R);
    var a := if adj.removeTaskIds.Some? then Filter(ts, (t: Task) => t.id !in adj.removeTaskIds.value) else ts;
    if adj.removeTaskIds.Some? {
      FilterPairwise(ts, (t: Task) => t.id !in adj.removeTaskIds.value, R);
    }
    assert Pairwise(a, R);
    var s := Survivors(ts, adj);
    if adj.removeTaskTypes.Some? {
      FilterPairwise(a, (t: Task) => t.kind !in adj.removeTaskTypes.value, R);
    }
    assert Pairwise(s, R);
    forall i, k | 0 <= i < |s| && 0 <= k < |s[i].dependencies| ensures s[i].dependencies[k] < s[i].id {
      assert s[i] in a;
      var j :| 0 <= j < |ts| && ts[j] == s[i];
    }
  }

  /** `TaskGenerator`: the loops of splitting and refinement. */

  /** `_split_task`, with the running `new_task_id`. */
  method SplitTask(tasks: seq<Task>, taskId: int, splitCount: int) returns (r: Result<seq<Task>, string>)
    ensures r == SplitTaskSpec(tasks, taskId, splitCount)
  {
    var result: seq<Task> := [];
    var newTaskId := 1;
    for i := 0 to |tasks|
      invariant !(splitCount == 0 && exists j :: 0 <= j < i && tasks[j].id == taskId)
      invariant newTaskId == |result| + 1
      invariant Numbers(result, Expanded(tasks[..i], taskId, splitCount))
    {
      var t := tasks[i];
      var before := Expanded(tasks[..i], taskId, splitCount);
      assert tasks[..i + 1][..i] == tasks[..i];
      assert Expanded(tasks[..i + 1], taskId, splitCount) == before + Piece(t, taskId, splitCount);
      if t.id == taskId {
        if splitCount == 0 {
          return Err("ZeroDivisionError");
        }
        result, newTaskId := AppendParts(result, before, t, splitCount, newTaskId);
      } else {
        result := result + [t.(id := newTaskId)];
        newTaskId := newTaskId + 1;
      }
    }
    assert tasks[..|tasks|] == tasks;
    assert result == Renumbered(Expanded(tasks, taskId, splitCount));
    return Ok(result);
  }

  /** The inner loop of `_split_task`: one copy per part, each with the next id. */
  method AppendParts(result: seq<Task>, before: seq<Task>, t: Task, splitCount: int, newTaskId: int)
    returns (r: seq<Task>, next: int)
    requires splitCount != 0 && Numbers(result, before) && newTaskId == |result| + 1
    ensures Numbers(r, before + Parts(t, splitCount)) && next == |r| + 1
  {
    ghost var parts := Parts(t, splitCount);
    var per := FloorDiv(t.estimatedLoc, splitCount);
    r, next := result, newTaskId;
    for k := 0 to Max(0, splitCount)
      invariant next == |r| + 1 && |r| == |before| + k
      invariant forall j :: 0 <= j < |r| ==> r[j] == (before + parts)[j].(id := j + 1)
    {
      r := r + [t.(id := next, title := t.title + " - Part " + Strings.NatToString(k + 1), estimatedLoc := per)];
      next := next + 1;
    }
  }

  /** The nested `adjust_estimates` loops. */
  method AdjustEstimates(tasks: seq<Task>, adj: Dict<int, int>) returns (r: seq<Task>)
    requires UniqueKeys(adj)
    ensures r == AdjustLoc(tasks, adj)
  {
    r := tasks;
    for i := 0 to |adj|
      invariant r == AdjustLoc(tasks, adj[..i])
    {
      var key := adj[i].0;
      var estimate := adj[i].1;
      AdjustStep(tasks, adj, i);
      var before := r;
      for j := 0 to |r|
        invariant |r| == |tasks|
        invariant forall m :: 0 <= m < j ==> r[m] == AdjustLoc(tasks, adj[..i + 1])[m]
        invariant forall m :: j <= m < |r| ==> r[m] == before[m]
      {
        if r[j].id == key {
          r := r[j := r[j].(estimatedLoc := estimate)];
        }
      }
    }
    assert adj[..|adj|] == adj;
  }

  /** One more key of the dict sets the estimate of the tasks carrying it and no others. */
  lemma AdjustStep(tasks: seq<Task>, adj: Dict<int, int>, i: nat)
    requires UniqueKeys(adj) && i < |adj|
    ensures forall m :: 0 <= m < |tasks| ==>
      (AdjustLoc(tasks, adj[..i + 1])[m] ==
       if tasks[m].id == adj[i].0 then AdjustLoc(tasks, adj[..i])[m].(estimatedLoc := adj[i].1) else AdjustLoc(tasks, adj[..i])[m])
  {
    var d := adj[..i];
    assert UniqueKeys(d);
    assert !HasKey(d, adj[i].0);
    assert adj[..i + 1] == Put(d, adj[i].0, adj[i].1);
    forall m | 0 <= m < |tasks| {
      PutGet(d, adj[i].0, adj[i].1, tasks[m].id);
    }
  }

  /** The renumbering loop, as intended. */
  method RenumberTasks(tasks: seq<Task>) returns (r: seq<Task>)
    ensures r == RenumberIntended(tasks)
  {
    r := [];
    for i := 0 to |tasks|
      invariant |r| == i
      invariant forall j :: 0 <= j < i ==> r[j] == tasks[j].(id := j + 1, dependencies := MapDeps(tasks, tasks[j].dependencies))
    {
      r := r + [tasks[i].(id := i + 1, dependencies := MapDeps(tasks, tasks[i].dependencies))];
    }
  }

  /** The renumbering loop as written: each task takes its position as id, then its
      dependencies are read through the partly renumbered list. */
  method RenumberTasksAsWritten(tasks: seq<Task>) returns (r: Result<seq<Task>, string>)
    ensures r == RenumberAsWritten(tasks)
  {
    var cur := tasks;
    for idx := 0 to |tasks|
      invariant |cur| == |tasks|
      invariant RenumberAsWrittenFrom(cur, idx) == RenumberAsWritten(tasks)
    {
      var deps := cur[idx].dependencies;
      cur := cur[idx := cur[idx].(id := idx + 1)];
      var mapped := RemapAsWritten(cur, deps);
      if mapped.Err? {
        return Err(mapped.error);
      }
      cur := cur[idx := cur[idx].(dependencies := mapped.value)];
    }
    return Ok(cur);
  }

  /** `refine_task_plan`, with the renumbering `how`: `AsWritten` is the source's loop. */
  method RefineTaskPlan(plan: Plan, adj: Adjustments, how: Renumbering) returns (r: Result<Plan, string>)
    requires adj.adjustEstimates.Some? ==> UniqueKeys(adj.adjustEstimates.value)
    ensures r == RefinePlan(plan, adj, how)
  {
    var tasks := plan.tasks;
    if adj.removeTaskIds.Some? {
      tasks := Filter(tasks, (t: Task) => t.id !in adj.removeTaskIds.value);
    }
    if adj.removeTaskTypes.Some? {
      tasks := Filter(tasks, (t: Task) => t.kind !in adj.removeTaskTypes.value);
    }
    if adj.splitTaskId.Some? {
      var split := SplitTask(tasks, adj.splitTaskId.value, if adj.splitCount.Some? then adj.splitCount.value else 2);
      if split.Err? {
        return Err(split.error);
      }
      tasks := split.value;
    }
    if adj.adjustEstimates.Some? {
      tasks := AdjustEstimates(tasks, adj.adjustEstimates.value);
    }
    if how == Corrected {
      tasks := RenumberTasks(tasks);
    } else {
      var renumbered := RenumberTasksAsWritten(tasks);
      if renumbered.Err? {
        return Err(renumbered.error);
      }
      tasks := renumbered.value;
    }
    var total := SumLoc(tasks);
    var commits := Commits(total, plan.maxLocPerCommit);
    if commits.Err? {
      return Err(commits.error);
    }
    return Ok(plan.(tasks := tasks, taskCount := |tasks|, totalEstimatedLoc := total, commitsNeeded := commits.value));
  }
}
