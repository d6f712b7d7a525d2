/** Task templates for common development patterns and their registry. A template turns a
    project context into an ordered list of tasks. */
module TaskTemplates {
  import opened Wrappers
  import opened Collections
  import Strings

  /** One task of a plan; `kind` is the `type` key. */
  datatype Task = Task(
    id: int, title: string, description: string, estimatedLoc: int,
    dependencies: seq<int>, filesToCreate: seq<string>, kind: string)

  /** The context the planner passes to a template. */
  datatype Context = Context(
    description: string, includeTests: bool, includeDocs: bool,
    serverName: string, apiName: string, dbType: string)

  datatype Template = McpServer | ApiIntegration | Database | Testing
  {
    function Name(): string
    {
      match this
      case McpServer => "mcp_server"
      case ApiIntegration => "api_integration"
      case Database => "database"
      case Testing => "testing"
    }

    function Description(): string
    {
      match this
      case McpServer => "Build a new MCP server with core logic, tools, tests, and docs"
      case ApiIntegration => "Integrate with external API - client, models, error handling"
      case Database => "Database schema, migrations, and data access layer"
      case Testing => "Testing framework, fixtures, and CI integration"
    }
  }

  /** Ids run 1, 2, ... in list order and every dependency names an earlier task. */
  predicate WellNumbered(ts: seq<Task>)
  {
    && (forall i :: 0 <= i < |ts| ==> ts[i].id == i + 1)
    && (forall i, k :: 0 <= i < |ts| && 0 <= k < |ts[i].dependencies| ==>
          1 <= ts[i].dependencies[k] < ts[i].id)
  }

  /** How many of `words` occur in `text`. */
  function CountContained(text: string, words: seq<string>): (n: nat)
    ensures n <= |words|
    ensures n == |Filter(words, (w: string) => Strings.Contains(text, w))|
  {
    Count(words, (w: string) => Strings.Contains(text, w))
  }

  const ToolKeywords: seq<string> := ["analyze", "generate", "get", "search", "find", "create", "update", "delete"]

  /** `_estimate_tool_count`: the action words mentioned, clamped to 3..8. */
  function EstimateToolCount(description: string): (n: int)
    ensures 3 <= n <= 8
    ensures var c := CountContained(Strings.Lower(description), ToolKeywords);
      (3 <= c <= 8 ==> n == c) && (c < 3 ==> n == 3) && (c > 8 ==> n == 8)
  {
    Max(3, Min(CountContained(Strings.Lower(description), ToolKeywords), 8))
  }

  function Snake(name: string): string { Strings.ReplaceChar(name, '-', '_') }

  /** The core-logic task of the MCP template. */
  function McpCoreTask(name: string): Task
  {
    Task(1, "Create core " + name + " logic", "Implement core analysis/processing logic for " + name, 300, [],
         [name + "/src/__init__.py", name + "/src/" + Snake(name) + "_core.py"], "core_logic")
  }

  /** The server task of the MCP template, sized by the number of tools. */
  function McpToolsTask(name: string, tools: int): Task
  {
    var toolText := Strings.NatToString(if tools < 0 then 0 else tools);
    Task(2, "Build MCP server with " + toolText + " tools",
         "Create MCP server exposing " + toolText + " tools for " + name, 200 + tools * 30, [1],
         [name + "/src/" + Snake(name) + "_server.py"], "mcp_server")
  }

  function McpTestsTask(name: string, id: int): Task
  {
    Task(id, "Write comprehensive test suite",
      "Create unit tests for " + name + " core and integration tests", 250, [1, 2],
      [name + "/tests/test_" + Snake(name) + "_core.py", name + "/tests/test_integration.py"], "tests")
  }

  function McpDocsTask(name: string, id: int): Task
  {
    Task(id, "Create documentation", "Write README with features, usage, and examples", 150, [2],
      [name + "/README.md", name + "/requirements.txt"], "documentation")
  }

  /** The tests and documentation tasks the MCP template appends, numbered from `next`. */
  function McpOptional(ctx: Context, next: int): seq<Task>
  {
    var docsId := if ctx.includeTests then next + 1 else next;
    (if ctx.includeTests then [McpTestsTask(ctx.serverName, next)] else [])
    + (if ctx.includeDocs then [McpDocsTask(ctx.serverName, docsId)] else [])
  }

  /** The MCP template's tasks for a given number of tools. */
  function McpTasksWith(ctx: Context, tools: int): seq<Task>
  {
    [McpCoreTask(ctx.serverName), McpToolsTask(ctx.serverName, tools)] + McpOptional(ctx, 3)
  }

  /** `MCPServerTemplate.generate_tasks`. */
  function McpServerTasks(ctx: Context): seq<Task>
  {
    McpTasksWith(ctx, EstimateToolCount(ctx.description))
  }

  /** The fourth task of the API and database templates. */
  function TestsTask(title: string, description: string, file: string): Task
  {
    Task(4, title, description, 200, [1, 2, 3], [file], "tests")
  }

  /** `APIIntegrationTemplate.generate_tasks`. */
  function ApiIntegrationTasks(ctx: Context): seq<Task>
  {
    var api := ctx.apiName;
    [ Task(1, "Create " + api + " API client", "HTTP client with authentication and request handling", 200, [],
           ["src/" + api + "_client.py"], "api_client"),
      Task(2, "Define data models", "Request/response models with validation", 150, [],
           ["src/" + api + "_models.py"], "models"),
      Task(3, "Implement error handling", "Retry logic, rate limiting, custom exceptions", 100, [1],
           ["src/" + api + "_errors.py"], "error_handling") ]
    + (if ctx.includeTests
       then [TestsTask("Write integration tests", "Mock API responses, test error cases", "tests/test_" + api + "_client.py")]
       else [])
  }

  /** `DatabaseTemplate.generate_tasks`. */
  function DatabaseTasks(ctx: Context): seq<Task>
  {
    [ Task(1, "Define " + ctx.dbType + " schema", "Table definitions, indexes, relationships", 150, [],
           ["src/schema.py"], "schema"),
      Task(2, "Create data access layer", "CRUD operations, queries, transactions", 250, [1],
           ["src/db_access.py"], "data_access"),
      Task(3, "Implement migration system", "Version control for schema changes", 100, [1],
           ["src/migrations.py"], "migrations") ]
    + (if ctx.includeTests
       then [TestsTask("Write database tests", "Test queries, transactions, migrations", "tests/test_db_access.py")]
       else [])
  }

  /** `TestingInfrastructureTemplate.generate_tasks`: the context is not consulted. */
  function TestingTasks(ctx: Context): seq<Task>
  {
    [ Task(1, "Set up pytest configuration", "Configure pytest with plugins, coverage, markers", 50, [],
           ["pytest.ini", "conftest.py"], "configuration"),
      Task(2, "Create test fixtures", "Reusable fixtures for common test scenarios", 150, [1],
           ["tests/fixtures.py"], "fixtures"),
      Task(3, "Add CI/CD integration", "GitHub Actions workflow for automated testing", 100, [1],
           [".github/workflows/test.yml"], "ci_cd") ]
  }

  function GenerateTasks(t: Template, ctx: Context): seq<Task>
  {
    match t
    case McpServer => McpServerTasks(ctx)
    case ApiIntegration => ApiIntegrationTasks(ctx)
    case Database => DatabaseTasks(ctx)
    case Testing => TestingTasks(ctx)
  }

  /** The MCP template: the core task of 300 lines first, then the server task of 200 + 30 per
      tool depending on it, then a tests task exactly when tests are wanted and a documentation
      task exactly when docs are wanted. */
  lemma McpServerShape(ctx: Context)
    ensures var ts := McpServerTasks(ctx);
      && |ts| == 2 + (if ctx.includeTests then 1 else 0) + (if ctx.includeDocs then 1 else 0)
      && ts[0].estimatedLoc == 300 && ts[0].dependencies == [] && ts[0].kind == "core_logic"
      && ts[1].estimatedLoc == 200 + 30 * EstimateToolCount(ctx.description) && ts[1].dependencies == [1]
      && ((exists i :: 0 <= i < |ts| && ts[i].kind == "tests") <==> ctx.includeTests)
      && ((exists i :: 0 <= i < |ts| && ts[i].kind == "documentation") <==> ctx.includeDocs)
  {
    McpShapeWith(ctx, EstimateToolCount(ctx.description));
  }

  lemma McpShapeWith(ctx: Context, tools: int)
    ensures var ts := McpTasksWith(ctx, tools);
      && |ts| == 2 + (if ctx.includeTests then 1 else 0) + (if ctx.includeDocs then 1 else 0)
      && ts[0].estimatedLoc == 300 && ts[0].dependencies == [] && ts[0].kind == "core_logic"
      && ts[1].estimatedLoc == 200 + 30 * tools && ts[1].dependencies == [1]
      && ((exists i :: 0 <= i < |ts| && ts[i].kind == "tests") <==> ctx.includeTests)
      && ((exists i :: 0 <= i < |ts| && ts[i].kind == "documentation") <==> ctx.includeDocs)
  {
    var ts := McpTasksWith(ctx, tools);
    var opt := McpOptional(ctx, 3);
    assert forall i :: 2 <= i < |ts| ==> ts[i] == opt[i - 2];
    OptionalKinds(ctx, 3);
    if ctx.includeTests {
      assert ts[2].kind == "tests";
    }
    if ctx.includeDocs {
      assert ts[|ts| - 1].kind == "documentation";
    }
  }

  /** The optional MCP tasks: tests exactly when wanted, documentation exactly when wanted,
      numbered from `next` and depending only on the first two tasks. */
  lemma OptionalKinds(ctx: Context, next: int)
    ensures var opt := McpOptional(ctx, next);
      && |opt| == (if ctx.includeTests then 1 else 0) + (if ctx.includeDocs then 1 else 0)
      && ((exists i :: 0 <= i < |opt| && opt[i].kind == "tests") <==> ctx.includeTests)
      && ((exists i :: 0 <= i < |opt| && opt[i].kind == "documentation") <==> ctx.includeDocs)
      && (forall i :: 0 <= i < |opt| ==> opt[i].id == next + i)
      && (forall i, k :: 0 <= i < |opt| && 0 <= k < |opt[i].dependencies| ==> 1 <= opt[i].dependencies[k] <= 2)
  {
    var opt := McpOptional(ctx, next);
    var t := McpTestsTask(ctx.serverName, next);
    var d := McpDocsTask(ctx.serverName, if ctx.includeTests then next + 1 else next);
    assert t.kind != d.kind;
    if ctx.includeTests {
      assert opt[0] == t;
    }
    if ctx.includeDocs {
      assert opt[|opt| - 1] == d;
    }
  }

  /** The API and database templates give three fixed tasks and a fourth, tests task exactly
      when tests are wanted. */
  lemma ApiIntegrationShape(ctx: Context)
    ensures var a := ApiIntegrationTasks(ctx);
      && |a| == (if ctx.includeTests then 4 else 3)
      && a[..3] == ApiIntegrationTasks(ctx.(includeTests := false))
      && (ctx.includeTests ==> a[3].kind == "tests" && a[3].dependencies == [1, 2, 3])
  {
  }

  lemma DatabaseShape(ctx: Context)
    ensures var d := DatabaseTasks(ctx);
      && |d| == (if ctx.includeTests then 4 else 3)
      && d[..3] == DatabaseTasks(ctx.(includeTests := false))
      && (ctx.includeTests ==> d[3].kind == "tests" && d[3].dependencies == [1, 2, 3])
  {
  }

  /** The testing template does not depend on the context. */
  lemma TestingIgnoresContext(a: Context, b: Context)
    ensures TestingTasks(a) == TestingTasks(b) && |TestingTasks(a)| == 3
  {
  }

  /** Every template numbers its tasks 1..n and only depends on earlier tasks. */
  lemma TemplatesWellNumbered(t: Template, ctx: Context)
    ensures WellNumbered(GenerateTasks(t, ctx))
  {
    match t
    case McpServer => McpWellNumbered(ctx);
    case ApiIntegration => ApiIntegrationWellNumbered(ctx);
    case Database => DatabaseWellNumbered(ctx);
    case Testing => TestingWellNumbered(ctx);
  }

  lemma ApiIntegrationWellNumbered(ctx: Context)
    ensures WellNumbered(GenerateTasks(ApiIntegration, ctx))
  {
    WellNumberedFixed(ApiIntegrationTasks(ctx));
  }

  lemma DatabaseWellNumbered(ctx: Context)
    ensures WellNumbered(GenerateTasks(Database, ctx))
  {
    WellNumberedFixed(DatabaseTasks(ctx));
  }

  lemma TestingWellNumbered(ctx: Context)
    ensures WellNumbered(GenerateTasks(Testing, ctx))
  {
    WellNumberedFixed(TestingTasks(ctx));
  }

  lemma McpWellNumbered(ctx: Context)
    ensures WellNumbered(GenerateTasks(McpServer, ctx))
  {
    McpWellNumberedWith(ctx, EstimateToolCount(ctx.description));
  }

  lemma McpWellNumberedWith(ctx: Context, tools: int)
    ensures WellNumbered(McpTasksWith(ctx, tools))
  {
    var ts := McpTasksWith(ctx, tools);
    var opt := McpOptional(ctx, 3);
    OptionalKinds(ctx, 3);
    assert forall i :: 2 <= i < |ts| ==> ts[i] == opt[i - 2];
  }

  /** A list of at most four tasks whose ids are its positions and whose dependencies are
      among the earlier ids. */
  lemma WellNumberedFixed(ts: seq<Task>)
    requires |ts| <= 4 && forall i :: 0 <= i < |ts| ==> ts[i].id == i + 1
    requires forall i :: 0 <= i < |ts| ==> forall d :: d in ts[i].dependencies ==> 1 <= d <= i
    ensures WellNumbered(ts)
  {
    forall i, k | 0 <= i < |ts| && 0 <= k < |ts[i].dependencies| ensures 1 <= ts[i].dependencies[k] < ts[i].id {
      assert ts[i].dependencies[k] in ts[i].dependencies;
    }
  }

  /** `TEMPLATES`, in registration order. */
  const Registry: seq<Template> := [McpServer, ApiIntegration, Database, Testing]

  /** `get_template`: an unregistered name is a `KeyError`, modelled as `None`. */
  function GetTemplate(name: string): (r: Option<Template>)
    ensures r.Some? ==> r.value in Registry && r.value.Name() == name
    ensures r.None? <==> forall i :: 0 <= i < |Registry| ==> Registry[i].Name() != name
  {
    if name == "mcp_server" then Some(McpServer)
    else if name == "api_integration" then Some(ApiIntegration)
    else if name == "database" then Some(Database)
    else if name == "testing" then Some(Testing)
    else None
  }

  /** `list_templates`: one (name, description) pair per registered template, in order. */
  function ListTemplates(): (r: seq<(string, string)>)
    ensures |r| == |Registry|
    ensures forall i :: 0 <= i < |r| ==> r[i] == (Registry[i].Name(), Registry[i].Description())
  {
    seq(|Registry|, i requires 0 <= i < |Registry| => (Registry[i].Name(), Registry[i].Description()))
  }

  /** Every listed name resolves back to its template, and names are distinct. */
  lemma ListedNamesResolve()
    ensures forall i :: 0 <= i < |ListTemplates()| ==> GetTemplate(ListTemplates()[i].0) == Some(Registry[i])
    ensures forall i, j :: 0 <= i < j < |ListTemplates()| ==> ListTemplates()[i].0 != ListTemplates()[j].0
  {
    RegistryNamesResolve();
  }

  lemma RegistryNamesResolve()
    ensures forall i :: 0 <= i < |Registry| ==> GetTemplate(Registry[i].Name()) == Some(Registry[i])
    ensures forall i, j :: 0 <= i < j < |Registry| ==> Registry[i].Name() != Registry[j].Name()
  {
  }
}
