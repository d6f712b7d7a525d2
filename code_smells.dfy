/** Code smell detection: the functions and classes an analyzer reports are checked for too
    many parameters, a missing docstring (Python only) and too many methods, and the smells
    found are filtered by a minimum severity. */
module CodeSmells {
  import opened Wrappers
  import opened Collections
  import Strings

  /** A function as the analyzer reports it; a record without `parameters` has none. */
  datatype FunctionInfo = FunctionInfo(name: string, parameters: seq<string>, line: Option<int>, docstring: Option<string>)

  /** A class as the analyzer reports it; a record without `methods` has none. */
  datatype ClassInfo = ClassInfo(name: string, methods: seq<string>, line: Option<int>)

  /** What a smell is about: the `function` or the `class` key. */
  datatype Subject = OfFunction(functionName: string) | OfClass(className: string)

  datatype Severity = Low | Medium | High
  {
    function Name(): string
    {
      match this
      case Low => "low"
      case Medium => "medium"
      case High => "high"
    }

    /** `severity_levels[name]`. */
    function Level(): int
    {
      match this
      case Low => 1
      case Medium => 2
      case High => 3
    }
  }

  /** The three rules; each fixes a smell's `type`, `severity` and `suggestion`. */
  datatype Rule = TooManyParameters | MissingDocstring | GodClass
  {
    function Name(): string
    {
      match this
      case TooManyParameters => "too_many_parameters"
      case MissingDocstring => "missing_docstring"
      case GodClass => "god_class"
    }

    function Severity(): Severity
    {
      match this
      case TooManyParameters => Medium
      case MissingDocstring => Low
      case GodClass => High
    }

    function Suggestion(): string
    {
      match this
      case TooManyParameters => "Consider using a parameter object or builder pattern"
      case MissingDocstring => "Add a docstring to explain the function's purpose"
      case GodClass => "Consider splitting into smaller, focused classes"
    }
  }

  /** One smell; `count` is the number of parameters or methods its message quotes. */
  datatype Smell = Smell(rule: Rule, subject: Subject, line: Option<int>, count: nat)
  {
    function Message(): string
    {
      match rule
      case TooManyParameters => "Function has " + Strings.NatToString(count) + " parameters (recommended: \U{2264}5)"
      case MissingDocstring => "Function is missing docstring"
      case GodClass => "Class has " + Strings.NatToString(count) + " methods (recommended: \U{2264}20)"
    }
  }

  const MaxParameters := 5
  const MaxMethods := 20

  /** A docstring Python treats as false: missing or empty. */
  predicate Falsy(d: Option<string>)
  {
    d.None? || d.value == ""
  }

  /** The smells of one function, in the order they are appended. */
  function FunctionSmells(f: FunctionInfo, language: string): seq<Smell>
  {
    (if |f.parameters| > MaxParameters then [Smell(TooManyParameters, OfFunction(f.name), f.line, |f.parameters|)] else [])
    + (if language == "python" && Falsy(f.docstring) then [Smell(MissingDocstring, OfFunction(f.name), f.line, 0)] else [])
  }

  /** A function gets a parameter smell exactly when it has more than five parameters, and a
      docstring smell exactly when the language is Python and its docstring is missing or empty. */
  lemma FunctionSmellsOf(f: FunctionInfo, language: string)
    ensures forall s :: s in FunctionSmells(f, language) <==>
      || (s == Smell(TooManyParameters, OfFunction(f.name), f.line, |f.parameters|) && |f.parameters| > MaxParameters)
      || (s == Smell(MissingDocstring, OfFunction(f.name), f.line, 0) && language == "python" && Falsy(f.docstring))
  {
  }

  function ClassSmells(c: ClassInfo): seq<Smell>
  {
    if |c.methods| > MaxMethods then [Smell(GodClass, OfClass(c.name), c.line, |c.methods|)] else []
  }

  function AllFunctionSmells(fs: seq<FunctionInfo>, language: string): seq<Smell>
  {
    if fs == [] then [] else AllFunctionSmells(fs[..|fs| - 1], language) + FunctionSmells(fs[|fs| - 1], language)
  }

  function AllClassSmells(cs: seq<ClassInfo>): seq<Smell>
  {
    if cs == [] then [] else AllClassSmells(cs[..|cs| - 1]) + ClassSmells(cs[|cs| - 1])
  }

  /** `severity_levels.get(min_severity, 0)`. */
  function MinLevel(minSeverity: string): int
  {
    if minSeverity == "low" then 1 else if minSeverity == "medium" then 2 else if minSeverity == "high" then 3 else 0
  }

  /** The final filter: "all" keeps everything, otherwise the smells at or above the level
      named, an unknown name standing for level 0 and so keeping everything too. */
  function BySeverity(smells: seq<Smell>, minSeverity: string): (r: seq<Smell>)
    ensures minSeverity == "all" || MinLevel(minSeverity) == 0 ==> r == smells
    ensures forall i :: 0 <= i < |r| ==> r[i] in smells && r[i].rule.Severity().Level() >= MinLevel(minSeverity)
    ensures forall i :: 0 <= i < |smells| && smells[i].rule.Severity().Level() >= MinLevel(minSeverity) ==> smells[i] in r
  {
    if minSeverity == "all" then smells
    else
      var p := (s: Smell) => s.rule.Severity().Level() >= MinLevel(minSeverity);
      if MinLevel(minSeverity) == 0 then FilterAll(smells, p); Filter(smells, p)
      else Filter(smells, p)
  }

  /** Filtering by a predicate every element meets keeps the sequence. */
  lemma {:induction false} FilterAll<T>(s: seq<T>, p: T -> bool)
    requires forall i :: 0 <= i < |s| ==> p(s[i])
    ensures Filter(s, p) == s
  {
    if s != [] {
      FilterAll(s[1..], p);
    }
  }

  /** `detect_code_smells` on the analyzer's functions and classes. */
  function Smells(fs: seq<FunctionInfo>, cs: seq<ClassInfo>, language: string, minSeverity: string): seq<Smell>
  {
    BySeverity(AllFunctionSmells(fs, language) + AllClassSmells(cs), minSeverity)
  }

  /** A smell of one of the functions is among the function smells. */
  lemma {:induction false} FunctionSmellIn(fs: seq<FunctionInfo>, language: string, i: nat, s: Smell)
    requires i < |fs| && s in FunctionSmells(fs[i], language)
    ensures s in AllFunctionSmells(fs, language)
    decreases |fs|
  {
    var init := fs[..|fs| - 1];
    assert AllFunctionSmells(fs, language) == AllFunctionSmells(init, language) + FunctionSmells(fs[|fs| - 1], language);
    if i < |init| {
      assert init[i] == fs[i];
      FunctionSmellIn(init, language, i, s);
    }
  }

  /** Every function smell is a smell of one of the functions. */
  lemma {:induction false} FunctionSmellFrom(fs: seq<FunctionInfo>, language: string, s: Smell) returns (i: nat)
    requires s in AllFunctionSmells(fs, language)
    ensures i < |fs| && s in FunctionSmells(fs[i], language)
    decreases |fs|
  {
    var init := fs[..|fs| - 1];
    assert AllFunctionSmells(fs, language) == AllFunctionSmells(init, language) + FunctionSmells(fs[|fs| - 1], language);
    if s in AllFunctionSmells(init, language) {
      i := FunctionSmellFrom(init, language, s);
      assert init[i] == fs[i];
    } else {
      i := |fs| - 1;
    }
  }

  /** The class smells are high `god_class` smells of exactly the classes with more than
      twenty methods. */
  lemma {:induction false} ClassSmellsExact(cs: seq<ClassInfo>)
    ensures var all := AllClassSmells(cs);
      && (forall i :: 0 <= i < |cs| && |cs[i].methods| > MaxMethods ==> Smell(GodClass, OfClass(cs[i].name), cs[i].line, |cs[i].methods|) in all)
      && (forall s :: s in all ==>
            (&& s.rule == GodClass && s.subject.OfClass?
             && exists i :: 0 <= i < |cs| && |cs[i].methods| > MaxMethods && s == Smell(GodClass, OfClass(cs[i].name), cs[i].line, |cs[i].methods|)))
    decreases |cs|
  {
    if cs != [] {
      var init := cs[..|cs| - 1];
      ClassSmellsExact(init);
      var all := AllClassSmells(cs);
      assert all == AllClassSmells(init) + ClassSmells(cs[|cs| - 1]);
      forall i | 0 <= i < |cs| && |cs[i].methods| > MaxMethods
        ensures Smell(GodClass, OfClass(cs[i].name), cs[i].line, |cs[i].methods|) in all
      {
        if i < |init| {
          assert init[i] == cs[i];
        }
      }
      forall s | s in AllClassSmells(init)
        ensures exists i :: 0 <= i < |cs| && |cs[i].methods| > MaxMethods && s == Smell(GodClass, OfClass(cs[i].name), cs[i].line, |cs[i].methods|)
      {
        var i :| 0 <= i < |init| && |init[i].methods| > MaxMethods && s == Smell(GodClass, OfClass(init[i].name), init[i].line, |init[i].methods|);
        assert init[i] == cs[i];
      }
    }
  }

  /** Before filtering, a function with more than five parameters gets a medium
      `too_many_parameters` smell, and every such smell names a function with that many. */
  lemma ParameterRule(fs: seq<FunctionInfo>, language: string)
    ensures var all := AllFunctionSmells(fs, language);
      && (forall i :: 0 <= i < |fs| && |fs[i].parameters| > MaxParameters ==>
            Smell(TooManyParameters, OfFunction(fs[i].name), fs[i].line, |fs[i].parameters|) in all)
      && (forall s :: s in all && s.rule == TooManyParameters ==>
            exists i :: 0 <= i < |fs| && |fs[i].parameters| > MaxParameters && s.subject == OfFunction(fs[i].name))
  {
    forall i | 0 <= i < |fs| && |fs[i].parameters| > MaxParameters
      ensures Smell(TooManyParameters, OfFunction(fs[i].name), fs[i].line, |fs[i].parameters|) in AllFunctionSmells(fs, language)
    {
      FunctionSmellsOf(fs[i], language);
      FunctionSmellIn(fs, language, i, Smell(TooManyParameters, OfFunction(fs[i].name), fs[i].line, |fs[i].parameters|));
    }
    forall s | s in AllFunctionSmells(fs, language) && s.rule == TooManyParameters
      ensures exists i :: 0 <= i < |fs| && |fs[i].parameters| > MaxParameters && s.subject == OfFunction(fs[i].name)
    {
      var i := FunctionSmellFrom(fs, language, s);
      FunctionSmellsOf(fs[i], language);
    }
  }

  /** Before filtering, a low `missing_docstring` smell is raised for a function exactly when
      the language is Python and its docstring is missing or empty. */
  lemma DocstringRule(fs: seq<FunctionInfo>, language: string)
    ensures var all := AllFunctionSmells(fs, language);
      && (forall i :: 0 <= i < |fs| && language == "python" && Falsy(fs[i].docstring) ==>
            Smell(MissingDocstring, OfFunction(fs[i].name), fs[i].line, 0) in all)
      && (forall s :: s in all && s.rule == MissingDocstring ==>
            language == "python" && exists i :: 0 <= i < |fs| && Falsy(fs[i].docstring) && s.subject == OfFunction(fs[i].name))
  {
    forall i | 0 <= i < |fs| && language == "python" && Falsy(fs[i].docstring)
      ensures Smell(MissingDocstring, OfFunction(fs[i].name), fs[i].line, 0) in AllFunctionSmells(fs, language)
    {
      FunctionSmellsOf(fs[i], language);
      FunctionSmellIn(fs, language, i, Smell(MissingDocstring, OfFunction(fs[i].name), fs[i].line, 0));
    }
    forall s | s in AllFunctionSmells(fs, language) && s.rule == MissingDocstring
      ensures language == "python" && exists i :: 0 <= i < |fs| && Falsy(fs[i].docstring) && s.subject == OfFunction(fs[i].name)
    {
      var i := FunctionSmellFrom(fs, language, s);
      FunctionSmellsOf(fs[i], language);
    }
  }

  /** Function smells are about functions and are never `god_class` smells. */
  lemma FunctionSmellsAboutFunctions(fs: seq<FunctionInfo>, language: string)
    ensures forall s :: s in AllFunctionSmells(fs, language) ==> s.rule != GodClass && s.subject.OfFunction?
  {
    forall s | s in AllFunctionSmells(fs, language) ensures s.rule != GodClass && s.subject.OfFunction? {
      var i := FunctionSmellFrom(fs, language, s);
      FunctionSmellsOf(fs[i], language);
    }
  }

  /** Function smells come first and class smells after them; without functions and classes
      there is nothing to report. */
  lemma SmellOrder(fs: seq<FunctionInfo>, cs: seq<ClassInfo>, language: string)
    ensures var all := AllFunctionSmells(fs, language) + AllClassSmells(cs);
      forall j, k :: 0 <= j < k < |all| && all[j].subject.OfClass? ==> all[k].subject.OfClass?
    ensures Smells([], [], language, "all") == []
  {
    SmellPositions(fs, cs, language);
  }

  /** The first smells, as many as the function smells, are about functions; the rest about
      classes. */
  lemma SmellPositions(fs: seq<FunctionInfo>, cs: seq<ClassInfo>, language: string)
    ensures var fsm := AllFunctionSmells(fs, language);
      var all := fsm + AllClassSmells(cs);
      forall i :: 0 <= i < |all| ==> (all[i].subject.OfClass? <==> i >= |fsm|)
  {
    var fsm := AllFunctionSmells(fs, language);
    var csm := AllClassSmells(cs);
    var all := fsm + csm;
    FunctionSmellsAboutFunctions(fs, language);
    ClassSmellsAboutClasses(cs);
    forall i | 0 <= i < |all| ensures all[i].subject.OfClass? <==> i >= |fsm| {
      if i < |fsm| {
        assert all[i] == fsm[i] && fsm[i] in fsm;
      } else {
        assert all[i] == csm[i - |fsm|] && csm[i - |fsm|] in csm;
      }
    }
  }


  lemma {:induction false} ClassSmellsAboutClasses(cs: seq<ClassInfo>)
    ensures forall k :: 0 <= k < |AllClassSmells(cs)| ==> AllClassSmells(cs)[k].subject.OfClass?
    decreases |cs|
  {
    if cs != [] {
      ClassSmellsAboutClasses(cs[..|cs| - 1]);
    }
  }

  /** `detect_code_smells`, with the analyzer's results as inputs. */
  method DetectCodeSmells(functions: seq<FunctionInfo>, classes: seq<ClassInfo>, language: string, minSeverity: string)
    returns (smells: seq<Smell>)
    ensures smells == Smells(functions, classes, language, minSeverity)
  {
    smells := [];
    for i := 0 to |functions|
      invariant smells == AllFunctionSmells(functions[..i], language)
    {
      assert functions[..i + 1][..i] == functions[..i];
      var func := functions[i];
      if |func.parameters| > MaxParameters {
        smells := smells + [Smell(TooManyParameters, OfFunction(func.name), func.line, |func.parameters|)];
      }
      if language == "python" && Falsy(func.docstring) {
        smells := smells + [Smell(MissingDocstring, OfFunction(func.name), func.line, 0)];
      }
    }
    assert functions[..|functions|] == functions;
    ghost var fromFunctions := smells;
    for i := 0 to |classes|
      invariant smells == fromFunctions + AllClassSmells(classes[..i])
    {
      assert classes[..i + 1][..i] == classes[..i];
      if |classes[i].methods| > MaxMethods {
        smells := smells + [Smell(GodClass, OfClass(classes[i].name), classes[i].line, |classes[i].methods|)];
      }
    }
    assert classes[..|classes|] == classes;
    if minSeverity != "all" {
      smells := BySeverity(smells, minSeverity);
    }
  }
}
