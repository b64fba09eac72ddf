/** The Python backend's compiler: `treatment.py` with sorted imports and a
    docstring per function, and `dag.py` written directly from the f-string
    template with the backend's own owner, environment, pool and flow rules.
    (Its `meta.yaml` writer pushes the same lines as the front end's and is
    modelled once, by `GeneratorTs.GenerateMetaYaml`.) */
module GeneratorPy {
  import opened Text
  import opened Config
  import opened Compile
  import opened Treatment
  import opened GeneratorTs
  import opened Order

  // ---------------------------------------------------------------------------
  // treatment.py: imports
  // ---------------------------------------------------------------------------

  /** Adds the stripped non-blank lines of one import field to a Python set. */
  method AddImportSet(seen: set<string>, text: string) returns (r: set<string>)
    ensures r == seen + Elems(ImportLinesOf(text, IsPySpace))
  {
    var lines := Split(text, '\n');
    r := seen;
    var k := 0;
    while k < |lines|
      invariant 0 <= k <= |lines|
      invariant r == seen + Elems(NonBlank(lines[..k], IsPySpace))
    {
      var imp := Trim(lines[k], IsPySpace);
      NonBlankStep(lines, k, IsPySpace);
      if imp != "" {
        ElemsSnoc(NonBlank(lines[..k], IsPySpace), imp);
        r := r + {imp};
      } else {
        AppendEmpty(NonBlank(lines[..k], IsPySpace));
      }
      k := k + 1;
    }
    assert lines[..|lines|] == lines;
  }

  /** Adds the import lines of one step's tasks, skipping empty import fields. */
  method AddStepImportSet(seen: set<string>, tasks: seq<Task>) returns (r: set<string>)
    ensures r == seen + Elems(Candidates(tasks, IsPySpace))
  {
    r := seen;
    var j := 0;
    while j < |tasks|
      invariant 0 <= j <= |tasks|
      invariant r == seen + Elems(Candidates(tasks[..j], IsPySpace))
    {
      CandidatesStep(tasks, j, IsPySpace);
      if tasks[j].imports != "" {
        ElemsAppend(Candidates(tasks[..j], IsPySpace), ImportLinesOf(tasks[j].imports, IsPySpace));
        r := AddImportSet(r, tasks[j].imports);
      }
      j := j + 1;
    }
    assert tasks[..j] == tasks;
  }

  /** The set of all import lines of the pipeline. */
  method CollectImportSet(pipeline: seq<PipelineStep>) returns (all: set<string>)
    ensures all == Elems(Candidates(AllTasks(pipeline), IsPySpace))
  {
    all := {};
    var i := 0;
    while i < |pipeline|
      invariant 0 <= i <= |pipeline|
      invariant all == Elems(Candidates(AllTasks(pipeline[..i]), IsPySpace))
    {
      AllTasksStep(pipeline, i);
      CandidatesAppend(AllTasks(pipeline[..i]), pipeline[i].tasks, IsPySpace);
      ElemsAppend(Candidates(AllTasks(pipeline[..i]), IsPySpace), Candidates(pipeline[i].tasks, IsPySpace));
      all := AddStepImportSet(all, pipeline[i].tasks);
      i := i + 1;
    }
    assert pipeline[..i] == pipeline;
  }

  /** A sequence without repeated values holds each of its values once. */
  lemma {:induction false} DistinctMultiset(xs: seq<string>)
    requires NoDuplicates(xs)
    ensures forall x :: multiset(xs)[x] == if x in xs then 1 else 0
    decreases |xs|
  {
    if |xs| > 0 {
      var init := xs[..|xs| - 1];
      assert xs == init + [xs[|xs| - 1]];
      DistinctMultiset(init);
    }
  }

  /** The backend writes exactly the import lines the front ends write, each once,
      only sorted rather than in order of first appearance. */
  lemma SortedImportsPermuteFrontEnd(xs: seq<string>)
    ensures multiset(SortedSet(xs)) == multiset(Dedup(xs))
  {
    SortedSetSpec(xs);
    DedupElements(xs);
    var s := SortedSet(xs);
    forall i, j | 0 <= i < j < |s| ensures s[i] != s[j] {
      LexLessIrreflexive(s[i]);
    }
    DistinctMultiset(s);
    DistinctMultiset(Dedup(xs));
    forall x ensures multiset(s)[x] == multiset(Dedup(xs))[x] {
      assert x in s <==> x in Elems(s);
      assert x in xs <==> x in Elems(xs);
    }
  }

  /** Two import lines given in reverse order: the front ends keep that order,
      the backend sorts them. */
  lemma ImportOrderExample()
    ensures Dedup(["import pandas", "import numpy"]) == ["import pandas", "import numpy"]
    ensures SortedSet(["import pandas", "import numpy"]) == ["import numpy", "import pandas"]
  {
    var a, b := "import pandas", "import numpy";
    assert a[7] != b[7];
    KeptOrder(a, b);
    SortedOrder(a, b);
    NumpyBeforePandas();
  }

  lemma KeptOrder(a: string, b: string)
    requires a != b
    ensures Dedup([a, b]) == [a, b]
  {
    assert [a, b][..1] == [a];
    assert [a][..0] == [];
    assert Dedup([a]) == [a];
    assert b !in [a];
  }

  lemma SortedOrder(a: string, b: string)
    requires a != b && LexLess(b, a)
    ensures SortedSet([a, b]) == [b, a]
  {
    assert [a, b][..1] == [a];
    assert [a][..0] == [];
    assert SortedSet([a]) == [a];
    assert InsertSorted([a], b) == [b] + [a];
  }

  lemma NumpyBeforePandas()
    ensures LexLess("import numpy", "import pandas")
  {
    assert LexLess("numpy", "pandas");
    LexLessCommonPrefix("import ", "numpy", "pandas");
    assert "import " + "numpy" == "import numpy";
    assert "import " + "pandas" == "import pandas";
  }

  // ---------------------------------------------------------------------------
  // treatment.py: functions
  // ---------------------------------------------------------------------------

  /** The docstring recording the task's name, priority and pool slots. */
  function Docstring(t: Task): string {
    "    \"\"\"\n"
    + ("    Task: " + t.name + "\n")
    + ("    Priority: " + t.priority + "\n")
    + ("    Pool Slots: " + IntToString(t.poolSlots) + "\n")
    + "    \"\"\"\n"
  }

  /** One code line: indented and ended, or a bare newline when it is empty. */
  function CodeLine(line: string): string {
    if line != "" then "    " + line + "\n" else "\n"
  }

  function IndentedLines(lines: seq<string>): string
    decreases |lines|
  {
    if |lines| == 0 then "" else IndentedLines(lines[..|lines| - 1]) + CodeLine(lines[|lines| - 1])
  }

  /** The body: every code line, or `pass` when the stripped code is empty. */
  function Body(code: string): string {
    if Trim(code, IsPySpace) != "" then IndentedLines(Split(code, '\n')) else "    pass\n"
  }

  function DefLine(t: Task): string {
    "def " + Sanitize(t.name) + "(**context):\n"
  }

  /** The function of one task in the backend's `treatment.py`. */
  function PyDefBlock(t: Task): string {
    DefLine(t) + Docstring(t) + Body(t.code) + "\n\n"
  }

  function PyDefBlocks(tasks: seq<Task>): (r: seq<string>)
    ensures |r| == |tasks|
    ensures forall k :: 0 <= k < |tasks| ==> r[k] == PyDefBlock(tasks[k])
  {
    seq(|tasks|, k requires 0 <= k < |tasks| => PyDefBlock(tasks[k]))
  }

  /** The backend's `treatment.py`: the sorted distinct import lines, then one
      function per task. */
  function PyTreatmentText(pipeline: seq<PipelineStep>): string {
    var tasks := AllTasks(pipeline);
    ImportBlock(SortedSet(Candidates(tasks, IsPySpace))) + Concat(PyDefBlocks(tasks))
  }

  method AppendDocstring(content: string, t: Task) returns (r: string)
    ensures r == content + Docstring(t)
  {
    var l1 := "    \"\"\"\n";
    var l2 := "    Task: " + t.name + "\n";
    var l3 := "    Priority: " + t.priority + "\n";
    var l4 := "    Pool Slots: " + IntToString(t.poolSlots) + "\n";
    r := content + l1;
    r := r + l2;
    AppendAssoc(content, l1, l2);
    r := r + l3;
    AppendAssoc(content, l1 + l2, l3);
    r := r + l4;
    AppendAssoc(content, l1 + l2 + l3, l4);
    r := r + l1;
    AppendAssoc(content, l1 + l2 + l3 + l4, l1);
  }

  /** Writes the code lines one by one. */
  method AppendCodeLines(content: string, lines: seq<string>) returns (r: string)
    ensures r == content + IndentedLines(lines)
  {
    r := content;
    var k := 0;
    while k < |lines|
      invariant 0 <= k <= |lines|
      invariant r == content + IndentedLines(lines[..k])
    {
      assert lines[..k + 1][..k] == lines[..k] && lines[..k + 1][k] == lines[k];
      AppendAssoc(content, IndentedLines(lines[..k]), CodeLine(lines[k]));
      r := r + (if lines[k] != "" then "    " + lines[k] + "\n" else "\n");
      k := k + 1;
    }
    assert lines[..k] == lines;
  }

  method AppendBody(content: string, code: string) returns (r: string)
    ensures r == content + Body(code)
  {
    if Trim(code, IsPySpace) != "" {
      r := AppendCodeLines(content, Split(code, '\n'));
    } else {
      r := content + "    pass\n";
    }
  }

  /** Writes the function of one task: `def` line, docstring, body, two newlines. */
  method AppendTaskFunction(content: string, t: Task) returns (r: string)
    ensures r == content + PyDefBlock(t)
  {
    var head := "def " + Sanitize(t.name) + "(**context):\n";
    r := content + head;
    r := AppendDocstring(r, t);
    AppendAssoc(content, head, Docstring(t));
    r := AppendBody(r, t.code);
    AppendAssoc(content, head + Docstring(t), Body(t.code));
    r := r + "\n\n";
    AppendAssoc(content, head + Docstring(t) + Body(t.code), "\n\n");
  }

  lemma PyDefBlocksAppend(a: seq<Task>, b: seq<Task>)
    ensures Concat(PyDefBlocks(a + b)) == Concat(PyDefBlocks(a)) + Concat(PyDefBlocks(b))
  {
    PyDefBlocksSplit(a, b);
    ConcatAppend(PyDefBlocks(a), PyDefBlocks(b));
  }

  lemma PyDefBlocksSplit(a: seq<Task>, b: seq<Task>)
    ensures PyDefBlocks(a + b) == PyDefBlocks(a) + PyDefBlocks(b)
  {
    MapSplit(PyDefBlock, a, b, PyDefBlocks(a + b), PyDefBlocks(a), PyDefBlocks(b));
  }

  lemma PyDefBlocksSnoc(content: string, tasks: seq<Task>, j: nat)
    requires j < |tasks|
    ensures content + Concat(PyDefBlocks(tasks[..j])) + PyDefBlock(tasks[j])
         == content + Concat(PyDefBlocks(tasks[..j + 1]))
  {
    assert tasks[..j + 1] == tasks[..j] + [tasks[j]];
    PyDefBlocksAppend(tasks[..j], [tasks[j]]);
    assert PyDefBlocks([tasks[j]]) == [PyDefBlock(tasks[j])];
    ConcatSingle(PyDefBlock(tasks[j]));
    AppendAssoc(content, Concat(PyDefBlocks(tasks[..j])), PyDefBlock(tasks[j]));
  }

  method AppendStepTaskFunctions(content: string, tasks: seq<Task>) returns (r: string)
    ensures r == content + Concat(PyDefBlocks(tasks))
  {
    r := content;
    var j := 0;
    while j < |tasks|
      invariant 0 <= j <= |tasks|
      invariant r == content + Concat(PyDefBlocks(tasks[..j]))
    {
      PyDefBlocksSnoc(content, tasks, j);
      r := AppendTaskFunction(r, tasks[j]);
      j := j + 1;
    }
    assert tasks[..j] == tasks;
  }

  method AppendTaskFunctions(content: string, pipeline: seq<PipelineStep>) returns (r: string)
    ensures r == content + Concat(PyDefBlocks(AllTasks(pipeline)))
  {
    r := content;
    var i := 0;
    while i < |pipeline|
      invariant 0 <= i <= |pipeline|
      invariant r == content + Concat(PyDefBlocks(AllTasks(pipeline[..i])))
    {
      AllTasksStep(pipeline, i);
      PyDefBlocksAppend(AllTasks(pipeline[..i]), pipeline[i].tasks);
      AppendAssoc(content, Concat(PyDefBlocks(AllTasks(pipeline[..i]))), Concat(PyDefBlocks(pipeline[i].tasks)));
      r := AppendStepTaskFunctions(r, pipeline[i].tasks);
      i := i + 1;
    }
    assert pipeline[..i] == pipeline;
  }

  /** `TreatmentGenerator.generate`: collects the import lines in a set, writes
      them sorted, then one function per task. */
  method GenerateTreatment(pipeline: seq<PipelineStep>) returns (content: string)
    ensures content == PyTreatmentText(pipeline)
  {
    var cands := Candidates(AllTasks(pipeline), IsPySpace);
    SortedSetSpec(cands);
    ElemsEmpty(SortedSet(cands));
    var allImports := CollectImportSet(pipeline);
    content := "";
    if allImports != {} {
      var sorted := SortSet(allImports);
      StrictlySortedUnique(sorted, SortedSet(cands));
      content := Join(sorted, "\n") + "\n\n";
    }
    content := AppendTaskFunctions(content, pipeline);
  }

  /** The indented lines are the front end's indented code plus a final newline. */
  lemma {:induction false} IndentedLinesAreJoin(lines: seq<string>)
    requires |lines| > 0
    ensures IndentedLines(lines) == Join(IndentLines(lines), "\n") + "\n"
    decreases |lines|
  {
    var n := |lines| - 1;
    var init := lines[..n];
    assert IndentLines(lines) == IndentLines(init) + [IndentLine(lines[n])];
    assert CodeLine(lines[n]) == IndentLine(lines[n]) + "\n";
    if n == 0 {
      assert IndentedLines(init) == "";
      assert Join(IndentLines(lines), "\n") == IndentLine(lines[n]);
    } else {
      IndentedLinesAreJoin(init);
      JoinSnoc(IndentLines(init), IndentLine(lines[n]), "\n");
      AppendAssoc(Join(IndentLines(init), "\n"), "\n", IndentLine(lines[n]) + "\n");
      AppendAssoc("\n", IndentLine(lines[n]), "\n");
      AppendAssoc(Join(IndentLines(init), "\n"), "\n" + IndentLine(lines[n]), "\n");
      AppendAssoc(Join(IndentLines(init), "\n"), "\n", IndentLine(lines[n]));
    }
  }

  /** Code with something besides whitespace gets the same body in both
      generators, the backend adding the final newline that the front ends write
      after it. */
  lemma BodyMatchesFrontEnd(code: string)
    requires Trim(code, IsPySpace) != ""
    ensures Body(code) == FunctionBody(code) + "\n"
  {
    assert code != "" by {
      if code == "" { TrimEmpty(code, IsPySpace); }
    }
    IndentedCodeEmpty(code);
    IndentedLinesAreJoin(Split(code, '\n'));
  }

  /** So the backend's function is the front end's with the docstring inserted
      after the `def` line and one more newline after the body. */
  lemma PyDefBlockMatchesFrontEnd(t: Task)
    requires Trim(t.code, IsPySpace) != ""
    ensures DefBlock(t) == DefLine(t) + FunctionBody(t.code) + "\n\n"
    ensures PyDefBlock(t) == DefLine(t) + Docstring(t) + FunctionBody(t.code) + "\n" + "\n\n"
  {
    var head, fb := DefLine(t) + Docstring(t), FunctionBody(t.code);
    BodyMatchesFrontEnd(t.code);
    AppendAssoc(head, fb, "\n");
    AppendAssoc("def " + Sanitize(t.name), "(**context):\n", fb);
  }

  /** Whitespace-only code: the backend writes `pass`, the front ends indent it. */
  lemma WhitespaceCodeExample()
    ensures Body("  ") == "    pass\n"
    ensures FunctionBody("  ") == "      "
  {
    TrimEmpty("  ", IsPySpace);
    SplitNoSep("  ", '\n');
    assert IndentLine("  ") == "    " + "  " == "      ";
    assert IndentLines(["  "]) == ["      "];
  }

  // ---------------------------------------------------------------------------
  // dag.py
  // ---------------------------------------------------------------------------

  /** The environment the backend names: the conda environment whenever conda is
      on, even an empty one. */
  function PyEnvName(c: ProjectConfig): string {
    if c.useConda then c.condaenv else "airflow-env"
  }

  /** The backend's `dag.py`: owner `persoid`, its environment rule, the task's pool
      or the first pool with Python `or`, every stage a node. */
  function PyDagText(c: ProjectConfig): string {
    var tasks := AllTasks(c.pipeline);
    DagHeader(ImportLine(TaskNames(tasks)), EnvLine(PyEnvName(c)), ScheduleLine(ScheduleValue(c.cron)), c.persoid, DagId(c.nomprojet))
    + Operators(tasks, BackendPool(c.pools))
    + FlowSection(|c.pipeline| == 0, BackendNodes(c.pipeline))
  }

  /** `DagGenerator.generate`: the header f-string, one operator per task, then the
      dependency flow. */
  method GenerateDag(c: ProjectConfig) returns (content: string)
    ensures content == PyDagText(c)
  {
    var allTaskNames := CollectTaskNames(c.pipeline);
    var taskImports := if |allTaskNames| > 0 then "from src.treatment import " + Join(allTaskNames, ", ") else "";
    var env := if c.useConda then c.condaenv else "airflow-env";
    var schedule := if c.cron != "" then "\"" + c.cron + "\"" else "None";
    assert taskImports == ImportLine(TaskNames(AllTasks(c.pipeline)));
    assert env == PyEnvName(c);
    assert schedule == ScheduleValue(c.cron);
    var header := DagHeader(taskImports, EnvLine(env), ScheduleLine(schedule), c.persoid, DagId(c.nomprojet));
    content := AppendOperators(header, c.pipeline, BackendPool(c.pools));
    var flow := EmitFlowSection(|c.pipeline| == 0, BackendNodes(c.pipeline));
    content := content + flow;
  }

  /** The two environment rules differ exactly when conda is on with an empty
      environment name. */
  lemma EnvNamesDiffer(c: ProjectConfig)
    ensures PyEnvName(c) != EnvName(c) <==> c.useConda && c.condaenv == ""
  {
  }

  /** With owner `airflow`, no empty first pool, no empty stage and no conda
      switched on without a name, the backend writes the front end's `dag.py`.
      Task names must be made of single-code-unit characters, on which the
      front end's code-unit `replace` and the backend's `re.sub` agree; the
      environment name and the cron must hold no `$`, which the front end's
      string `replace` would expand. */
  lemma BackendDagMatchesFrontEnd(c: ProjectConfig)
    requires c.persoid == "airflow"
    requires |c.pools| == 0 || c.pools[0] != ""
    requires forall k :: 0 <= k < |c.pipeline| ==> |c.pipeline[k].tasks| > 0
    requires !(c.useConda && c.condaenv == "")
    requires forall t :: t in AllTasks(c.pipeline) ==> AllBmp(t.name)
    requires '$' !in c.condaenv && '$' !in c.cron
    ensures PyDagText(c) == DagText(c)
    ensures forall t :: t in AllTasks(c.pipeline) ==> JsSanitize(t.name) == Sanitize(t.name)
  {
    NamesSanitiseAlike(AllTasks(c.pipeline));
    BackendOperatorsAgree(AllTasks(c.pipeline), c.pools);
    FlowsAgreeWithoutEmptyStages(c.pipeline);
    EnvNamesDiffer(c);
  }

  lemma NamesSanitiseAlike(tasks: seq<Task>)
    requires forall t :: t in tasks ==> AllBmp(t.name)
    ensures forall t :: t in tasks ==> JsSanitize(t.name) == Sanitize(t.name)
  {
    forall t | t in tasks ensures JsSanitize(t.name) == Sanitize(t.name) {
      JsSanitizeOnBmp(t.name);
    }
  }

  /** Without an empty first pool, the backend's `or` picks the front end's pool
      for every task. */
  lemma BackendOperatorsAgree(tasks: seq<Task>, pools: seq<string>)
    requires |pools| == 0 || pools[0] != ""
    ensures OperatorBlocks(tasks, BackendPool(pools)) == OperatorBlocks(tasks, FirstPool(pools))
  {
    forall k | 0 <= k < |tasks|
      ensures PoolFor(BackendPool(pools), tasks[k]) == PoolFor(FirstPool(pools), tasks[k])
    {
      FrontEndAndBackendPools(pools, tasks[k]);
    }
    OperatorBlocksAgree(tasks, BackendPool(pools), FirstPool(pools));
  }

  /** The backend's flow over a single stage node `n`. */
  lemma SingleNodeFlow(n: string)
    ensures FlowSection(false, [Some(n)]) == "    # Pipeline Flow\n" + Edge("start", n) + Edge(n, "end")
  {
    var nodes := [Some(n)];
    assert nodes[1..] == [];
    assert Flow(n, nodes[1..]) == Edge(n, "end");
    assert Flow("start", nodes) == Edge("start", n) + Edge(n, "end");
    AppendAssoc("    # Pipeline Flow\n", Edge("start", n), Edge(n, "end"));
  }

  /** A stage without tasks (which the backend's validation refuses) becomes the
      node `[]`. */
  lemma EmptyStageBackendFlow(id: string)
    ensures BackendNodes([PipelineStep(id, [])]) == [Some("[]")]
    ensures FlowSection(false, BackendNodes([PipelineStep(id, [])]))
         == "    # Pipeline Flow\n" + Edge("start", "[]") + Edge("[]", "end")
  {
    var p := [PipelineStep(id, [])];
    assert BackendStepNode(p[0]) == "[]" by {
      assert TaskVars([]) == [];
      assert Join([], ", ") == "";
    }
    SingleNodeFlow("[]");
  }

  /** The front ends skip the same stage. */
  lemma EmptyStageFrontEndFlow(id: string)
    ensures FlowSection(false, FrontEndNodes([PipelineStep(id, [])]))
         == "    # Pipeline Flow\n    start >> end\n"
  {
    EmptyFlow(FrontEndNodes([PipelineStep(id, [])]));
  }
}
