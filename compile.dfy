/** The pieces every version of the pipeline compiler shares: task-name
    sanitisation, the priority weight, the DAG identifier, the operator block
    of one task, and the start -> stages -> end dependency-flow cursor. */
module Compile {
  import opened Text
  import opened Config

  // ---------------------------------------------------------------------------
  // Name sanitisation: every character outside [A-Za-z0-9_] becomes '_'
  // ---------------------------------------------------------------------------

  function SanitizeChar(c: char): char {
    if IsWordChar(c) then c else '_'
  }

  function Sanitize(name: string): (r: string)
    ensures |r| == |name|
    ensures forall i :: 0 <= i < |name| ==> r[i] == SanitizeChar(name[i])
  {
    if name == [] then [] else [SanitizeChar(name[0])] + Sanitize(name[1..])
  }

  predicate IsIdentifierText(s: string) {
    forall i :: 0 <= i < |s| ==> IsWordChar(s[i])
  }

  /** The result only holds word characters, and word characters are kept. */
  lemma SanitizeWordChars(name: string)
    ensures IsIdentifierText(Sanitize(name))
    ensures forall i :: 0 <= i < |name| && IsWordChar(name[i]) ==> Sanitize(name)[i] == name[i]
  {
  }

  /** A name is left unchanged exactly when it is already made of word characters. */
  lemma SanitizeFixpoint(name: string)
    ensures Sanitize(name) == name <==> IsIdentifierText(name)
  {
    if Sanitize(name) == name {
      forall i | 0 <= i < |name| ensures IsWordChar(name[i]) {
        assert Sanitize(name)[i] == name[i];
      }
    }
  }

  lemma SanitizeIdempotent(name: string)
    ensures Sanitize(Sanitize(name)) == Sanitize(name)
  {
    SanitizeWordChars(name);
    SanitizeFixpoint(Sanitize(name));
  }

  lemma SanitizeExample(name: string)
    requires name == "load data!"
    ensures Sanitize(name) == "load_data_"
  {
    var want := "load_data_";
    var r := Sanitize(name);
    forall i | 0 <= i < |name| ensures r[i] == want[i] {
      if i != 4 && i != 9 {
        assert name[i] == want[i] && IsWordChar(name[i]);
      }
    }
  }

  /** The front ends' `replace(/[^a-zA-Z0-9_]/g, '_')`. Without the `u` flag the
      pattern matches UTF-16 code units, so a character outside the Basic
      Multilingual Plane, never a word character, becomes two underscores. */
  function JsSanitize(name: string): (r: string)
    ensures Utf16Length(r) == Utf16Length(name)
    ensures AllBmp(r) && IsIdentifierText(r)
  {
    if name == [] then []
    else (if IsBmp(name[0]) then [SanitizeChar(name[0])] else "__") + JsSanitize(name[1..])
  }

  /** On names of single-unit characters the front ends and the backend's
      `re.sub` sanitise alike. */
  lemma {:induction false} JsSanitizeOnBmp(name: string)
    requires AllBmp(name)
    ensures JsSanitize(name) == Sanitize(name)
    decreases |name|
  {
    if name != [] {
      JsSanitizeOnBmp(name[1..]);
    }
  }

  /** An emoji is two code units: the front ends write two underscores for it,
      the backend one. */
  lemma SanitizeAstralExample(name: string)
    requires name == "a\U{1F600}"
    ensures JsSanitize(name) == "a__"
    ensures Sanitize(name) == "a_"
    ensures JsSanitize(name) != Sanitize(name)
  {
    assert name[1..] == "\U{1F600}";
    assert !IsBmp(name[1]) && !IsWordChar(name[1]);
  }

  // ---------------------------------------------------------------------------
  // Priority weight
  // ---------------------------------------------------------------------------

  /** The `switch` of the front ends: high -> 3, mid -> 2, low -> 1, default 1. */
  function PriorityWeight(p: string): (w: int)
    ensures 1 <= w <= 3
    ensures w == 3 <==> p == "high"
    ensures w == 2 <==> p == "mid"
  {
    if p == "high" then 3 else if p == "mid" then 2 else 1
  }

  /** The backend's table, looked up with a default of 1. */
  const WeightTable: map<string, int> := map["high" := 3, "mid" := 2, "low" := 1]

  /** The switch and the table with its default agree on every string. */
  lemma PriorityWeightMatchesTable(p: string)
    ensures PriorityWeight(p) == (if p in WeightTable then WeightTable[p] else 1)
  {
  }

  // ---------------------------------------------------------------------------
  // DAG id and the template header
  // ---------------------------------------------------------------------------

  /** `'dag_' + nomprojet` with every '-' turned into '_'. */
  function DagId(nomprojet: string): (r: string)
    ensures |r| == |nomprojet| + 4 && r[..4] == "dag_"
    ensures '-' !in r
    ensures forall i :: 0 <= i < |nomprojet| && nomprojet[i] != '-' ==> r[i + 4] == nomprojet[i]
  {
    "dag_" + ReplaceChar(nomprojet, '-', '_')
  }

  /** `from src.treatment import a, b, ...`, or the empty line without tasks. */
  function ImportLine(names: seq<string>): (r: string)
    ensures names == [] <==> r == ""
  {
    if names == [] then "" else "from src.treatment import " + Join(names, ", ")
  }

  /** The quoted cron, or `None` when the cron is empty. */
  function ScheduleValue(cron: string): (r: string)
    ensures cron == "" <==> r == "None"
    ensures cron != "" ==> r == "\"" + cron + "\""
  {
    if cron == "" then "None"
    else
      var r := "\"" + cron + "\"";
      assert r[0] != "None"[0];
      r
  }

  function EnvLine(env: string): string {
    "custom_env_name = \"" + env + "\""
  }

  function ScheduleLine(value: string): string {
    "schedule_interval = " + value
  }

  /** The rewrites are string `replace` calls, whose replacement text expands `$`
      patterns. Without a `$` in the environment name the environment line is
      inserted as written, which is what the generators' DAG texts hold. */
  lemma EnvRewriteVerbatim(env: string, before: string, after: string)
    requires '$' !in env
    ensures Substitution(EnvLine(env), EnvLine("airflow-env"), before, after) == EnvLine(env)
  {
    assert '$' !in EnvLine(env);
  }

  /** Likewise, a cron without `$` gives the schedule line as written. */
  lemma ScheduleRewriteVerbatim(cron: string, before: string, after: string)
    requires '$' !in cron
    ensures Substitution(ScheduleLine(ScheduleValue(cron)), ScheduleLine("None"), before, after)
         == ScheduleLine(ScheduleValue(cron))
  {
    assert '$' !in ScheduleLine(ScheduleValue(cron));
  }

  /** With the environment name `env$&` the source writes the template's line
      inside the new one, which the generators' DAG texts do not model. */
  lemma EnvRewriteRepeatsMatch(before: string, after: string)
    ensures Substitution(EnvLine("env$&"), EnvLine("airflow-env"), before, after)
         == "custom_env_name = \"env" + EnvLine("airflow-env") + "\""
  {
    var head := "custom_env_name = \"env";
    assert EnvLine("env$&") == head + "$&" + "\"";
    SubstituteMatch(head, "\"", EnvLine("airflow-env"), before, after);
  }

  /** The DAG file up to the first operator. */
  function DagHeader(importLine: string, envLine: string, scheduleLine: string, owner: string, dagId: string): string {
    Concat([
      "from airflow import DAG\n",
      "from airflow.operators.dummy import DummyOperator\n",
      "from airflow.operators.python import PythonOperator\n",
      "from datetime import datetime\n",
      importLine, "\n",
      "\n",
      "# --- Configuration ---\n",
      envLine, "\n",
      scheduleLine, "\n",
      "\n",
      "default_args = {\n",
      "    'owner': '", owner, "',\n",
      "    'start_date': datetime(2023, 1, 1),\n",
      "}\n",
      "\n",
      "with DAG('", dagId, "',\n",
      "         default_args=default_args,\n",
      "         schedule_interval=schedule_interval,\n",
      "         catchup=False) as dag:\n",
      "\n",
      "    start = DummyOperator(task_id='start')\n",
      "    end = DummyOperator(task_id='end')\n",
      "\n"])
  }

  // ---------------------------------------------------------------------------
  // Operators
  // ---------------------------------------------------------------------------

  /** The Python variable that holds a task's operator. */
  function TaskVar(t: Task): string {
    "t_" + Sanitize(t.name)
  }

  /** The `PythonOperator` block of one task. */
  function OperatorBlock(t: Task, pool: string): string {
    var name := Sanitize(t.name);
    ("    t_" + name + " = PythonOperator(\n")
    + ("        task_id='" + name + "',\n")
    + ("        python_callable=" + name + ",\n")
    + ("        priority_weight=" + IntToString(PriorityWeight(t.priority)) + ",\n")
    + ("        pool='" + pool + "',\n")
    + ("        pool_slots=" + IntToString(t.poolSlots) + ",\n")
    + "        dag=dag\n"
    + "    )\n\n"
  }

  /** How each version picks the pool of an operator. */
  datatype PoolPolicy =
    | FirstPool(pools: seq<string>)   // the task's own pool, else the first pool, with JS `||`
    | SinglePool(poolType: string)    // one pool for every task
    | BackendPool(pools: seq<string>) // the task's own pool, else the first pool, with Python `or`

  /** JavaScript and Python truthiness of an optional string. */
  predicate Truthy(o: Option<string>) {
    o.Some? && o.value != ""
  }

  /** The pools a rule may write for a task, besides the `default_pool` fallback:
      the task's own pool and the configured pools, or the one `pool_type`. */
  function PoolChoices(policy: PoolPolicy, t: Task): seq<string> {
    match policy
    case SinglePool(poolType) => [poolType]
    case _ => (if t.selectedPool.Some? then [t.selectedPool.value] else []) + policy.pools
  }

  /** The pool written into a task's operator. */
  function PoolFor(policy: PoolPolicy, t: Task): (r: string)
    // the pool is one the user chose or configured, or the fallback
    ensures r == "default_pool" || r in PoolChoices(policy, t)
    // a task's own non-empty pool wins, except under the single-pool rule
    ensures !policy.SinglePool? && Truthy(t.selectedPool) ==> r == t.selectedPool.value
    // otherwise a non-empty first pool is used
    ensures !policy.SinglePool? && !Truthy(t.selectedPool) && |policy.pools| > 0 && policy.pools[0] != "" ==>
              r == policy.pools[0]
    // the front ends never write `pool=''`
    ensures !policy.BackendPool? ==> r != ""
    // the backend writes `pool=''` exactly when its first pool is empty and the task has none
    ensures policy.BackendPool? ==>
              (r == "" <==> !Truthy(t.selectedPool) && |policy.pools| > 0 && policy.pools[0] == "")
    // with nothing configured anywhere, the fallback
    ensures (if policy.SinglePool? then policy.poolType == "" else !Truthy(t.selectedPool) && |policy.pools| == 0) ==>
              r == "default_pool"
  {
    match policy
    case FirstPool(pools) =>
      if Truthy(t.selectedPool) then t.selectedPool.value
      else if |pools| > 0 && pools[0] != "" then pools[0]
      else "default_pool"
    case SinglePool(poolType) =>
      if poolType != "" then poolType else "default_pool"
    case BackendPool(pools) =>
      if Truthy(t.selectedPool) then t.selectedPool.value
      else if |pools| > 0 then pools[0]
      else "default_pool"
  }

  /** The front end and the backend choose the same pool except when the first pool
      is the empty string and the task has none of its own: the front end then falls
      through to `default_pool`, the backend writes `pool=''`. */
  lemma FrontEndAndBackendPools(pools: seq<string>, t: Task)
    ensures PoolFor(FirstPool(pools), t) != PoolFor(BackendPool(pools), t)
        <==> (!Truthy(t.selectedPool) && |pools| > 0 && pools[0] == "")
  {
  }

  /** The operator blocks of a sequence of tasks, in order. */
  function OperatorBlocks(tasks: seq<Task>, policy: PoolPolicy): (r: seq<string>)
    ensures |r| == |tasks|
    ensures forall k :: 0 <= k < |tasks| ==> r[k] == OperatorBlock(tasks[k], PoolFor(policy, tasks[k]))
  {
    seq(|tasks|, k requires 0 <= k < |tasks| => OperatorBlock(tasks[k], PoolFor(policy, tasks[k])))
  }

  /** Two pool rules that pick the same pool for every task give the same
      operators. */
  lemma OperatorBlocksAgree(tasks: seq<Task>, p1: PoolPolicy, p2: PoolPolicy)
    requires forall k :: 0 <= k < |tasks| ==> PoolFor(p1, tasks[k]) == PoolFor(p2, tasks[k])
    ensures OperatorBlocks(tasks, p1) == OperatorBlocks(tasks, p2)
  {
    var a, b := OperatorBlocks(tasks, p1), OperatorBlocks(tasks, p2);
    forall k | 0 <= k < |tasks| ensures a[k] == b[k] {
      var pool := PoolFor(p1, tasks[k]);
      assert a[k] == OperatorBlock(tasks[k], pool);
      assert b[k] == OperatorBlock(tasks[k], pool);
    }
  }

  function Operators(tasks: seq<Task>, policy: PoolPolicy): string {
    Concat(OperatorBlocks(tasks, policy))
  }

  /** The sanitised task names, in order. */
  function TaskNames(tasks: seq<Task>): (r: seq<string>)
    ensures |r| == |tasks|
    decreases |tasks|
  {
    if |tasks| == 0 then [] else TaskNames(tasks[..|tasks| - 1]) + [Sanitize(tasks[|tasks| - 1].name)]
  }

  lemma {:induction false} TaskNamesAt(tasks: seq<Task>, k: nat)
    requires k < |tasks|
    ensures TaskNames(tasks)[k] == Sanitize(tasks[k].name)
    decreases |tasks|
  {
    if k < |tasks| - 1 {
      TaskNamesAt(tasks[..|tasks| - 1], k);
    }
  }

  /** The operators section holds one block per task, with the blocks of a prefix
      of the tasks coming first. */
  lemma OperatorsAppend(a: seq<Task>, b: seq<Task>, policy: PoolPolicy)
    ensures Operators(a + b, policy) == Operators(a, policy) + Operators(b, policy)
  {
    MapSplit(t => OperatorBlock(t, PoolFor(policy, t)), a, b,
             OperatorBlocks(a + b, policy), OperatorBlocks(a, policy), OperatorBlocks(b, policy));
    ConcatAppend(OperatorBlocks(a, policy), OperatorBlocks(b, policy));
  }

  lemma {:induction false} TaskNamesAppend(a: seq<Task>, b: seq<Task>)
    ensures TaskNames(a + b) == TaskNames(a) + TaskNames(b)
    decreases |b|
  {
    if |b| == 0 {
      assert a + b == a;
    } else {
      assert (a + b)[..|a + b| - 1] == a + b[..|b| - 1];
      TaskNamesAppend(a, b[..|b| - 1]);
    }
  }

  /** Pushes the sanitised name of every task of one step. */
  method PushStepNames(names: seq<string>, tasks: seq<Task>) returns (r: seq<string>)
    ensures r == names + TaskNames(tasks)
  {
    r := names;
    var j := 0;
    while j < |tasks|
      invariant 0 <= j <= |tasks|
      invariant r == names + TaskNames(tasks[..j])
    {
      assert tasks[..j + 1][..j] == tasks[..j];
      r := r + [Sanitize(tasks[j].name)];
      j := j + 1;
    }
    assert tasks[..j] == tasks;
  }

  /** Collects the sanitised names of all tasks, step after step. */
  method CollectTaskNames(pipeline: seq<PipelineStep>) returns (names: seq<string>)
    ensures names == TaskNames(AllTasks(pipeline))
  {
    names := [];
    var i := 0;
    while i < |pipeline|
      invariant 0 <= i <= |pipeline|
      invariant names == TaskNames(AllTasks(pipeline[..i]))
    {
      AllTasksStep(pipeline, i);
      TaskNamesAppend(AllTasks(pipeline[..i]), pipeline[i].tasks);
      names := PushStepNames(names, pipeline[i].tasks);
      i := i + 1;
    }
    assert pipeline[..i] == pipeline;
  }

  /** Writes the operator of one task, line by line. */
  method AppendOperator(content: string, t: Task, pool: string) returns (r: string)
    ensures r == content + OperatorBlock(t, pool)
  {
    var name := Sanitize(t.name);
    var l1 := "    t_" + name + " = PythonOperator(\n";
    var l2 := "        task_id='" + name + "',\n";
    var l3 := "        python_callable=" + name + ",\n";
    var l4 := "        priority_weight=" + IntToString(PriorityWeight(t.priority)) + ",\n";
    var l5 := "        pool='" + pool + "',\n";
    var l6 := "        pool_slots=" + IntToString(t.poolSlots) + ",\n";
    var l7 := "        dag=dag\n";
    var l8 := "    )\n\n";
    r := content + l1;
    r := r + l2;
    AppendAssoc(content, l1, l2);
    r := r + l3;
    AppendAssoc(content, l1 + l2, l3);
    r := r + l4;
    AppendAssoc(content, l1 + l2 + l3, l4);
    r := r + l5;
    AppendAssoc(content, l1 + l2 + l3 + l4, l5);
    r := r + l6;
    AppendAssoc(content, l1 + l2 + l3 + l4 + l5, l6);
    r := r + l7;
    AppendAssoc(content, l1 + l2 + l3 + l4 + l5 + l6, l7);
    r := r + l8;
    AppendAssoc(content, l1 + l2 + l3 + l4 + l5 + l6 + l7, l8);
  }

  lemma OperatorsSnoc(tasks: seq<Task>, j: nat, policy: PoolPolicy)
    requires j < |tasks|
    ensures Operators(tasks[..j + 1], policy)
         == Operators(tasks[..j], policy) + OperatorBlock(tasks[j], PoolFor(policy, tasks[j]))
  {
    var a, t := tasks[..j], tasks[j];
    assert tasks[..j + 1] == a + [t];
    OperatorsAppend(a, [t], policy);
    OperatorsOne(t, policy);
  }

  lemma OperatorsOne(t: Task, policy: PoolPolicy)
    ensures Operators([t], policy) == OperatorBlock(t, PoolFor(policy, t))
  {
    var bs := OperatorBlocks([t], policy);
    assert bs == [bs[0]];
    ConcatSingle(bs[0]);
  }

  /** Writes the operators of one step's tasks. */
  method AppendStepOperators(content: string, tasks: seq<Task>, policy: PoolPolicy) returns (r: string)
    ensures r == content + Operators(tasks, policy)
  {
    r := content;
    var j := 0;
    while j < |tasks|
      invariant 0 <= j <= |tasks|
      invariant r == content + Operators(tasks[..j], policy)
    {
      OperatorsSnoc(tasks, j, policy);
      var pool := PoolFor(policy, tasks[j]);
      AppendAssoc(content, Operators(tasks[..j], policy), OperatorBlock(tasks[j], pool));
      r := AppendOperator(r, tasks[j], pool);
      j := j + 1;
    }
    assert tasks[..j] == tasks;
  }

  /** Writes one operator per task, step after step. */
  method AppendOperators(content: string, pipeline: seq<PipelineStep>, policy: PoolPolicy) returns (r: string)
    ensures r == content + Operators(AllTasks(pipeline), policy)
  {
    r := content;
    var i := 0;
    while i < |pipeline|
      invariant 0 <= i <= |pipeline|
      invariant r == content + Operators(AllTasks(pipeline[..i]), policy)
    {
      AllTasksStep(pipeline, i);
      OperatorsAppend(AllTasks(pipeline[..i]), pipeline[i].tasks, policy);
      AppendAssoc(content, Operators(AllTasks(pipeline[..i]), policy), Operators(pipeline[i].tasks, policy));
      r := AppendStepOperators(r, pipeline[i].tasks, policy);
      i := i + 1;
    }
    assert pipeline[..i] == pipeline;
  }

  // ---------------------------------------------------------------------------
  // Dependency flow
  // ---------------------------------------------------------------------------

  function Edge(from: string, to: string): string {
    "    " + from + " >> " + to + "\n"
  }

  /** The node of a stage in the front ends: none for an empty stage, the task
      variable for a single task, a bracketed list otherwise. */
  function StepNode(step: PipelineStep): (r: Option<string>)
    ensures r.None? <==> |step.tasks| == 0
  {
    if |step.tasks| == 0 then None
    else if |step.tasks| == 1 then Some(TaskVar(step.tasks[0]))
    else Some(BracketList(step.tasks))
  }

  /** The node of a stage in the backend: a single task is a scalar, any other
      count (zero included) is a bracketed list. */
  function BackendStepNode(step: PipelineStep): string {
    if |step.tasks| == 1 then TaskVar(step.tasks[0]) else BracketList(step.tasks)
  }

  function TaskVars(tasks: seq<Task>): (r: seq<string>)
    ensures |r| == |tasks|
    ensures forall k :: 0 <= k < |tasks| ==> r[k] == TaskVar(tasks[k])
  {
    seq(|tasks|, k requires 0 <= k < |tasks| => TaskVar(tasks[k]))
  }

  function BracketList(tasks: seq<Task>): string {
    "[" + Join(TaskVars(tasks), ", ") + "]"
  }

  /** The two node rules agree on every stage that has tasks; an empty stage has no
      node in the front ends and is `[]` in the backend. */
  lemma StepNodesAgree(step: PipelineStep)
    ensures |step.tasks| > 0 ==> StepNode(step) == Some(BackendStepNode(step))
    ensures |step.tasks| == 0 ==> StepNode(step) == None && BackendStepNode(step) == "[]"
  {
  }

  /** The flow emitted by the cursor loop from node `prev` over the remaining
      stage nodes: a missing node is skipped, a present one is linked from the
      cursor and becomes the cursor, and the last cursor is linked to `end`. */
  function Flow(prev: string, nodes: seq<Option<string>>): string
    decreases |nodes|
  {
    if |nodes| == 0 then Edge(prev, "end")
    else match nodes[0]
      case None => Flow(prev, nodes[1..])
      case Some(n) => Edge(prev, n) + Flow(n, nodes[1..])
  }

  /** The nodes that are present, in order. */
  function Present(nodes: seq<Option<string>>): (r: seq<string>)
    ensures |r| <= |nodes|
    decreases |nodes|
  {
    if |nodes| == 0 then []
    else (if nodes[0].Some? then [nodes[0].value] else []) + Present(nodes[1..])
  }

  /** A chain of nodes, each linked to the next. */
  function Edges(chain: seq<string>): string
    decreases |chain|
  {
    if |chain| < 2 then "" else Edge(chain[0], chain[1]) + Edges(chain[1..])
  }

  /** The cursor loop links `prev`, the present nodes and `end` into one chain. */
  lemma {:induction false} FlowIsChain(prev: string, nodes: seq<Option<string>>)
    ensures Flow(prev, nodes) == Edges([prev] + Present(nodes) + ["end"])
    decreases |nodes|
  {
    if |nodes| == 0 {
      assert [prev] + Present(nodes) + ["end"] == [prev, "end"];
      assert [prev, "end"][1..] == ["end"];
    } else {
      FlowIsChain(if nodes[0].Some? then nodes[0].value else prev, nodes[1..]);
      match nodes[0]
      case None =>
        assert Present(nodes) == Present(nodes[1..]);
      case Some(n) =>
        var c := [prev] + Present(nodes) + ["end"];
        assert Present(nodes) == [n] + Present(nodes[1..]);
        assert c[0] == prev && c[1] == n;
        assert c[1..] == [n] + Present(nodes[1..]) + ["end"];
    }
  }

  /** With no present node the flow is the single link `start >> end`. */
  lemma EmptyFlow(nodes: seq<Option<string>>)
    requires forall k :: 0 <= k < |nodes| ==> nodes[k].None?
    ensures Flow("start", nodes) == "    start >> end\n"
  {
    EmptyFlowFrom("start", nodes);
    StartToEnd();
  }

  lemma StartToEnd()
    ensures Edge("start", "end") == "    start >> end\n"
  {
  }

  /** Missing nodes are skipped: the cursor is linked straight to `end`. */
  lemma {:induction false} EmptyFlowFrom(prev: string, nodes: seq<Option<string>>)
    requires forall k :: 0 <= k < |nodes| ==> nodes[k].None?
    ensures Flow(prev, nodes) == Edge(prev, "end")
    decreases |nodes|
  {
    if |nodes| > 0 {
      EmptyFlowFrom(prev, nodes[1..]);
    }
  }

  /** The cursor loop of the generators: walks the stage nodes once, carrying the
      previous node. */
  method EmitFlow(nodes: seq<Option<string>>) returns (out: string)
    ensures out == Flow("start", nodes)
  {
    out := "";
    var prev := "start";
    var i := 0;
    while i < |nodes|
      invariant 0 <= i <= |nodes|
      invariant out + Flow(prev, nodes[i..]) == Flow("start", nodes)
    {
      assert nodes[i..][0] == nodes[i] && nodes[i..][1..] == nodes[i + 1..];
      match nodes[i] {
        case None =>
        case Some(n) =>
          out := out + Edge(prev, n);
          prev := n;
      }
      i := i + 1;
    }
    out := out + Edge(prev, "end");
  }

  /** The front-end nodes of a pipeline, one per stage. */
  function FrontEndNodes(pipeline: seq<PipelineStep>): (r: seq<Option<string>>)
    ensures |r| == |pipeline|
    ensures forall k :: 0 <= k < |pipeline| ==> r[k] == StepNode(pipeline[k])
  {
    seq(|pipeline|, k requires 0 <= k < |pipeline| => StepNode(pipeline[k]))
  }

  /** The backend nodes of a pipeline: every stage has one. */
  function BackendNodes(pipeline: seq<PipelineStep>): (r: seq<Option<string>>)
    ensures |r| == |pipeline|
    ensures forall k :: 0 <= k < |pipeline| ==> r[k] == Some(BackendStepNode(pipeline[k]))
  {
    seq(|pipeline|, k requires 0 <= k < |pipeline| => Some(BackendStepNode(pipeline[k])))
  }

  /** The flow section: the heading comment, then `start >> end` for an empty
      pipeline or the cursor chain otherwise. */
  function FlowSection(pipelineEmpty: bool, nodes: seq<Option<string>>): string {
    "    # Pipeline Flow\n" + (if pipelineEmpty then "    start >> end\n" else Flow("start", nodes))
  }

  /** Writes the flow section: the heading comment, then `start >> end` for an empty
      pipeline, otherwise the cursor chain. */
  method EmitFlowSection(pipelineEmpty: bool, nodes: seq<Option<string>>) returns (out: string)
    ensures out == FlowSection(pipelineEmpty, nodes)
  {
    out := "    # Pipeline Flow\n";
    if pipelineEmpty {
      out := out + "    start >> end\n";
    } else {
      var flow := EmitFlow(nodes);
      out := out + flow;
    }
  }

  /** In the front ends the empty-pipeline special case changes nothing: the cursor
      chain over no nodes is already `start >> end`. */
  lemma EmptyPipelineCaseRedundant(pipeline: seq<PipelineStep>)
    ensures FlowSection(|pipeline| == 0, FrontEndNodes(pipeline)) == FlowSection(false, FrontEndNodes(pipeline))
  {
    if |pipeline| == 0 { EmptyFlow(FrontEndNodes(pipeline)); }
  }

  /** Front end and backend produce the same flow when no stage is empty. */
  lemma FlowsAgreeWithoutEmptyStages(pipeline: seq<PipelineStep>)
    requires forall k :: 0 <= k < |pipeline| ==> |pipeline[k].tasks| > 0
    ensures FrontEndNodes(pipeline) == BackendNodes(pipeline)
  {
    forall k | 0 <= k < |pipeline| ensures FrontEndNodes(pipeline)[k] == BackendNodes(pipeline)[k] {
      StepNodesAgree(pipeline[k]);
    }
  }
}
