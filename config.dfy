/** The project configuration the studio edits and compiles: tasks grouped in
    sequential pipeline steps, plus the identity, environment, I/O and schedule
    settings of one Airflow project. */
module Config {
  import opened Text

  /** One unit of work; `priority` and `kind` keep the raw strings the code
      switches on ('high' | 'mid' | 'low', 'python' | 'bash' | 'dummy'). */
  datatype Task = Task(
    id: string,
    name: string,
    imports: string,
    code: string,
    priority: string,
    poolSlots: int,
    kind: string,
    selectedPool: Option<string>)

  /** A pipeline step: its tasks run in parallel, steps run in sequence. */
  datatype PipelineStep = PipelineStep(id: string, tasks: seq<Task>)

  datatype Stage = LIL | SXB

  function StageName(s: Stage): string {
    match s
    case LIL => "LIL"
    case SXB => "SXB"
  }

  /** The whole project. `poolType` is the single pool of the older front end;
      the current front end and the backend use `pools` instead. */
  datatype ProjectConfig = ProjectConfig(
    nomprojet: string,
    coderobin: string,
    gitRemote: string,
    persoid: string,
    lddata: string,
    useConda: bool,
    condaenv: string,
    stage: Stage,
    useVertica: bool,
    silot: string,
    useInput: bool,
    datalabIn: string,
    useOutput: bool,
    datalabOut: string,
    useNas: bool,
    useGpu: bool,
    cron: string,
    bundleBase: string,
    prepareTests: bool,
    pipeline: seq<PipelineStep>,
    pools: seq<string>,
    poolType: string)

  datatype DeploymentPhase = LocalPush | MrValidation | Tagging | DeployCi | Success

  datatype AppView = Home | Explorer | Generator | Deployment | Modifier

  /** Every task of the pipeline, step by step, in task order. */
  function AllTasks(pipeline: seq<PipelineStep>): (r: seq<Task>)
    ensures |pipeline| == 0 ==> r == []
    decreases |pipeline|
  {
    if |pipeline| == 0 then []
    else AllTasks(pipeline[..|pipeline| - 1]) + pipeline[|pipeline| - 1].tasks
  }

  /** The number of tasks in the pipeline. */
  function TaskCount(pipeline: seq<PipelineStep>): nat
    decreases |pipeline|
  {
    if |pipeline| == 0 then 0
    else TaskCount(pipeline[..|pipeline| - 1]) + |pipeline[|pipeline| - 1].tasks|
  }

  lemma {:induction false} AllTasksLength(pipeline: seq<PipelineStep>)
    ensures |AllTasks(pipeline)| == TaskCount(pipeline)
    decreases |pipeline|
  {
    if |pipeline| > 0 { AllTasksLength(pipeline[..|pipeline| - 1]); }
  }

  lemma {:induction false} AllTasksAppend(a: seq<PipelineStep>, b: seq<PipelineStep>)
    ensures AllTasks(a + b) == AllTasks(a) + AllTasks(b)
    decreases |b|
  {
    if |b| == 0 {
      assert a + b == a;
    } else {
      var n, ab := |b| - 1, a + b;
      assert ab[..|ab| - 1] == a + b[..n] && ab[|ab| - 1] == b[n];
      AllTasksAppend(a, b[..n]);
      AppendAssoc(AllTasks(a), AllTasks(b[..n]), b[n].tasks);
    }
  }

  /** Taking one more step adds that step's tasks at the end. */
  lemma AllTasksStep(pipeline: seq<PipelineStep>, i: nat)
    requires i < |pipeline|
    ensures AllTasks(pipeline[..i + 1]) == AllTasks(pipeline[..i]) + pipeline[i].tasks
  {
    assert pipeline[..i + 1][..i] == pipeline[..i];
  }
}
