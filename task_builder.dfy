/** The pipeline editor: the slot usage of each step against the pool limit,
    the step-count slider, and adding, removing and moving tasks. Steps are
    objects; adding and removing change the `tasks` of a step in place, so the
    pipeline the editor was given sees the change too, while a move works on a
    deep copy. Fresh task and step ids come in as parameters. */
module TaskBuilder {
  import opened Text
  import opened Config

  // ---------------------------------------------------------------------------
  // Slot usage
  // ---------------------------------------------------------------------------

  /** The limit when the parent passes none. */
  const DefaultPoolLimit: int := 5

  /** The add control is shown while a step has fewer tasks than this. */
  const MaxTasksPerStep: int := 5

  /** The sum of the pool slots of a step's tasks. */
  function UsedSlots(tasks: seq<Task>): int
    decreases |tasks|
  {
    if |tasks| == 0 then 0 else UsedSlots(tasks[..|tasks| - 1]) + tasks[|tasks| - 1].poolSlots
  }

  function PoolLimit(limit: Option<int>): int {
    match limit
    case None => DefaultPoolLimit
    case Some(l) => l
  }

  /** A step is over the limit only when it uses strictly more slots. */
  predicate IsOverLimit(tasks: seq<Task>, limit: Option<int>) {
    UsedSlots(tasks) > PoolLimit(limit)
  }

  lemma {:induction false} UsedSlotsAppend(a: seq<Task>, b: seq<Task>)
    ensures UsedSlots(a + b) == UsedSlots(a) + UsedSlots(b)
    decreases |b|
  {
    if |b| == 0 {
      assert a + b == a;
    } else {
      var n, ab := |b| - 1, a + b;
      assert ab[..|ab| - 1] == a + b[..n] && ab[|ab| - 1] == b[n];
      UsedSlotsAppend(a, b[..n]);
    }
  }

  /** With one slot per task the usage is the task count. */
  lemma {:induction false} OneSlotEach(tasks: seq<Task>)
    requires forall k :: 0 <= k < |tasks| ==> tasks[k].poolSlots == 1
    ensures UsedSlots(tasks) == |tasks|
    decreases |tasks|
  {
    if |tasks| > 0 {
      OneSlotEach(tasks[..|tasks| - 1]);
    }
  }

  /** Under the default limit, one-slot tasks are over the limit only from the
      sixth on: five are exactly at the limit, which is not over. */
  lemma DefaultLimitOneSlotEach(tasks: seq<Task>)
    requires forall k :: 0 <= k < |tasks| ==> tasks[k].poolSlots == 1
    ensures IsOverLimit(tasks, None) <==> |tasks| > 5
  {
    OneSlotEach(tasks);
  }

  /** Tasks within the validated range of one to five slots use at least one slot
      each and at most five. */
  lemma {:induction false} UsedSlotsBounds(tasks: seq<Task>)
    requires forall k :: 0 <= k < |tasks| ==> 1 <= tasks[k].poolSlots <= 5
    ensures |tasks| <= UsedSlots(tasks) <= 5 * |tasks|
    decreases |tasks|
  {
    if |tasks| > 0 {
      UsedSlotsBounds(tasks[..|tasks| - 1]);
    }
  }

  // ---------------------------------------------------------------------------
  // Steps as objects
  // ---------------------------------------------------------------------------

  /** A pipeline step object; its `tasks` array is what add and remove mutate. */
  class Step {
    var id: string
    var tasks: seq<Task>

    constructor (id: string, tasks: seq<Task>)
      ensures Value() == PipelineStep(id, tasks)
    {
      this.id := id;
      this.tasks := tasks;
    }

    function Value(): PipelineStep
      reads this
    {
      PipelineStep(id, tasks)
    }
  }

  /** The contents of a pipeline of step objects. */
  function Values(p: seq<Step>): (r: seq<PipelineStep>)
    reads p
    ensures |r| == |p|
    ensures forall i :: 0 <= i < |p| ==> r[i] == p[i].Value()
    decreases |p|
  {
    if |p| == 0 then [] else Values(p[..|p| - 1]) + [p[|p| - 1].Value()]
  }

  lemma ValuesTake(p: seq<Step>, n: nat)
    requires n <= |p|
    ensures Values(p[..n]) == Values(p)[..n]
  {
  }

  lemma ValuesAppend(a: seq<Step>, b: seq<Step>)
    ensures Values(a + b) == Values(a) + Values(b)
  {
    var l, r := Values(a + b), Values(a) + Values(b);
    forall k | 0 <= k < |l| ensures l[k] == r[k] {
      if k < |a| {
        assert (a + b)[k] == a[k];
      } else {
        assert (a + b)[k] == b[k - |a|];
      }
    }
  }

  /** No step object appears twice. */
  predicate Distinct(p: seq<Step>) {
    forall i, j :: 0 <= i < j < |p| ==> p[i] != p[j]
  }

  // ---------------------------------------------------------------------------
  // Task counts under an update of one step
  // ---------------------------------------------------------------------------

  /** Replacing the tasks of one step replaces them in the flattened task list. */
  lemma {:induction false} AllTasksUpdate(p: seq<PipelineStep>, i: nat, ts: seq<Task>)
    requires i < |p|
    ensures multiset(AllTasks(p[i := p[i].(tasks := ts)])) + multiset(p[i].tasks)
         == multiset(AllTasks(p)) + multiset(ts)
    decreases |p|
  {
    var q := p[i := p[i].(tasks := ts)];
    var n := |p| - 1;
    var pre, qpre := p[..n], q[..n];
    assert AllTasks(q) == AllTasks(qpre) + q[n].tasks;
    assert AllTasks(p) == AllTasks(pre) + p[n].tasks;
    if i == n {
      assert qpre == pre;
    } else {
      UpdateBeforeLast(p, i, ts);
      AllTasksUpdate(pre, i, ts);
      var a, b, c, d, e := multiset(AllTasks(qpre)), multiset(p[i].tasks), multiset(AllTasks(pre)), multiset(ts), multiset(p[n].tasks);
      assert a + b == c + d;
      assert multiset(AllTasks(q)) == a + e;
      assert multiset(AllTasks(p)) == c + e;
      MultisetShuffle(a, b, c, d, e);
    }
  }

  lemma MultisetShuffle<T>(a: multiset<T>, b: multiset<T>, c: multiset<T>, d: multiset<T>, e: multiset<T>)
    requires a + b == c + d
    ensures (a + e) + b == (c + e) + d
  {
    forall x ensures ((a + e) + b)[x] == ((c + e) + d)[x] {
      assert (a + b)[x] == (c + d)[x];
    }
  }

  lemma UpdateBeforeLast(p: seq<PipelineStep>, i: nat, ts: seq<Task>)
    requires i < |p| - 1
    ensures p[i := p[i].(tasks := ts)][..|p| - 1] == p[..|p| - 1][i := p[i].(tasks := ts)]
    ensures p[i := p[i].(tasks := ts)][|p| - 1] == p[|p| - 1]
  {
  }

  lemma TaskCountUpdate(p: seq<PipelineStep>, i: nat, ts: seq<Task>)
    requires i < |p|
    ensures TaskCount(p[i := p[i].(tasks := ts)]) + |p[i].tasks| == TaskCount(p) + |ts|
  {
    var q := p[i := p[i].(tasks := ts)];
    AllTasksUpdate(p, i, ts);
    AllTasksLength(p);
    AllTasksLength(q);
    assert |multiset(AllTasks(q)) + multiset(p[i].tasks)| == |multiset(AllTasks(p)) + multiset(ts)|;
  }

  // ---------------------------------------------------------------------------
  // The slider
  // ---------------------------------------------------------------------------

  /** The `selectedPool` a new task starts with: the first configured pool, or none. */
  function DefaultSelectedPool(pools: seq<string>): Option<string> {
    if |pools| > 0 then Some(pools[0]) else None
  }

  /** The one task of a step the slider adds as step number `n`. */
  function StepTask(taskId: string, n: int, pools: seq<string>): Task {
    Task(taskId, "task_step_" + IntToString(n), "", "# Add your logic here...", "low", 1, "python", DefaultSelectedPool(pools))
  }

  function NewSteps(len: nat, count: nat, pools: seq<string>, ids: seq<(string, string)>): (r: seq<PipelineStep>)
    requires |ids| == count
    ensures |r| == count
    ensures forall i :: 0 <= i < count ==> r[i] == PipelineStep(ids[i].0, [StepTask(ids[i].1, len + i + 1, pools)])
  {
    seq(count, i requires 0 <= i < count => PipelineStep(ids[i].0, [StepTask(ids[i].1, len + i + 1, pools)]))
  }

  /** The pipeline the slider passes on for the value `val`. */
  function Resized(p: seq<PipelineStep>, val: int, pools: seq<string>, ids: seq<(string, string)>): seq<PipelineStep>
    requires 0 <= val
    requires val > |p| ==> |ids| == val - |p|
  {
    if val > |p| then p + NewSteps(|p|, val - |p|, pools, ids) else p[..val]
  }

  lemma {:induction false} NewStepsCount(len: nat, count: nat, pools: seq<string>, ids: seq<(string, string)>)
    requires |ids| == count
    ensures TaskCount(NewSteps(len, count, pools, ids)) == count
    decreases count
  {
    if count > 0 {
      var r := NewSteps(len, count, pools, ids);
      assert r[..count - 1] == NewSteps(len, count - 1, pools, ids[..count - 1]);
      NewStepsCount(len, count - 1, pools, ids[..count - 1]);
    }
  }

  /** Growing keeps every step and adds one task per new step; shrinking keeps the
      first `val` steps. */
  lemma ResizedSpec(p: seq<PipelineStep>, val: int, pools: seq<string>, ids: seq<(string, string)>)
    requires 0 <= val
    requires val > |p| ==> |ids| == val - |p|
    ensures |Resized(p, val, pools, ids)| == val
    ensures val >= |p| ==> Resized(p, val, pools, ids)[..|p|] == p
    ensures val >= |p| ==> TaskCount(Resized(p, val, pools, ids)) == TaskCount(p) + (val - |p|)
    ensures val <= |p| ==> Resized(p, val, pools, ids) == p[..val]
    ensures forall i :: |p| <= i < val ==>
      Resized(p, val, pools, ids)[i].tasks == [StepTask(ids[i - |p|].1, i + 1, pools)]
  {
    if val > |p| {
      var added := NewSteps(|p|, val - |p|, pools, ids);
      NewStepsCount(|p|, val - |p|, pools, ids);
      AllTasksAppend(p, added);
      AllTasksLength(p);
      AllTasksLength(added);
      AllTasksLength(p + added);
      assert (p + added)[..|p|] == p;
    } else {
      assert p[..|p|] == p;
    }
  }

  /** Creates one step object per step value, in order. */
  method StepObjects(vals: seq<PipelineStep>) returns (added: seq<Step>)
    ensures Values(added) == vals
    ensures forall j :: 0 <= j < |added| ==> fresh(added[j])
  {
    added := [];
    for i := 0 to |vals|
      invariant |added| == i
      invariant forall j :: 0 <= j < i ==> fresh(added[j])
      invariant forall j :: 0 <= j < i ==> added[j].Value() == vals[j]
    {
      var s := new Step(vals[i].id, vals[i].tasks);
      added := added + [s];
    }
  }

  /** The pipeline with new step objects for `vals` after its own steps. */
  method Grown(pipeline: seq<Step>, vals: seq<PipelineStep>) returns (grown: seq<Step>)
    ensures Values(grown) == Values(pipeline) + vals
    ensures grown[..|pipeline|] == pipeline
    ensures forall i :: |pipeline| <= i < |grown| ==> fresh(grown[i])
  {
    var added := StepObjects(vals);
    grown := pipeline + added;
    assert grown[..|pipeline|] == pipeline;
    ValuesAppend(pipeline, added);
  }

  /** The slider: a value above the step count appends new step objects, one
      below keeps the first steps, and the same value passes nothing on. */
  method SliderChange(pipeline: seq<Step>, val: int, pools: seq<string>, ids: seq<(string, string)>)
    returns (r: Option<seq<Step>>)
    requires 1 <= val <= 10
    requires val > |pipeline| ==> |ids| == val - |pipeline|
    ensures r.None? <==> val == |pipeline|
    ensures r.Some? ==> Values(r.value) == Resized(Values(pipeline), val, pools, ids)
    ensures r.Some? && val < |pipeline| ==> r.value == pipeline[..val]
    ensures r.Some? && val > |pipeline| ==> r.value[..|pipeline|] == pipeline
    ensures r.Some? ==> forall i :: |pipeline| <= i < |r.value| ==> fresh(r.value[i])
  {
    var len := |pipeline|;
    if val > len {
      var vals := NewSteps(len, val - len, pools, ids);
      assert Resized(Values(pipeline), val, pools, ids) == Values(pipeline) + vals;
      var grown := Grown(pipeline, vals);
      r := Some(grown);
    } else if val < len {
      r := Some(pipeline[..val]);
      ValuesTake(pipeline, val);
    } else {
      r := None;
    }
  }

  // ---------------------------------------------------------------------------
  // Adding a task
  // ---------------------------------------------------------------------------

  /** The task the add control appends to a step holding `count` tasks. */
  function ParallelTask(taskId: string, count: int, pools: seq<string>): Task {
    Task(taskId, "parallel_task_" + IntToString(count + 1), "", "# Add logic...", "low", 1, "python", DefaultSelectedPool(pools))
  }

  function WithTaskAdded(p: seq<PipelineStep>, i: nat, taskId: string, pools: seq<string>): seq<PipelineStep>
    requires i < |p|
  {
    p[i := p[i].(tasks := p[i].tasks + [ParallelTask(taskId, |p[i].tasks|, pools)])]
  }

  /** One task more, at the end of the chosen step, one slot more there, and no
      other step touched; through the add control a step never exceeds five tasks. */
  lemma WithTaskAddedSpec(p: seq<PipelineStep>, i: nat, taskId: string, pools: seq<string>)
    requires i < |p|
    ensures var q := WithTaskAdded(p, i, taskId, pools);
      && TaskCount(q) == TaskCount(p) + 1
      && q[i].tasks[..|p[i].tasks|] == p[i].tasks
      && q[i].tasks[|p[i].tasks|].name == "parallel_task_" + IntToString(|p[i].tasks| + 1)
      && UsedSlots(q[i].tasks) == UsedSlots(p[i].tasks) + 1
      && (forall j :: 0 <= j < |p| && j != i ==> q[j] == p[j])
      && (|p[i].tasks| < MaxTasksPerStep ==> |q[i].tasks| <= MaxTasksPerStep)
  {
    var t := ParallelTask(taskId, |p[i].tasks|, pools);
    TaskCountUpdate(p, i, p[i].tasks + [t]);
    UsedSlotsAppend(p[i].tasks, [t]);
    assert UsedSlots([t]) == 1 by { assert [t][..0] == []; }
  }

  /** Adds a task to a step. The new array holds the same step objects, so the
      step object the input pipeline holds gets the task as well. */
  method AddTaskToStep(pipeline: seq<Step>, stepIndex: nat, taskId: string, pools: seq<string>)
    returns (r: seq<Step>)
    requires stepIndex < |pipeline|
    modifies pipeline[stepIndex]
    ensures r == pipeline
    ensures pipeline[stepIndex].id == old(pipeline[stepIndex].id)
    ensures pipeline[stepIndex].tasks
         == old(pipeline[stepIndex].tasks) + [ParallelTask(taskId, |old(pipeline[stepIndex].tasks)|, pools)]
    ensures Distinct(pipeline) ==> Values(r) == WithTaskAdded(old(Values(pipeline)), stepIndex, taskId, pools)
  {
    var newPipeline := pipeline;
    var step := newPipeline[stepIndex];
    step.tasks := step.tasks + [ParallelTask(taskId, |step.tasks|, pools)];
    r := newPipeline;
  }

  // ---------------------------------------------------------------------------
  // Removing a task
  // ---------------------------------------------------------------------------

  /** `tasks.splice(k, 1)`: an index past the end removes nothing. */
  function SpliceOut(ts: seq<Task>, k: nat): (r: seq<Task>)
    ensures k < |ts| ==> |r| == |ts| - 1
    ensures k >= |ts| ==> r == ts
  {
    if k < |ts| then ts[..k] + ts[k + 1..] else ts
  }

  /** The pipeline is one step holding one task. */
  predicate OnlyTask(p: seq<PipelineStep>) {
    |p| == 1 && |p[0].tasks| == 1
  }

  function WithTaskRemoved(p: seq<PipelineStep>, i: nat, k: nat): seq<PipelineStep>
    requires i < |p|
  {
    p[i := p[i].(tasks := SpliceOut(p[i].tasks, k))]
  }

  /** Removing takes exactly one task away and touches no other step. The only
      step of a one-step pipeline is never emptied; a step of a longer pipeline
      can be. */
  lemma WithTaskRemovedSpec(p: seq<PipelineStep>, i: nat, k: nat)
    requires i < |p| && k < |p[i].tasks|
    ensures var q := WithTaskRemoved(p, i, k);
      && TaskCount(q) + 1 == TaskCount(p)
      && multiset(AllTasks(q)) + multiset{p[i].tasks[k]} == multiset(AllTasks(p))
      && (forall j :: 0 <= j < |p| && j != i ==> q[j] == p[j])
      && (|p| == 1 && !OnlyTask(p) ==> |q[0].tasks| >= 1)
      && (|p| > 1 && |p[i].tasks| == 1 ==> q[i].tasks == [])
  {
    TaskCountUpdate(p, i, SpliceOut(p[i].tasks, k));
    RemovedTasks(p, i, k);
  }

  /** Splicing out a task leaves every other task, each as often as before. */
  lemma SpliceOutMultiset(ts: seq<Task>, k: nat)
    requires k < |ts|
    ensures multiset(ts) == multiset(SpliceOut(ts, k)) + multiset{ts[k]}
  {
    assert ts == ts[..k] + [ts[k]] + ts[k + 1..];
  }

  lemma RemovedTasks(p: seq<PipelineStep>, i: nat, k: nat)
    requires i < |p| && k < |p[i].tasks|
    ensures multiset(AllTasks(WithTaskRemoved(p, i, k))) + multiset{p[i].tasks[k]} == multiset(AllTasks(p))
  {
    var ts := p[i].tasks;
    var rest := SpliceOut(ts, k);
    AllTasksUpdate(p, i, rest);
    SpliceOutMultiset(ts, k);
    MultisetCancel(multiset(AllTasks(WithTaskRemoved(p, i, k))) + multiset{ts[k]}, multiset(AllTasks(p)), multiset(rest));
  }

  lemma AppendedTask(q: seq<PipelineStep>, t: nat, x: Task)
    requires t < |q|
    ensures multiset(AllTasks(q[t := q[t].(tasks := q[t].tasks + [x])])) == multiset(AllTasks(q)) + multiset{x}
  {
    AllTasksUpdate(q, t, q[t].tasks + [x]);
    MultisetCancel(multiset(AllTasks(q[t := q[t].(tasks := q[t].tasks + [x])])),
                   multiset(AllTasks(q)) + multiset{x}, multiset(q[t].tasks));
  }

  /** Removes a task from a step in place, unless the pipeline is one step with
      one task, in which case nothing changes and nothing is passed on. */
  method RemoveTask(pipeline: seq<Step>, stepIndex: nat, taskIndex: nat) returns (r: Option<seq<Step>>)
    requires stepIndex < |pipeline|
    modifies pipeline[stepIndex]
    ensures OnlyTask(old(Values(pipeline))) ==> r.None? && pipeline[stepIndex].tasks == old(pipeline[stepIndex].tasks)
    ensures !OnlyTask(old(Values(pipeline))) ==>
      r == Some(pipeline) && pipeline[stepIndex].tasks == SpliceOut(old(pipeline[stepIndex].tasks), taskIndex)
    ensures pipeline[stepIndex].id == old(pipeline[stepIndex].id)
    ensures Distinct(pipeline) && r.Some? ==> Values(r.value) == WithTaskRemoved(old(Values(pipeline)), stepIndex, taskIndex)
  {
    var newPipeline := pipeline;
    if |newPipeline| == 1 && |newPipeline[0].tasks| == 1 {
      return None;
    }
    var step := newPipeline[stepIndex];
    step.tasks := SpliceOut(step.tasks, taskIndex);
    r := Some(newPipeline);
  }

  // ---------------------------------------------------------------------------
  // Moving a task
  // ---------------------------------------------------------------------------

  /** The position of the dragged task. */
  datatype Drag = Drag(stepIdx: nat, taskIdx: nat)

  predicate ValidDrag(p: seq<PipelineStep>, d: Drag, target: nat) {
    d.stepIdx < |p| && d.taskIdx < |p[d.stepIdx].tasks| && target < |p|
  }

  /** The dragged task taken out of its step and appended to the target step. */
  function Moved(p: seq<PipelineStep>, d: Drag, target: nat): seq<PipelineStep>
    requires ValidDrag(p, d, target)
  {
    var moved := p[d.stepIdx].tasks[d.taskIdx];
    var q := WithTaskRemoved(p, d.stepIdx, d.taskIdx);
    q[target := q[target].(tasks := q[target].tasks + [moved])]
  }

  lemma MultisetCancel(a: multiset<Task>, b: multiset<Task>, c: multiset<Task>)
    requires a + c == b + c
    ensures a == b
  {
    assert forall x :: a[x] == (a + c)[x] - c[x] && b[x] == (b + c)[x] - c[x];
  }

  /** A move keeps the same tasks, hence the same count. */
  lemma MoveKeepsTasks(p: seq<PipelineStep>, d: Drag, target: nat)
    requires ValidDrag(p, d, target)
    ensures multiset(AllTasks(Moved(p, d, target))) == multiset(AllTasks(p))
    ensures TaskCount(Moved(p, d, target)) == TaskCount(p)
  {
    var moved := p[d.stepIdx].tasks[d.taskIdx];
    var q := WithTaskRemoved(p, d.stepIdx, d.taskIdx);
    RemovedTasks(p, d.stepIdx, d.taskIdx);
    AppendedTask(q, target, moved);
    var r := Moved(p, d, target);
    assert multiset(AllTasks(r)) == multiset(AllTasks(p));
    assert |AllTasks(r)| == |multiset(AllTasks(r))| == |multiset(AllTasks(p))| == |AllTasks(p)|;
    AllTasksLength(p);
    AllTasksLength(r);
  }

  /** The dragged task ends up last in the target step, after the target's other
      tasks in their old order (within one step too), and every step other than
      source and target stays as it was. */
  lemma MovedSpec(p: seq<PipelineStep>, d: Drag, target: nat)
    requires ValidDrag(p, d, target)
    ensures var r := Moved(p, d, target);
      && |r| == |p|
      && r[target].tasks[|r[target].tasks| - 1] == p[d.stepIdx].tasks[d.taskIdx]
      && (forall j :: 0 <= j < |p| && j != d.stepIdx && j != target ==> r[j] == p[j])
      && (d.stepIdx != target ==> r[d.stepIdx].tasks == SpliceOut(p[d.stepIdx].tasks, d.taskIdx))
      && (d.stepIdx != target ==> r[target].tasks == p[target].tasks + [p[d.stepIdx].tasks[d.taskIdx]])
      && (d.stepIdx == target ==> r[target].tasks == SpliceOut(p[target].tasks, d.taskIdx) + [p[d.stepIdx].tasks[d.taskIdx]])
  {
  }

  /** `JSON.parse(JSON.stringify(pipeline))`: new step objects with the same
      contents. */
  method DeepCopy(pipeline: seq<Step>) returns (copy: seq<Step>)
    ensures Values(copy) == Values(pipeline)
    ensures Distinct(copy)
    ensures forall i :: 0 <= i < |copy| ==> fresh(copy[i])
  {
    copy := [];
    for i := 0 to |pipeline|
      invariant |copy| == i
      invariant forall j :: 0 <= j < i ==> fresh(copy[j]) && copy[j].Value() == pipeline[j].Value()
      invariant Distinct(copy)
    {
      var s := new Step(pipeline[i].id, pipeline[i].tasks);
      copy := copy + [s];
    }
  }

  /** Dropping the dragged task on a step: without a drag nothing happens;
      otherwise the move is made on a deep copy, so the input is untouched. */
  method OnDrop(pipeline: seq<Step>, dragged: Option<Drag>, target: nat) returns (r: Option<seq<Step>>)
    requires dragged.Some? ==> ValidDrag(Values(pipeline), dragged.value, target)
    ensures dragged.None? <==> r.None?
    ensures dragged.Some? ==> Values(r.value) == Moved(Values(pipeline), dragged.value, target)
    ensures r.Some? ==> forall i :: 0 <= i < |r.value| ==> fresh(r.value[i])
  {
    if dragged.None? {
      return None;
    }
    var newPipeline := MovedCopy(pipeline, dragged.value, target);
    r := Some(newPipeline);
  }

  /** The move made on a deep copy of the pipeline. */
  method MovedCopy(pipeline: seq<Step>, d: Drag, target: nat) returns (copy: seq<Step>)
    requires ValidDrag(Values(pipeline), d, target)
    ensures Values(copy) == Moved(old(Values(pipeline)), d, target)
    ensures forall i :: 0 <= i < |copy| ==> fresh(copy[i])
  {
    copy := DeepCopy(pipeline);
    MoveInPlace(copy, d, target);
  }

  /** The splice and push of a move, on step objects that are all different. */
  method MoveInPlace(p: seq<Step>, d: Drag, target: nat)
    requires Distinct(p) && ValidDrag(Values(p), d, target)
    modifies p[d.stepIdx], p[target]
    ensures Values(p) == Moved(old(Values(p)), d, target)
  {
    ghost var v := Values(p);
    var src := p[d.stepIdx];
    var movedTask := src.tasks[d.taskIdx];
    src.tasks := SpliceOut(src.tasks, d.taskIdx);
    ghost var q := WithTaskRemoved(v, d.stepIdx, d.taskIdx);
    assert forall i :: 0 <= i < |p| ==> p[i].Value() == q[i];
    var dst := p[target];
    dst.tasks := dst.tasks + [movedTask];
    assert forall i :: 0 <= i < |p| ==> p[i].Value() == Moved(v, d, target)[i];
  }
}
