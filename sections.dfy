/** The guided flow both studio front ends share: five accordion sections, at
    most one open, a set of completed ones, and the single-task edit made from
    the task popover. */
module Sections {
  import opened Text
  import opened Config
  import Models
  import TaskBuilder

  datatype Section = Identity | Pool | Pipeline | Env | Io

  const AllSections: set<Section> := {Identity, Pool, Pipeline, Env, Io}

  /** The open section and the completed ones. */
  datatype Guide = Guide(open: Option<Section>, done: set<Section>)

  const InitialGuide := Guide(Some(Identity), {})

  /** A section's continue button: the section joins the completed set and the
      next one opens (or none). */
  function SectionComplete(g: Guide, id: Section, next: Option<Section>): (r: Guide)
    ensures id in r.done && g.done <= r.done
    ensures r.done - g.done <= {id}
    ensures r.open == next
  {
    Guide(next, g.done + {id})
  }

  /** A section header click: closes the section when it is the open one, opens
      it otherwise. */
  function ToggleSection(g: Guide, id: Section): (r: Guide)
    ensures r.done == g.done
    ensures r.open == Some(id) <==> g.open != Some(id)
    ensures r.open != Some(id) ==> r.open == None
  {
    Guide(if g.open == Some(id) then None else Some(id), g.done)
  }

  /** The build (or deploy) gate: every section completed. */
  predicate ReadyToBuild(done: set<Section>) {
    Identity in done && Pool in done && Pipeline in done && Env in done && Io in done
  }

  /** Ready exactly when the completed set is the set of all sections; completing
      never makes a ready flow unready. */
  lemma ReadyIffAll(done: set<Section>, id: Section)
    ensures ReadyToBuild(done) <==> done == AllSections
    ensures ReadyToBuild(done) ==> ReadyToBuild(done + {id})
  {
    forall s: Section ensures s in AllSections && (ReadyToBuild(done) ==> s in done) {
      match s
      case Identity =>
      case Pool =>
      case Pipeline =>
      case Env =>
      case Io =>
    }
    if ReadyToBuild(done) {
      assert done == AllSections;
    }
  }

  /** Following the continue buttons in page order from any state completes
      every section and leaves none open. */
  lemma WalkThrough(g: Guide)
    ensures var r := SectionComplete(SectionComplete(SectionComplete(SectionComplete(SectionComplete(
        g, Identity, Some(Pool)), Pool, Some(Pipeline)), Pipeline, Some(Env)), Env, Some(Io)), Io, None);
      ReadyToBuild(r.done) && r.open == None
  {
  }

  /** Toggling the open section twice restores it; toggling a closed flow
      twice closes it again; a toggle never completes anything. */
  lemma ToggleTwice(g: Guide, id: Section)
    requires g.open == Some(id) || g.open == None
    ensures ToggleSection(ToggleSection(g, id), id) == g
  {
  }

  /** The four sections a loaded project is marked with leave the flow one step
      short of ready: only the pipeline section remains. */
  lemma LoadedNeedsPipeline()
    ensures !ReadyToBuild({Identity, Pool, Env, Io})
    ensures ReadyToBuild(SectionComplete(Guide(Some(Pipeline), {Identity, Pool, Env, Io}), Pipeline, Some(Env)).done)
  {
    assert Pipeline !in {Identity, Pool, Env, Io};
  }

  // ---------------------------------------------------------------------------
  // Saving the task being edited
  // ---------------------------------------------------------------------------

  /** The pipeline with task `t` of step `s` replaced by `task`. */
  function ReplaceTask(p: seq<PipelineStep>, s: nat, t: nat, task: Task): (r: seq<PipelineStep>)
    requires s < |p| && t < |p[s].tasks|
    ensures |r| == |p|
    ensures r[s].id == p[s].id && |r[s].tasks| == |p[s].tasks| && r[s].tasks[t] == task
    ensures forall k :: 0 <= k < |p[s].tasks| && k != t ==> r[s].tasks[k] == p[s].tasks[k]
    ensures forall i :: 0 <= i < |p| && i != s ==> r[i] == p[i]
  {
    p[s := p[s].(tasks := p[s].tasks[t := task])]
  }

  /** Replacing a task keeps the number of tasks, and replaces exactly one
      occurrence in the multiset of all tasks. */
  lemma ReplaceTaskCounts(p: seq<PipelineStep>, s: nat, t: nat, task: Task)
    requires s < |p| && t < |p[s].tasks|
    ensures TaskCount(ReplaceTask(p, s, t, task)) == TaskCount(p)
    ensures multiset(AllTasks(ReplaceTask(p, s, t, task))) + multiset{p[s].tasks[t]}
         == multiset(AllTasks(p)) + multiset{task}
  {
    var ts := p[s].tasks;
    var us := ts[t := task];
    var q := p[s := p[s].(tasks := us)];
    assert ReplaceTask(p, s, t, task) == q;
    TaskBuilder.TaskCountUpdate(p, s, us);
    ReplacedTasks(p, s, ts, us, t, task);
  }

  lemma ReplacedTasks(p: seq<PipelineStep>, s: nat, ts: seq<Task>, us: seq<Task>, t: nat, task: Task)
    requires s < |p| && ts == p[s].tasks && t < |ts| && us == ts[t := task]
    ensures multiset(AllTasks(p[s := p[s].(tasks := us)])) + multiset{ts[t]}
         == multiset(AllTasks(p)) + multiset{task}
  {
    TaskBuilder.AllTasksUpdate(p, s, us);
    UpdateMultiset(ts, t, task);
    MultisetSwap(multiset(AllTasks(p[s := p[s].(tasks := us)])), multiset(AllTasks(p)),
                 multiset(ts), multiset(us), ts[t], task);
  }

  lemma MultisetSwap(a: multiset<Task>, b: multiset<Task>, x: multiset<Task>, y: multiset<Task>, u: Task, v: Task)
    requires a + x == b + y
    requires y + multiset{u} == x + multiset{v}
    ensures a + multiset{u} == b + multiset{v}
  {
    assert forall e :: (a + multiset{u})[e] == (b + multiset{v})[e] by {
      forall e ensures (a + multiset{u})[e] == (b + multiset{v})[e] {
        assert (a + x)[e] == (b + y)[e];
        assert (y + multiset{u})[e] == (x + multiset{v})[e];
      }
    }
  }

  lemma UpdateMultiset(ts: seq<Task>, t: nat, task: Task)
    requires t < |ts|
    ensures multiset(ts[t := task]) + multiset{ts[t]} == multiset(ts) + multiset{task}
  {
    assert ts == ts[..t] + [ts[t]] + ts[t + 1..];
    assert ts[t := task] == ts[..t] + [task] + ts[t + 1..];
  }

  /** The pipeline after the array write `pipeline[s].tasks[t] = task`: an index
      inside the step replaces that task, the index one past its end appends. */
  function WriteTask(p: seq<PipelineStep>, s: nat, t: nat, task: Task): (r: seq<PipelineStep>)
    requires s < |p| && t <= |p[s].tasks|
    ensures |r| == |p| && r[s].id == p[s].id
    ensures |r[s].tasks| == if t < |p[s].tasks| then |p[s].tasks| else t + 1
    ensures r[s].tasks[t] == task
    ensures forall k :: 0 <= k < |p[s].tasks| && k != t ==> r[s].tasks[k] == p[s].tasks[k]
    ensures forall i :: 0 <= i < |p| && i != s ==> r[i] == p[i]
  {
    if t < |p[s].tasks| then ReplaceTask(p, s, t, task)
    else p[s := p[s].(tasks := p[s].tasks + [task])]
  }

  /** Writing one past the end of a step adds one task to the pipeline, and the
      tasks gained are exactly the written one. */
  lemma WriteTaskPastEnd(p: seq<PipelineStep>, s: nat, task: Task)
    requires s < |p|
    ensures TaskCount(WriteTask(p, s, |p[s].tasks|, task)) == TaskCount(p) + 1
    ensures multiset(AllTasks(WriteTask(p, s, |p[s].tasks|, task))) == multiset(AllTasks(p)) + multiset{task}
  {
    var us := p[s].tasks + [task];
    assert WriteTask(p, s, |p[s].tasks|, task) == p[s := p[s].(tasks := us)];
    TaskBuilder.TaskCountUpdate(p, s, us);
    TaskBuilder.AppendedTask(p, s, task);
  }

  /** A valid replacement keeps a configuration admissible. */
  lemma ReplaceTaskAdmissible(c: ProjectConfig, s: nat, t: nat, task: Task)
    requires s < |c.pipeline| && t < |c.pipeline[s].tasks|
    requires Models.Admissible(c) && Models.ValidTask(task)
    ensures Models.Admissible(c.(pipeline := ReplaceTask(c.pipeline, s, t, task)))
  {
    var r := ReplaceTask(c.pipeline, s, t, task);
    forall i | 0 <= i < |r| ensures Models.ValidStep(r[i]) {
      assert Models.ValidStep(c.pipeline[i]);
    }
  }
}
