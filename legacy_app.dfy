/** The older studio front end's top-level state. It differs from the current
    one in three ways that matter here: opening a project for deployment or
    modification "validates" the folder with a check that always succeeds,
    the modification path loads a fixed mock pipeline instead of the project's
    own, and the deploy button is never disabled. */
module LegacyApp {
  import opened Text
  import opened Config
  import opened Sections
  import Models
  import TaskBuilder
  import Deployment

  /** What the file picker was opened for (no new-project location here). */
  datatype PickerMode = Input | Output | ProjectSelection | DagModification

  datatype Editing = Editing(stepIdx: nat, taskIdx: nat)

  /** The configuration the older front end starts from. `silot` is the first
      entry of the allowed-silot list, which is given as a parameter; the fields
      this front end does not have (`useInput`, `useOutput`, `pools`) are off
      or empty. */
  function InitialConfig(firstSilot: string): (c: ProjectConfig)
    ensures c.lddata == "eidp_p630" && c.poolType == "eidp_p630_std_pool" && c.pools == []
    ensures c.silot == firstSilot && c.useVertica && !c.useConda
    ensures |c.pipeline| == 1 && |c.pipeline[0].tasks| == 1 && Models.ValidStep(c.pipeline[0])
  {
    var t := Task("t1", "extract_data", "import pandas as pd", "# extraction logic", "low", 1, "python", None);
    assert Models.ValidTask(t);
    ProjectConfig(
      "my-new-project", "robi", "git@github.com:org/repo.git", "jovyan", "eidp_p630",
      false, "airflow-ml-3.11", LIL, true, firstSilot,
      false, "", false, "",
      false, false, "", "", false,
      [PipelineStep("s1", [t])], [], "eidp_p630_std_pool")
  }

  // ---------------------------------------------------------------------------
  // The mock load of an existing project
  // ---------------------------------------------------------------------------

  const Clients := Task("t1", "extract_clients", "import pandas as pd", "# extraction code", "high", 2, "python", None)
  const Orders := Task("t2", "extract_orders", "import pandas as pd", "# extraction code", "mid", 2, "python", None)
  const Join := Task("t3", "join_data", "import pandas as pd", "# transformation code", "high", 4, "python", None)
  const Push := Task("t4", "push_vertica", "import verticapy as vp", "# loading code", "low", 1, "python", None)

  /** The three-step pipeline every "modified" project is shown with. */
  const MockPipeline := [
    PipelineStep("s1", [Clients, Orders]),
    PipelineStep("s2", [Join]),
    PipelineStep("s3", [Push])]

  /** The code robin the mock load derives from the folder name: its first four
      characters, lower-cased (in that order). */
  function MockCode(path: string): string {
    Lower(path[..if |path| < 4 then |path| else 4])
  }

  /** What the mock load makes of the configuration. */
  function MockLoad(c: ProjectConfig, path: string): ProjectConfig {
    c.(nomprojet := path, coderobin := MockCode(path), pipeline := MockPipeline)
  }

  /** Cutting before lower-casing gives what the backend's code-robin
      normalisation gives, which lower-cases first. */
  lemma MockCodeIsLowerCode(path: string)
    ensures MockCode(path) == Models.LowerCode(path)
  {
    LowerPrefix(path, if |path| < 4 then |path| else 4);
  }

  /** The mock pipeline has four tasks in three valid steps, and no step uses
      more pool slots than the default limit of five. */
  lemma MockPipelineShape()
    ensures TaskCount(MockPipeline) == 4
    ensures forall i :: 0 <= i < |MockPipeline| ==> Models.ValidStep(MockPipeline[i])
    ensures forall i :: 0 <= i < |MockPipeline| ==> !TaskBuilder.IsOverLimit(MockPipeline[i].tasks, None)
  {
    var p := MockPipeline;
    assert p[..2][..1] == p[..1];
    assert p[..1] == [p[0]];
    assert p[..0] == [];
    assert TaskCount(p[..1]) == 2;
    assert p[..|p| - 1] == p[..2];
    assert Models.ValidTask(Clients) && Models.ValidTask(Orders);
    assert Models.ValidTask(Join) && Models.ValidTask(Push);
    assert [Clients, Orders][..1] == [Clients];
    assert TaskBuilder.UsedSlots([Clients]) == 2 by { assert [Clients][..0] == []; }
    assert TaskBuilder.UsedSlots([Join]) == 4 by { assert [Join][..0] == []; }
    assert TaskBuilder.UsedSlots([Push]) == 1 by { assert [Push][..0] == []; }
  }

  /** Whatever configuration was on screen, the mock load of a non-empty folder
      name is one the backend accepts. */
  lemma MockLoadAccepted(c: ProjectConfig, path: string)
    requires |path| >= 1
    ensures Models.Validate(MockLoad(c, path)).Accepted?
    ensures Models.Validate(MockLoad(c, path)).config.coderobin == MockCode(path)
  {
    MockPipelineShape();
    MockCodeIsLowerCode(path);
    Models.LowerCodeIdempotent(path);
    Models.ValidateAccepts(MockLoad(c, path));
  }

  class LegacyStudio {
    var currentView: AppView
    var showFilePicker: bool
    var pickerMode: PickerMode
    var validatingProject: bool
    var openSection: Option<Section>
    var completed: set<Section>
    var editing: Option<Editing>
    var config: ProjectConfig

    function Guide(): Guide
      reads this
    {
      Sections.Guide(openSection, completed)
    }

    constructor (firstSilot: string)
      ensures currentView == Home && !showFilePicker && pickerMode == Input && !validatingProject
      ensures Guide() == InitialGuide && editing == None && config == InitialConfig(firstSilot)
    {
      currentView := Home;
      showFilePicker := false;
      pickerMode := Input;
      validatingProject := false;
      openSection := Some(Identity);
      completed := {};
      editing := None;
      config := InitialConfig(firstSilot);
    }

    /** The home screen's "new project" card: straight to the generator, with
        whatever configuration and progress were there before. */
    method NewProject()
      modifies this
      ensures currentView == Generator
      ensures config == old(config) && Guide() == old(Guide()) && editing == old(editing)
      ensures showFilePicker == old(showFilePicker) && pickerMode == old(pickerMode)
      ensures validatingProject == old(validatingProject)
    {
      currentView := Generator;
    }

    method OpenFilePicker(mode: PickerMode)
      requires mode == Input || mode == Output
      modifies this
      ensures pickerMode == mode && showFilePicker
      ensures currentView == old(currentView) && config == old(config) && Guide() == old(Guide())
      ensures editing == old(editing) && validatingProject == old(validatingProject)
    {
      pickerMode := mode;
      showFilePicker := true;
    }

    method OpenDeployment()
      modifies this
      ensures pickerMode == ProjectSelection && showFilePicker
      ensures currentView == old(currentView) && config == old(config) && Guide() == old(Guide())
      ensures editing == old(editing) && validatingProject == old(validatingProject)
    {
      pickerMode := ProjectSelection;
      showFilePicker := true;
    }

    method OpenModifier()
      modifies this
      ensures pickerMode == DagModification && showFilePicker
      ensures currentView == old(currentView) && config == old(config) && Guide() == old(Guide())
      ensures editing == old(editing) && validatingProject == old(validatingProject)
    {
      pickerMode := DagModification;
      showFilePicker := true;
    }

    /** A folder picked in the explorer. The delayed validation of the two
        project paths is taken as finished: its outcome is always success. */
    method FileSelected(path: string)
      modifies this
      ensures pickerMode == old(pickerMode) && !showFilePicker && editing == old(editing)
      ensures validatingProject == (old(pickerMode) in {Input, Output} && old(validatingProject))
      ensures old(pickerMode) == Input ==>
        config == old(config).(datalabIn := path) && currentView == old(currentView) && Guide() == old(Guide())
      ensures old(pickerMode) == Output ==>
        config == old(config).(datalabOut := path) && currentView == old(currentView) && Guide() == old(Guide())
      ensures old(pickerMode) == ProjectSelection ==>
        config == old(config).(nomprojet := path) && currentView == Deployment && Guide() == old(Guide())
      ensures old(pickerMode) == DagModification ==>
        config == MockLoad(old(config), path) && currentView == Modifier &&
        Guide() == old(Guide()).(open := Some(Pipeline))
    {
      match pickerMode {
        case Input =>
          config := config.(datalabIn := path);
        case Output =>
          config := config.(datalabOut := path);
        case ProjectSelection =>
          validatingProject := true;
          validatingProject := false;
          config := config.(nomprojet := path);
          currentView := Deployment;
        case DagModification =>
          validatingProject := true;
          validatingProject := false;
          config := MockLoad(config, path);
          currentView := Modifier;
          openSection := Some(Pipeline);
      }
      showFilePicker := false;
    }

    method SectionCompleted(id: Section, next: Option<Section>)
      modifies this
      ensures Guide() == SectionComplete(old(Guide()), id, next)
      ensures config == old(config) && currentView == old(currentView) && editing == old(editing)
      ensures showFilePicker == old(showFilePicker) && pickerMode == old(pickerMode)
      ensures validatingProject == old(validatingProject)
    {
      completed := completed + {id};
      openSection := next;
    }

    method SectionToggled(id: Section)
      modifies this
      ensures Guide() == ToggleSection(old(Guide()), id)
      ensures config == old(config) && currentView == old(currentView) && editing == old(editing)
      ensures showFilePicker == old(showFilePicker) && pickerMode == old(pickerMode)
      ensures validatingProject == old(validatingProject)
    {
      openSection := if openSection == Some(id) then None else Some(id);
    }

    method EditTask(stepIdx: nat, taskIdx: nat)
      modifies this
      ensures editing == Some(Editing(stepIdx, taskIdx))
      ensures config == old(config) && Guide() == old(Guide()) && currentView == old(currentView)
      ensures showFilePicker == old(showFilePicker) && pickerMode == old(pickerMode)
      ensures validatingProject == old(validatingProject)
    {
      editing := Some(Editing(stepIdx, taskIdx));
    }

    method CloseEditor()
      modifies this
      ensures editing == None
      ensures config == old(config) && Guide() == old(Guide()) && currentView == old(currentView)
      ensures showFilePicker == old(showFilePicker) && pickerMode == old(pickerMode)
      ensures validatingProject == old(validatingProject)
    {
      editing := None;
    }

    /** The popover's save, as in the current front end: a step that is gone
        makes the write throw, an index one past the step's end appends. */
    method SaveTask(updated: Task) returns (threw: bool)
      requires editing.Some? && editing.value.stepIdx < |config.pipeline| ==>
        editing.value.taskIdx <= |config.pipeline[editing.value.stepIdx].tasks|
      modifies this
      ensures threw <==> old(editing).Some? && old(editing).value.stepIdx >= |old(config).pipeline|
      ensures old(editing).None? || threw ==> config == old(config)
      ensures old(editing).Some? && !threw ==>
        config == old(config).(pipeline := WriteTask(old(config).pipeline, old(editing).value.stepIdx, old(editing).value.taskIdx, updated))
      ensures editing == old(editing) && Guide() == old(Guide()) && currentView == old(currentView)
      ensures showFilePicker == old(showFilePicker) && pickerMode == old(pickerMode)
      ensures validatingProject == old(validatingProject)
    {
      threw := false;
      if editing.None? {
        return;
      }
      var e := editing.value;
      if e.stepIdx >= |config.pipeline| {
        threw := true;
        return;
      }
      config := config.(pipeline := WriteTask(config.pipeline, e.stepIdx, e.taskIdx, updated));
    }

    /** The pipeline builder's changes; an open editor keeps its indices. */
    method PipelineChanged(p: seq<PipelineStep>)
      modifies this
      ensures config == old(config).(pipeline := p)
      ensures editing == old(editing) && Guide() == old(Guide()) && currentView == old(currentView)
      ensures showFilePicker == old(showFilePicker) && pickerMode == old(pickerMode)
      ensures validatingProject == old(validatingProject)
    {
      config := config.(pipeline := p);
    }

    /** The Robin-code field, disabled in the modifier view. */
    method RobinCodeInput(v: string)
      modifies this
      ensures config == if old(currentView) == Modifier then old(config) else old(config).(coderobin := Models.LowerCode(v))
      ensures editing == old(editing) && Guide() == old(Guide()) && currentView == old(currentView)
      ensures showFilePicker == old(showFilePicker) && pickerMode == old(pickerMode)
      ensures validatingProject == old(validatingProject)
    {
      if currentView != Modifier {
        config := config.(coderobin := Models.LowerCode(v));
      }
    }

    /** The "Ready to Build" button: no gate on the completed sections. */
    method Deploy()
      modifies this
      ensures currentView == Deployment
      ensures config == old(config) && Guide() == old(Guide()) && editing == old(editing)
      ensures showFilePicker == old(showFilePicker) && pickerMode == old(pickerMode)
      ensures validatingProject == old(validatingProject)
    {
      currentView := Deployment;
    }

    method GoHome()
      modifies this
      ensures currentView == Home
      ensures config == old(config) && Guide() == old(Guide()) && editing == old(editing)
      ensures showFilePicker == old(showFilePicker) && pickerMode == old(pickerMode)
      ensures validatingProject == old(validatingProject)
    {
      currentView := Home;
    }

    function DeploymentMode(): (m: Deployment.Mode)
      reads this
      ensures m == Deployment.Update <==> pickerMode == DagModification
    {
      if pickerMode == DagModification then Deployment.Update else Deployment.Create
    }
  }

  /** A modification opened from a fresh start reaches the cockpit with no
      section completed: the older front end deploys without the guided flow. */
  method ModifyThenDeploy(firstSilot: string, path: string) returns (s: LegacyStudio)
    requires |path| >= 1
    ensures s.currentView == Deployment && s.completed == {}
    ensures !ReadyToBuild(s.completed)
    ensures s.config == MockLoad(InitialConfig(firstSilot), path)
    ensures s.DeploymentMode() == Deployment.Update
  {
    s := new LegacyStudio(firstSilot);
    s.OpenModifier();
    s.FileSelected(path);
    s.Deploy();
  }
}
