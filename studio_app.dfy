/** The current studio front end's top-level state: the view, the file picker
    and what it was opened for, the guided sections, the task being edited and
    the project configuration, with the handlers that update them. Calls to
    the server (loading and saving a project) are parameters: their outcome is
    given to the handler. */
module StudioApp {
  import opened Text
  import opened Config
  import opened Sections
  import Models
  import Deployment
  import TaskBuilder

  /** What the file picker was opened for. */
  datatype PickerMode = Input | Output | ProjectSelection | DagModification | NewProjectLocation

  /** The task the popover edits. */
  datatype Editing = Editing(stepIdx: nat, taskIdx: nat)

  const InitialTask := Task("t1", "extract_data", "import pandas as pd", "# extraction logic", "low", 1, "python", None)

  /** The configuration a new project starts from. */
  const InitialConfig := ProjectConfig(
    "my-new-project", "robi", "git@github.com:org/repo.git", "jovyan", "",
    false, "airflow-ml-3.11", LIL, true, "BANK",
    false, "", false, "",
    false, false, "", "", false,
    [PipelineStep("s1", [InitialTask])], [], "")

  /** A configuration already in normal form, with a code of at most four
      characters, is left as it is by the validator's normalisation. */
  lemma NormalFormFixed(c: ProjectConfig)
    requires Models.Normalised(c) && |c.coderobin| <= 4
    ensures Models.SafeName(c.nomprojet) == c.nomprojet
    ensures Models.LowerCode(c.coderobin) == c.coderobin
  {
    Models.NoUpperLower(c.coderobin);
    var r := Models.SafeName(c.nomprojet);
    assert forall i :: 0 <= i < |r| ==> r[i] == c.nomprojet[i];
  }

  lemma InitialConfigShape()
    ensures Models.Admissible(InitialConfig) && Models.Normalised(InitialConfig)
  {
    assert Models.ValidStep(InitialConfig.pipeline[0]) by {
      assert Models.ValidTask(InitialTask);
    }
    InitialNamesNormal();
  }

  lemma InitialNamesNormal()
    ensures ' ' !in "my-new-project" && Models.NoUpper("my-new-project") && Models.NoUpper("robi")
  {
    var n := "my-new-project";
    forall i | 0 <= i < |n| ensures n[i] != ' ' && !('A' <= n[i] <= 'Z') {
      assert n[i] in {'m', 'y', '-', 'n', 'e', 'w', 'p', 'r', 'o', 'j', 'c', 't'};
    }
  }

  /** The starting configuration passes the backend's validation unchanged. */
  lemma InitialConfigAccepted()
    ensures Models.Validate(InitialConfig) == Models.Accepted(InitialConfig)
  {
    InitialConfigShape();
    Models.ValidateAccepts(InitialConfig);
    NormalFormFixed(InitialConfig);
  }

  /** The pool a new project location implies. */
  function StdPool(path: string): string {
    path + "_std_pool"
  }

  class Studio {
    var currentView: AppView
    var showFilePicker: bool
    var pickerMode: PickerMode
    var validatingProject: bool
    var isSaving: bool
    var openSection: Option<Section>
    var completed: set<Section>
    var editing: Option<Editing>
    var config: ProjectConfig

    function Guide(): Guide
      reads this
    {
      Sections.Guide(openSection, completed)
    }

    constructor ()
      ensures currentView == Home && !showFilePicker && pickerMode == Input
      ensures !validatingProject && !isSaving
      ensures Guide() == InitialGuide && editing == None && config == InitialConfig
    {
      currentView := Home;
      showFilePicker := false;
      pickerMode := Input;
      validatingProject := false;
      isSaving := false;
      openSection := Some(Identity);
      completed := {};
      editing := None;
      config := InitialConfig;
    }

    /** "Create New Pipeline": a fresh configuration and guided flow, then the
        picker for the project's location. */
    method StartNewProject()
      modifies this
      ensures config == InitialConfig && Guide() == InitialGuide
      ensures pickerMode == NewProjectLocation && showFilePicker
      ensures currentView == old(currentView) && editing == old(editing)
      ensures isSaving == old(isSaving) && validatingProject == old(validatingProject)
    {
      config := InitialConfig;
      completed := {};
      openSection := Some(Identity);
      pickerMode := NewProjectLocation;
      showFilePicker := true;
    }

    /** Opens the picker for an input or output folder. */
    method OpenFilePicker(mode: PickerMode)
      requires mode == Input || mode == Output
      modifies this
      ensures pickerMode == mode && showFilePicker
      ensures currentView == old(currentView) && config == old(config) && Guide() == old(Guide())
      ensures editing == old(editing) && isSaving == old(isSaving) && validatingProject == old(validatingProject)
    {
      pickerMode := mode;
      showFilePicker := true;
    }

    method OpenDeployment()
      modifies this
      ensures pickerMode == ProjectSelection && showFilePicker
      ensures currentView == old(currentView) && config == old(config) && Guide() == old(Guide())
      ensures editing == old(editing) && isSaving == old(isSaving) && validatingProject == old(validatingProject)
    {
      pickerMode := ProjectSelection;
      showFilePicker := true;
    }

    method OpenModifier()
      modifies this
      ensures pickerMode == DagModification && showFilePicker
      ensures currentView == old(currentView) && config == old(config) && Guide() == old(Guide())
      ensures editing == old(editing) && isSaving == old(isSaving) && validatingProject == old(validatingProject)
    {
      pickerMode := DagModification;
      showFilePicker := true;
    }

    /** A folder picked in the explorer; `loaded` is the server's answer to the
        load request a DAG modification makes (`None` when it fails). */
    method FileSelected(path: string, loaded: Option<ProjectConfig>)
      modifies this
      ensures pickerMode == old(pickerMode)
      ensures validatingProject == (old(pickerMode) != DagModification && old(validatingProject))
      ensures editing == old(editing) && isSaving == old(isSaving)
      ensures old(pickerMode) == NewProjectLocation ==>
        config == old(config).(lddata := path, pools := [StdPool(path)]) &&
        !showFilePicker && currentView == Generator && Guide() == old(Guide())
      ensures old(pickerMode) == Input ==>
        config == old(config).(datalabIn := path) && !showFilePicker &&
        currentView == old(currentView) && Guide() == old(Guide())
      ensures old(pickerMode) == Output ==>
        config == old(config).(datalabOut := path) && !showFilePicker &&
        currentView == old(currentView) && Guide() == old(Guide())
      ensures old(pickerMode) == ProjectSelection ==>
        config == old(config).(nomprojet := path) && !showFilePicker &&
        currentView == Deployment && Guide() == old(Guide())
      ensures old(pickerMode) == DagModification && loaded.Some? ==>
        config == loaded.value && !showFilePicker && currentView == Modifier &&
        Guide() == Sections.Guide(Some(Pipeline), {Identity, Pool, Env, Io})
      ensures old(pickerMode) == DagModification && loaded.None? ==>
        config == old(config) && showFilePicker == old(showFilePicker) &&
        currentView == old(currentView) && Guide() == old(Guide())
    {
      if pickerMode == NewProjectLocation {
        config := config.(lddata := path);
        config := config.(pools := [StdPool(path)]);
        showFilePicker := false;
        currentView := Generator;
      } else if pickerMode == Input {
        config := config.(datalabIn := path);
        showFilePicker := false;
      } else if pickerMode == Output {
        config := config.(datalabOut := path);
        showFilePicker := false;
      } else if pickerMode == ProjectSelection {
        config := config.(nomprojet := path);
        showFilePicker := false;
        currentView := Deployment;
      } else {
        validatingProject := true;
        match loaded {
          case Some(c) =>
            config := c;
            showFilePicker := false;
            currentView := Modifier;
            openSection := Some(Pipeline);
            completed := {Identity, Pool, Env, Io};
          case None =>
        }
        validatingProject := false;
      }
    }

    method SectionCompleted(id: Section, next: Option<Section>)
      modifies this
      ensures Guide() == SectionComplete(old(Guide()), id, next)
      ensures config == old(config) && currentView == old(currentView) && editing == old(editing)
      ensures showFilePicker == old(showFilePicker) && pickerMode == old(pickerMode)
      ensures isSaving == old(isSaving) && validatingProject == old(validatingProject)
    {
      completed := completed + {id};
      openSection := next;
    }

    method SectionToggled(id: Section)
      modifies this
      ensures Guide() == ToggleSection(old(Guide()), id)
      ensures config == old(config) && currentView == old(currentView) && editing == old(editing)
      ensures showFilePicker == old(showFilePicker) && pickerMode == old(pickerMode)
      ensures isSaving == old(isSaving) && validatingProject == old(validatingProject)
    {
      openSection := if openSection == Some(id) then None else Some(id);
    }

    predicate IsReadyToBuild()
      reads this
    {
      ReadyToBuild(completed)
    }

    /** The proceed button is enabled when every section is complete and no
        save is in flight. */
    predicate ProceedEnabled()
      reads this
    {
      IsReadyToBuild() && !isSaving
    }

    /** "Proceed to Deployment": saves the project (`saved` is the server's
        answer) and shows the cockpit only when the save succeeded. The button
        is disabled, and the click does nothing, unless `ProceedEnabled()`. */
    method ProceedToDeployment(saved: bool)
      modifies this
      ensures isSaving == old(isSaving)
      ensures currentView == (if old(ProceedEnabled()) && saved then Deployment else old(currentView))
      ensures config == old(config) && Guide() == old(Guide()) && editing == old(editing)
      ensures showFilePicker == old(showFilePicker) && pickerMode == old(pickerMode)
      ensures validatingProject == old(validatingProject)
    {
      if !ProceedEnabled() {
        return;
      }
      isSaving := true;
      if saved {
        currentView := Deployment;
      }
      isSaving := false;
    }

    /** A task's edit button in the pipeline builder. */
    method EditTask(stepIdx: nat, taskIdx: nat)
      modifies this
      ensures editing == Some(Editing(stepIdx, taskIdx))
      ensures config == old(config) && Guide() == old(Guide()) && currentView == old(currentView)
      ensures showFilePicker == old(showFilePicker) && pickerMode == old(pickerMode)
      ensures isSaving == old(isSaving) && validatingProject == old(validatingProject)
    {
      editing := Some(Editing(stepIdx, taskIdx));
    }

    /** The popover's save, the array write `newPipeline[stepIdx].tasks[taskIdx] = updated`.
        The popover stays open while the builder edits the pipeline, so its
        indices may be stale: a step that is gone makes the write throw and
        nothing changes; an index one past the step's end appends the task. */
    method SaveTask(updated: Task) returns (threw: bool)
      requires editing.Some? && editing.value.stepIdx < |config.pipeline| ==>
        editing.value.taskIdx <= |config.pipeline[editing.value.stepIdx].tasks|
      modifies this
      ensures threw <==> old(editing).Some? && old(editing).value.stepIdx >= |old(config).pipeline|
      ensures old(editing).None? || threw ==> config == old(config)
      ensures old(editing).Some? && !threw ==>
        config == old(config).(pipeline := WriteTask(old(config).pipeline, old(editing).value.stepIdx, old(editing).value.taskIdx, updated))
      ensures editing == old(editing) && Guide() == old(Guide()) && currentView == old(currentView)
      ensures showFilePicker == old(showFilePicker) && pickerMode == old(pickerMode)
      ensures isSaving == old(isSaving) && validatingProject == old(validatingProject)
    {
      threw := false;
      if editing.None? {
        return;
      }
      var e := editing.value;
      if e.stepIdx >= |config.pipeline| {
        threw := true;
        return;
      }
      config := config.(pipeline := WriteTask(config.pipeline, e.stepIdx, e.taskIdx, updated));
    }

    /** The popover's save button: the save, then the close, which a throwing
        save never reaches. */
    method SaveAndClose(updated: Task) returns (threw: bool)
      requires editing.Some? && editing.value.stepIdx < |config.pipeline| ==>
        editing.value.taskIdx <= |config.pipeline[editing.value.stepIdx].tasks|
      modifies this
      ensures threw <==> old(editing).Some? && old(editing).value.stepIdx >= |old(config).pipeline|
      ensures editing == if threw then old(editing) else None
      ensures old(editing).None? || threw ==> config == old(config)
      ensures old(editing).Some? && !threw ==>
        config == old(config).(pipeline := WriteTask(old(config).pipeline, old(editing).value.stepIdx, old(editing).value.taskIdx, updated))
      ensures Guide() == old(Guide()) && currentView == old(currentView)
      ensures showFilePicker == old(showFilePicker) && pickerMode == old(pickerMode)
      ensures isSaving == old(isSaving) && validatingProject == old(validatingProject)
    {
      threw := SaveTask(updated);
      if !threw {
        CloseEditor();
      }
    }

    /** The pipeline builder's changes: the new pipeline replaces the old one,
        and an open editor keeps its indices. */
    method PipelineChanged(p: seq<PipelineStep>)
      modifies this
      ensures config == old(config).(pipeline := p)
      ensures editing == old(editing) && Guide() == old(Guide()) && currentView == old(currentView)
      ensures showFilePicker == old(showFilePicker) && pickerMode == old(pickerMode)
      ensures isSaving == old(isSaving) && validatingProject == old(validatingProject)
    {
      config := config.(pipeline := p);
    }

    /** The popover's close button. */
    method CloseEditor()
      modifies this
      ensures editing == None
      ensures config == old(config) && Guide() == old(Guide()) && currentView == old(currentView)
      ensures showFilePicker == old(showFilePicker) && pickerMode == old(pickerMode)
      ensures isSaving == old(isSaving) && validatingProject == old(validatingProject)
    {
      editing := None;
    }

    /** The back arrows of the generator and the cockpit. */
    method GoHome()
      modifies this
      ensures currentView == Home
      ensures config == old(config) && Guide() == old(Guide()) && editing == old(editing)
      ensures showFilePicker == old(showFilePicker) && pickerMode == old(pickerMode)
      ensures isSaving == old(isSaving) && validatingProject == old(validatingProject)
    {
      currentView := Home;
    }

    /** The Robin-code field: lower-cased and cut to four characters. The field
        is disabled in the modifier view, where typing changes nothing. */
    method RobinCodeInput(v: string)
      modifies this
      ensures config == if old(currentView) == Modifier then old(config) else old(config).(coderobin := Models.LowerCode(v))
      ensures editing == old(editing) && Guide() == old(Guide()) && currentView == old(currentView)
      ensures showFilePicker == old(showFilePicker) && pickerMode == old(pickerMode)
      ensures isSaving == old(isSaving) && validatingProject == old(validatingProject)
    {
      if currentView != Modifier {
        config := config.(coderobin := Models.LowerCode(v));
      }
    }

    /** The mode the deployment cockpit is opened in. */
    function DeploymentMode(): (m: Deployment.Mode)
      reads this
      ensures m == Deployment.Update <==> pickerMode == DagModification
    {
      if pickerMode == DagModification then Deployment.Update else Deployment.Create
    }
  }

  /** "Create New Pipeline" as written puts back the one initial configuration
      object, whose step object the builder edits in place: a task added in the
      first project is still in the second project's first step. */
  method SharedInitialStep(taskId: string, pools: seq<string>) returns (second: seq<PipelineStep>)
    ensures second == [PipelineStep("s1", [InitialTask, TaskBuilder.ParallelTask(taskId, 1, pools)])]
    ensures second != InitialConfig.pipeline
  {
    var shared := new TaskBuilder.Step("s1", [InitialTask]);
    var first := [shared];
    first := TaskBuilder.AddTaskToStep(first, 0, taskId, pools);
    var again := [shared];
    second := TaskBuilder.Values(again);
    assert second[0].tasks == [InitialTask, TaskBuilder.ParallelTask(taskId, 1, pools)];
    assert |second[0].tasks| != |InitialConfig.pipeline[0].tasks|;
  }

  /** The intended reset: every new project gets step objects of its own, built
      from the initial configuration, so edits to an earlier project do not
      reach it. This is what `Studio.StartNewProject` models. */
  method FreshInitialSteps(taskId: string, pools: seq<string>) returns (second: seq<PipelineStep>)
    ensures second == InitialConfig.pipeline
  {
    var first := TaskBuilder.StepObjects(InitialConfig.pipeline);
    first := TaskBuilder.AddTaskToStep(first, 0, taskId, pools);
    var again := TaskBuilder.StepObjects(InitialConfig.pipeline);
    second := TaskBuilder.Values(again);
  }

  /** An editor left open on the only task of the only step: after the builder
      empties that step, saving brings the task back; after the builder drops the
      step, saving throws and the editor stays open. */
  method StaleEditorSaves(updated: Task) returns (appended: seq<PipelineStep>, threw: bool)
    ensures appended == [PipelineStep("s1", [updated])]
    ensures threw
  {
    var app := new Studio();
    app.EditTask(0, 0);
    app.PipelineChanged([PipelineStep("s1", [])]);
    var t := app.SaveTask(updated);
    appended := app.config.pipeline;
    assert appended[0].tasks == [updated];
    app.PipelineChanged([]);
    threw := app.SaveAndClose(updated);
    assert app.editing == Some(Editing(0, 0));
  }

  /** A non-empty Robin code typed into the field is one the backend keeps as
      it is. */
  lemma RobinInputAccepted(v: string)
    requires |v| >= 1
    ensures 1 <= |Models.LowerCode(v)| <= 4
    ensures Models.LowerCode(Models.LowerCode(v)) == Models.LowerCode(v)
  {
    Models.LowerCodeIdempotent(v);
  }
}
