/** The older front-end compiler: the same three files, with a `git_remote` line,
    verbatim I/O paths, no pools block and a single pool for every operator. */
module GeneratorLegacy {
  import opened Text
  import opened Config
  import opened Compile
  import opened Treatment
  import opened GeneratorTs

  // ---------------------------------------------------------------------------
  // meta.yaml
  // ---------------------------------------------------------------------------

  /** The optional lines after the identity, in order, each with its gate. */
  function LegacyEntries(c: ProjectConfig): seq<Entry> {
    [Entry(c.gitRemote != "", "git_remote", c.gitRemote),
     Entry(c.useVertica && c.silot != "", "silot", c.silot),
     Entry(c.useConda && c.condaenv != "", "env_name", c.condaenv),
     Entry(c.datalabIn != "", "input_folder", c.datalabIn),
     Entry(c.datalabOut != "", "output_folder", c.datalabOut),
     Entry(c.useNas, "NAS", "true"),
     Entry(c.useGpu, "GPU", "true")]
  }

  /** The lines of the older `meta.yaml`, in the order they are written. */
  function LegacyMetaLines(c: ProjectConfig): seq<string> {
    IdentityLines(c) + EntryLines(LegacyEntries(c))
  }

  /** The lines written for the optional entry `k`. */
  function LegacyLine(c: ProjectConfig, k: nat): seq<string>
    requires k < 7
  {
    if k == 0 then LineIf(c.gitRemote != "", "git_remote: " + c.gitRemote)
    else if k == 1 then LineIf(c.useVertica && c.silot != "", "silot: " + c.silot)
    else if k == 2 then LineIf(c.useConda && c.condaenv != "", "env_name: " + c.condaenv)
    else if k == 3 then LineIf(c.datalabIn != "", "input_folder: " + c.datalabIn)
    else if k == 4 then LineIf(c.datalabOut != "", "output_folder: " + c.datalabOut)
    else if k == 5 then LineIf(c.useNas, "NAS: true")
    else LineIf(c.useGpu, "GPU: true")
  }

  /** The first `k` optional lines. */
  function LegacyLines(c: ProjectConfig, k: nat): seq<string>
    requires k <= 7
  {
    if k == 0 then [] else LegacyLines(c, k - 1) + LegacyLine(c, k - 1)
  }

  lemma LegacyEntryLine(c: ProjectConfig, k: nat)
    requires k < 7
    ensures EntryLine(LegacyEntries(c)[k]) == LegacyLine(c, k)
  {
    if k == 0 {
      assert "git_remote" + ": " == "git_remote: ";
    } else if k == 1 {
      assert "silot" + ": " == "silot: ";
    } else if k == 2 {
      assert "env_name" + ": " == "env_name: ";
    } else if k == 3 {
      assert "input_folder" + ": " == "input_folder: ";
    } else if k == 4 {
      assert "output_folder" + ": " == "output_folder: ";
    } else if k == 5 {
      assert "NAS" + ": " + "true" == "NAS: true";
    } else {
      assert "GPU" + ": " + "true" == "GPU: true";
    }
  }

  lemma {:induction false} LegacyPrefix(c: ProjectConfig, k: nat)
    requires k <= 7
    ensures LegacyLines(c, k) == EntryLines(LegacyEntries(c)[..k])
  {
    if k > 0 {
      LegacyPrefix(c, k - 1);
      EntryLinesStep(LegacyEntries(c), k - 1);
      LegacyEntryLine(c, k - 1);
    }
  }

  lemma LegacyLinesAreEntries(c: ProjectConfig)
    ensures LegacyLines(c, 7) == EntryLines(LegacyEntries(c))
  {
    LegacyPrefix(c, 7);
    assert LegacyEntries(c)[..7] == LegacyEntries(c);
  }

  /** Pushes the identity lines, then each optional line whose condition holds,
      then joins the lines and ends the file with a newline. */
  method GenerateLegacyMetaYaml(c: ProjectConfig) returns (out: string)
    ensures out == Join(LegacyMetaLines(c), "\n") + "\n"
  {
    var lines := IdentityLines(c);
    ghost var id := lines;
    assert lines == id + LegacyLines(c, 0);
    lines := PushLegacyGroup(lines, id, c, 0);
    lines := PushLegacyGroup(lines, id, c, 3);
    lines := PushLegacyGroup(lines, id, c, 5);
    LegacyLinesAreEntries(c);
    out := Join(lines, "\n") + "\n";
  }

  /** The last line of a group of optional lines: the remote and
      configuration lines end at 3, the folder lines at 5, the hardware
      lines at 7. */
  function GroupEnd(k: nat): nat {
    if k == 0 then 3 else if k == 3 then 5 else 7
  }

  /** Pushes the optional lines from `k` to the end of its group onto `r0`,
      which holds the lines before them. */
  method PushLegacyGroup(r0: seq<string>, ghost id: seq<string>, c: ProjectConfig, k: nat) returns (r: seq<string>)
    requires k == 0 || k == 3 || k == 5
    requires r0 == id + LegacyLines(c, k)
    ensures r == id + LegacyLines(c, GroupEnd(k))
  {
    r := r0;
    if k == 0 {
      r := PushIf(r, c.gitRemote != "", "git_remote: " + c.gitRemote);
      LegacyStep(id, c, 0);
      r := PushIf(r, c.useVertica && c.silot != "", "silot: " + c.silot);
      LegacyStep(id, c, 1);
      r := PushIf(r, c.useConda && c.condaenv != "", "env_name: " + c.condaenv);
      LegacyStep(id, c, 2);
    } else if k == 3 {
      r := PushIf(r, c.datalabIn != "", "input_folder: " + c.datalabIn);
      LegacyStep(id, c, 3);
      r := PushIf(r, c.datalabOut != "", "output_folder: " + c.datalabOut);
      LegacyStep(id, c, 4);
    } else {
      r := PushIf(r, c.useNas, "NAS: true");
      LegacyStep(id, c, 5);
      r := PushIf(r, c.useGpu, "GPU: true");
      LegacyStep(id, c, 6);
    }
  }

  lemma LegacyStep(id: seq<string>, c: ProjectConfig, k: nat)
    requires k < 7
    ensures id + LegacyLines(c, k) + LegacyLine(c, k) == id + LegacyLines(c, k + 1)
  {
    AppendAssoc(id, LegacyLines(c, k), LegacyLine(c, k));
  }

  /** The older file starts with the same four identity lines as the current one. */
  lemma LegacyMetaStartsLikeCurrent(c: ProjectConfig)
    ensures LegacyMetaLines(c)[..4] == MetaLines(c)[..4] == IdentityLines(c)
  {
    AppendAssoc(IdentityLines(c), PoolBlock(c.pools), EntryLines(GatedEntries(c)));
    assert (IdentityLines(c) + EntryLines(LegacyEntries(c)))[..4] == IdentityLines(c);
    assert (IdentityLines(c) + (PoolBlock(c.pools) + EntryLines(GatedEntries(c))))[..4] == IdentityLines(c);
  }

  /** Reading the older file back: the remote is present exactly when it is set, the
      I/O folders exactly when they are non-empty and as typed, with no toggle
      consulted; the other optional lines keep their gates. */
  lemma ReadLegacyMeta(c: ProjectConfig)
    ensures Lookup(LegacyMetaLines(c), "git_remote") == (if c.gitRemote != "" then Some(c.gitRemote) else None)
    ensures Lookup(LegacyMetaLines(c), "silot") == (if c.useVertica && c.silot != "" then Some(c.silot) else None)
    ensures Lookup(LegacyMetaLines(c), "env_name") == (if c.useConda && c.condaenv != "" then Some(c.condaenv) else None)
    ensures Lookup(LegacyMetaLines(c), "input_folder") == (if c.datalabIn != "" then Some(c.datalabIn) else None)
    ensures Lookup(LegacyMetaLines(c), "output_folder") == (if c.datalabOut != "" then Some(c.datalabOut) else None)
    ensures Lookup(LegacyMetaLines(c), "NAS") == (if c.useNas then Some("true") else None)
    ensures Lookup(LegacyMetaLines(c), "GPU") == (if c.useGpu then Some("true") else None)
  {
    var es := LegacyEntries(c);
    forall i | 0 <= i < |es|
      ensures Lookup(LegacyMetaLines(c), es[i].key) == if es[i].gate then Some(es[i].value) else None
    {
      ReadLegacyEntry(c, i);
    }
    assert es[0].key == "git_remote" && es[1].key == "silot" && es[2].key == "env_name";
    assert es[3].key == "input_folder" && es[4].key == "output_folder";
    assert es[5].key == "NAS" && es[6].key == "GPU";
  }

  lemma ReadLegacyEntry(c: ProjectConfig, i: nat)
    requires i < 7
    ensures Lookup(LegacyMetaLines(c), LegacyEntries(c)[i].key)
         == if LegacyEntries(c)[i].gate then Some(LegacyEntries(c)[i].value) else None
  {
    var es := LegacyEntries(c);
    LegacyKey(c, i);
    LegacyInitials(c, i);
    IdentityMisses(c, es[i].key);
    LookupAppend(IdentityLines(c), EntryLines(es), es[i].key);
    LookupEntries(es, i);
  }

  lemma LegacyKey(c: ProjectConfig, i: nat)
    requires i < 7
    ensures LegacyEntries(c)[i].key in {"git_remote", "silot", "env_name", "input_folder", "output_folder", "NAS", "GPU"}
  {
    var es := LegacyEntries(c);
    if i == 0 { assert es[0].key == "git_remote"; }
    else if i == 1 { assert es[1].key == "silot"; }
    else if i == 2 { assert es[2].key == "env_name"; }
    else if i == 3 { assert es[3].key == "input_folder"; }
    else if i == 4 { assert es[4].key == "output_folder"; }
    else if i == 5 { assert es[5].key == "NAS"; }
    else { assert es[6].key == "GPU"; }
  }

  /** The optional keys of the older file start with distinct letters. */
  lemma LegacyInitials(c: ProjectConfig, i: nat)
    requires i < 7
    ensures forall j :: 0 <= j < |LegacyEntries(c)| ==> |LegacyEntries(c)[j].key| > 0
    ensures forall j :: 0 <= j < |LegacyEntries(c)| && j != i ==>
      LegacyEntries(c)[j].key[0] != LegacyEntries(c)[i].key[0]
  {
    var es := LegacyEntries(c);
    assert es[0].key[0] == 'g' && es[1].key[0] == 's' && es[2].key[0] == 'e' && es[3].key[0] == 'i';
    assert es[4].key[0] == 'o' && es[5].key[0] == 'N' && es[6].key[0] == 'G';
  }

  /** The older file has no pools list, and its identity reads back as in the current
      file. */
  lemma LegacyMetaHasNoPools(c: ProjectConfig)
    ensures ListAfter(LegacyMetaLines(c), "pools:") == []
    ensures Lookup(LegacyMetaLines(c), "persoid") == Some(c.persoid)
  {
    var id := IdentityLines(c);
    var es := LegacyEntries(c);
    ReadIdentityPrefix(c, EntryLines(es));
    IdentityNotPools(c);
    EntryLinesShape(es);
    ListAfterSkip(id, EntryLines(es), "pools:");
    ListAfterSkip(EntryLines(es), [], "pools:");
    AppendEmpty(EntryLines(es));
  }

  // ---------------------------------------------------------------------------
  // treatment.py
  // ---------------------------------------------------------------------------

  /** Adds the import lines of one step's tasks to the set; every import field is
      split, including an empty one. */
  method AddLegacyStepImports(seen: seq<string>, tasks: seq<Task>) returns (r: seq<string>)
    ensures r == AddAll(seen, Candidates(tasks, IsJsSpace))
  {
    r := seen;
    var j := 0;
    while j < |tasks|
      invariant 0 <= j <= |tasks|
      invariant r == AddAll(seen, Candidates(tasks[..j], IsJsSpace))
    {
      assert tasks[..j + 1][..j] == tasks[..j];
      AddAllAppend(seen, Candidates(tasks[..j], IsJsSpace), ImportLinesOf(tasks[j].imports, IsJsSpace));
      r := AddImportLines(r, tasks[j].imports);
      j := j + 1;
    }
    assert tasks[..j] == tasks;
  }

  /** The older `treatment.py`: without the empty-field test it writes exactly the
      same file as the current front end. */
  method GenerateLegacyTreatmentFile(pipeline: seq<PipelineStep>) returns (content: string)
    ensures content == TreatmentText(pipeline)
  {
    var allImports: seq<string> := [];
    var i := 0;
    while i < |pipeline|
      invariant 0 <= i <= |pipeline|
      invariant allImports == Dedup(Candidates(AllTasks(pipeline[..i]), IsJsSpace))
    {
      AllTasksStep(pipeline, i);
      CandidatesAppend(AllTasks(pipeline[..i]), pipeline[i].tasks, IsJsSpace);
      DedupAppend(Candidates(AllTasks(pipeline[..i]), IsJsSpace), Candidates(pipeline[i].tasks, IsJsSpace));
      allImports := AddLegacyStepImports(allImports, pipeline[i].tasks);
      i := i + 1;
    }
    assert pipeline[..i] == pipeline;
    content := "";
    if |allImports| > 0 {
      content := Join(allImports, "\n") + "\n\n";
    }
    content := AppendFunctions(content, pipeline);
  }

  // ---------------------------------------------------------------------------
  // dag.py
  // ---------------------------------------------------------------------------

  /** The older `dag.py`: the current layout, with `pool_type` (or `default_pool`)
      as the pool of every operator. */
  function LegacyDagText(c: ProjectConfig): string {
    var tasks := AllTasks(c.pipeline);
    DagHeader(ImportLine(TaskNames(tasks)), EnvLine(EnvName(c)), ScheduleLine(ScheduleValue(c.cron)), "airflow", DagId(c.nomprojet))
    + Operators(tasks, SinglePool(c.poolType))
    + FlowSection(|c.pipeline| == 0, FrontEndNodes(c.pipeline))
  }

  method GenerateLegacyDagFile(c: ProjectConfig) returns (content: string)
    ensures content == LegacyDagText(c)
  {
    var allTaskNames := CollectTaskNames(c.pipeline);
    var taskImports := if |allTaskNames| > 0 then "from src.treatment import " + Join(allTaskNames, ", ") else "";

    // the template's two configuration lines, rewritten at the end
    var envLine := "custom_env_name = \"airflow-env\"";
    var scheduleLine := "schedule_interval = None";

    var body := AppendOperators("", c.pipeline, SinglePool(c.poolType));
    AppendEmpty(Operators(AllTasks(c.pipeline), SinglePool(c.poolType)));
    var flow := EmitFlowSection(|c.pipeline| == 0, FrontEndNodes(c.pipeline));
    body := body + flow;

    if c.useConda && c.condaenv != "" {
      envLine := EnvLine(c.condaenv);
    }
    var cronVal := if c.cron != "" then "\"" + c.cron + "\"" else "None";
    scheduleLine := ScheduleLine(cronVal);
    TemplateEnvLine();
    assert taskImports == ImportLine(TaskNames(AllTasks(c.pipeline)));
    assert envLine == EnvLine(EnvName(c));
    assert scheduleLine == ScheduleLine(ScheduleValue(c.cron));
    var header := DagHeader(taskImports, envLine, scheduleLine, "airflow", DagId(c.nomprojet));
    content := header + body;
    AppendAssoc(header, Operators(AllTasks(c.pipeline), SinglePool(c.poolType)), flow);
  }

  /** Every operator of the older file carries `pool_type`, or `default_pool` when it
      is empty, whatever pool the task itself selected. */
  lemma LegacyOperatorsSharePool(c: ProjectConfig, k: nat)
    requires k < |AllTasks(c.pipeline)|
    ensures OperatorBlocks(AllTasks(c.pipeline), SinglePool(c.poolType))[k]
         == OperatorBlock(AllTasks(c.pipeline)[k], if c.poolType != "" then c.poolType else "default_pool")
  {
  }

  /** When no task selects a pool of its own, the older file is the current file for
      the pool list holding only `pool_type`. */
  lemma LegacyDagIsCurrentWithSinglePool(c: ProjectConfig)
    requires forall t :: t in AllTasks(c.pipeline) ==> !Truthy(t.selectedPool)
    ensures LegacyDagText(c) == DagText(c.(pools := [c.poolType]))
  {
    var tasks := AllTasks(c.pipeline);
    var c1 := c.(pools := [c.poolType]);
    assert AllTasks(c1.pipeline) == tasks;
    assert EnvName(c1) == EnvName(c);
    SinglePoolBlocks(tasks, c.poolType);
  }

  /** Without a pool of its own, every task gets the same pool under the
      older rule and under the current rule with the one-pool list. */
  lemma SinglePoolBlocks(tasks: seq<Task>, poolType: string)
    requires forall t :: t in tasks ==> !Truthy(t.selectedPool)
    ensures OperatorBlocks(tasks, SinglePool(poolType)) == OperatorBlocks(tasks, FirstPool([poolType]))
  {
    forall k | 0 <= k < |tasks|
      ensures PoolFor(SinglePool(poolType), tasks[k]) == PoolFor(FirstPool([poolType]), tasks[k])
    {
      assert tasks[k] in tasks;
    }
    OperatorBlocksAgree(tasks, SinglePool(poolType), FirstPool([poolType]));
  }
}
