/** The deployment cockpit: a five-phase GitOps flow (push a branch, validate the
    merge request, tag a release, watch the CI deployment, success). Two of the
    forward confirms wait for a simulated terminal to finish its command list;
    the creation and update modes differ only in the names they derive. */
module Deployment {
  import opened Text
  import opened Config
  import opened InteractiveTerminal

  datatype Mode = Create | Update

  function ModeName(m: Mode): string {
    match m
    case Create => "create"
    case Update => "update"
  }

  // ---------------------------------------------------------------------------
  // Derived names
  // ---------------------------------------------------------------------------

  function ProjectPath(c: ProjectConfig): string {
    "/home/jovyan/workspaces/" + c.nomprojet
  }

  function BranchName(c: ProjectConfig, m: Mode): string {
    if m == Update then "fix/" + c.persoid + "-" + c.nomprojet + "-update"
    else "feature/" + c.persoid + "-" + c.nomprojet + "-init"
  }

  function TagName(m: Mode): string {
    if m == Update then "v1.1.0" else "v1.0.0"
  }

  function CommitMsg(c: ProjectConfig, m: Mode): string {
    if m == Update then "\"fix: update dag " + c.nomprojet + "\""
    else "\"feat: init dag " + c.nomprojet + "\""
  }

  /** The two modes never agree on a derived name. */
  lemma ModesDiffer(c: ProjectConfig)
    ensures BranchName(c, Create) != BranchName(c, Update)
    ensures TagName(Create) != TagName(Update)
    ensures CommitMsg(c, Create) != CommitMsg(c, Update)
  {
    assert BranchName(c, Create)[1] == 'e' && BranchName(c, Update)[1] == 'i';
    assert CommitMsg(c, Create)[2] == 'e' && CommitMsg(c, Update)[2] == 'i';
  }

  // ---------------------------------------------------------------------------
  // Command lists
  // ---------------------------------------------------------------------------

  /** The commands of the push phase. */
  function PushCommands(c: ProjectConfig, m: Mode): seq<string> {
    if m == Update then
      [ "cd " + ProjectPath(c),
        "git checkout -b " + BranchName(c, m),
        "git add .",
        "git commit -m " + CommitMsg(c, m),
        "git push -u origin " + BranchName(c, m) ]
    else
      [ "cd " + ProjectPath(c),
        "git init",
        "git remote add origin " + c.gitRemote,
        "git checkout -b " + BranchName(c, m),
        "git add .",
        "git commit -m " + CommitMsg(c, m),
        "git push -u origin " + BranchName(c, m) ]
  }

  /** The commands of the tagging phase. */
  function TagCommands(m: Mode): seq<string> {
    [ "git checkout main",
      "git pull origin main",
      "git tag -a " + TagName(m) + " -m \"release: " + ModeName(m) + " deployment\"",
      "git push origin " + TagName(m) ]
  }

  /** The last four push commands, common to both modes up to the names. */
  function BranchCommands(c: ProjectConfig, m: Mode): seq<string> {
    [ "git checkout -b " + BranchName(c, m),
      "git add .",
      "git commit -m " + CommitMsg(c, m),
      "git push -u origin " + BranchName(c, m) ]
  }

  /** Both push lists enter the project directory first and end by creating,
      committing on and pushing the mode's branch; the creation list alone
      initialises the repository and adds the remote in between (seven commands
      against five). */
  lemma PushCommandsShape(c: ProjectConfig, m: Mode)
    ensures var r := PushCommands(c, m);
      r[0] == "cd " + ProjectPath(c) &&
      (m == Update ==> r == [r[0]] + BranchCommands(c, m)) &&
      (m == Create ==> r == [r[0], "git init", "git remote add origin " + c.gitRemote] + BranchCommands(c, m)) &&
      |r| == (if m == Update then 5 else 7)
  {
  }

  // ---------------------------------------------------------------------------
  // The phase machine
  // ---------------------------------------------------------------------------

  datatype Flow = Flow(phase: DeploymentPhase, stepComplete: bool)

  const Initial := Flow(LocalPush, false)

  datatype Event =
    | TerminalDone   // the terminal's completion callback
    | Confirm        // the phase's forward button
    | Back           // the phase's back button

  /** The position of a phase in the flow. */
  function Index(p: DeploymentPhase): (r: nat)
    ensures r <= 4
  {
    match p
    case LocalPush => 0
    case MrValidation => 1
    case Tagging => 2
    case DeployCi => 3
    case Success => 4
  }

  /** The forward button exists and is enabled: the push and tagging confirms
      wait for the terminal, the other two never do, and the last phase has no
      forward button. */
  predicate ConfirmEnabled(f: Flow) {
    f.phase != Success && ((f.phase == LocalPush || f.phase == Tagging) ==> f.stepComplete)
  }

  /** The phases that show a back button. */
  predicate HasBack(p: DeploymentPhase) {
    p == MrValidation || p == Tagging || p == DeployCi
  }

  /** The handlers, one event at a time. A click on a disabled or missing button
      changes nothing. */
  function Step(f: Flow, e: Event): Flow {
    match e
    case TerminalDone => f.(stepComplete := true)
    case Confirm =>
      if !ConfirmEnabled(f) then f
      else (match f.phase
        case LocalPush => Flow(MrValidation, false)
        case MrValidation => Flow(Tagging, false)
        case Tagging => f.(phase := DeployCi)
        case DeployCi => f.(phase := Success)
        case Success => f)
    case Back =>
      match f.phase
      case MrValidation => f.(phase := LocalPush)
      case Tagging => f.(phase := MrValidation)
      case DeployCi => f.(phase := Tagging)
      case _ => f
  }

  function Run(f: Flow, evs: seq<Event>): Flow
    decreases |evs|
  {
    if |evs| == 0 then f else Step(Run(f, evs[..|evs| - 1]), evs[|evs| - 1])
  }

  /** Every event moves at most one phase: forward exactly when an enabled
      confirm is clicked, backward exactly when a shown back button is. */
  lemma OnePhaseAtATime(f: Flow, e: Event)
    ensures Index(Step(f, e).phase) == Index(f.phase) + 1 <==> e == Confirm && ConfirmEnabled(f)
    ensures Index(Step(f, e).phase) + 1 == Index(f.phase) <==> e == Back && HasBack(f.phase)
    ensures Index(Step(f, e).phase) == Index(f.phase) <==>
      !(e == Confirm && ConfirmEnabled(f)) && !(e == Back && HasBack(f.phase))
  {
  }

  /** Only the terminal's callback sets the completion flag. */
  lemma OnlyTerminalCompletes(f: Flow, e: Event)
    requires !f.stepComplete && Step(f, e).stepComplete
    ensures e == TerminalDone
  {
  }

  /** Leaving the push or validation phase forward clears the flag; leaving the
      tagging phase keeps it. */
  lemma ConfirmClears(f: Flow)
    requires ConfirmEnabled(f)
    ensures f.phase == LocalPush || f.phase == MrValidation ==> !Step(f, Confirm).stepComplete
    ensures f.phase == Tagging ==> Step(f, Confirm).stepComplete
  {
  }

  function CountDone(evs: seq<Event>): nat
    decreases |evs|
  {
    if |evs| == 0 then 0
    else CountDone(evs[..|evs| - 1]) + (if evs[|evs| - 1] == TerminalDone then 1 else 0)
  }

  /** What every reachable state owes to the terminal runs behind it. */
  predicate Earned(f: Flow, n: nat) {
    (f.stepComplete ==> n >= 1) &&
    (Index(f.phase) >= 1 ==> n >= 1) &&
    (Index(f.phase) >= 3 ==> n >= 2) &&
    (f.phase == Tagging && f.stepComplete ==> n >= 2) &&
    (f.phase == DeployCi ==> f.stepComplete)
  }

  lemma {:induction false} RunEarned(evs: seq<Event>)
    ensures Earned(Run(Initial, evs), CountDone(evs))
    decreases |evs|
  {
    if |evs| > 0 {
      RunEarned(evs[..|evs| - 1]);
    }
  }

  /** Success is reached only after the terminal has finished at least twice:
      once for the push, once for the tag. */
  lemma SuccessNeedsTwoRuns(evs: seq<Event>)
    requires Run(Initial, evs).phase == Success
    ensures CountDone(evs) >= 2
  {
    RunEarned(evs);
  }

  /** After Back from the deployment phase, the tagging confirm is already
      enabled: the flag survives the round trip. */
  lemma BackFromDeployKeepsTagging(evs: seq<Event>)
    requires Run(Initial, evs).phase == DeployCi
    ensures Run(Initial, evs + [Back]).phase == Tagging
    ensures ConfirmEnabled(Run(Initial, evs + [Back]))
  {
    RunEarned(evs);
    assert (evs + [Back])[..|evs|] == evs;
  }

  lemma RunSnoc(f: Flow, evs: seq<Event>, e: Event)
    ensures Run(f, evs + [e]) == Step(Run(f, evs), e)
  {
    assert (evs + [e])[..|evs|] == evs;
  }

  /** The shortest successful run. */
  lemma ShortestSuccess()
    ensures Run(Initial, [TerminalDone, Confirm, Confirm, TerminalDone, Confirm, Confirm]).phase == Success
  {
    var s0: seq<Event> := [];
    RunSnoc(Initial, s0, TerminalDone);
    var s1 := s0 + [TerminalDone];
    RunSnoc(Initial, s1, Confirm);
    var s2 := s1 + [Confirm];
    RunSnoc(Initial, s2, Confirm);
    var s3 := s2 + [Confirm];
    RunSnoc(Initial, s3, TerminalDone);
    var s4 := s3 + [TerminalDone];
    RunSnoc(Initial, s4, Confirm);
    var s5 := s4 + [Confirm];
    RunSnoc(Initial, s5, Confirm);
    assert s5 + [Confirm] == [TerminalDone, Confirm, Confirm, TerminalDone, Confirm, Confirm];
  }

  /** A completion earned in the tagging phase survives two Back clicks, so the
      push confirm is enabled on return although the push terminal, rendered
      afresh, has not run again. */
  lemma StaleCompletion()
    ensures Run(Initial, [TerminalDone, Confirm, Confirm, TerminalDone, Back, Back]) == Flow(LocalPush, true)
  {
    var s0: seq<Event> := [];
    RunSnoc(Initial, s0, TerminalDone);
    var s1 := s0 + [TerminalDone];
    RunSnoc(Initial, s1, Confirm);
    var s2 := s1 + [Confirm];
    RunSnoc(Initial, s2, Confirm);
    var s3 := s2 + [Confirm];
    RunSnoc(Initial, s3, TerminalDone);
    var s4 := s3 + [TerminalDone];
    RunSnoc(Initial, s4, Back);
    var s5 := s4 + [Back];
    RunSnoc(Initial, s5, Back);
    assert s5 + [Back] == [TerminalDone, Confirm, Confirm, TerminalDone, Back, Back];
  }

  /** Back undoes a confirm's move, for every phase that has both buttons. */
  lemma BackUndoesConfirm(f: Flow)
    requires ConfirmEnabled(f) && f.phase != DeployCi
    ensures Step(Step(f, Confirm), Back).phase == f.phase
  {
  }

  // ---------------------------------------------------------------------------
  // Timeline
  // ---------------------------------------------------------------------------

  /** The width of the progress bar, in percent. */
  function Progress(p: DeploymentPhase): nat {
    if p == Success then 100
    else if p == DeployCi then 75
    else if p == Tagging then 50
    else if p == MrValidation then 25
    else 0
  }

  /** Whether indicator `k` (push, validate, tag, deploy) shows as completed. */
  function IndicatorCompleted(k: nat, p: DeploymentPhase): bool
    requires k < 4
  {
    if k == 0 then p != LocalPush
    else if k == 1 then p != LocalPush && p != MrValidation
    else if k == 2 then p == DeployCi || p == Success
    else p == Success
  }

  /** Whether indicator `k` is the active one. */
  function IndicatorActive(k: nat, p: DeploymentPhase): bool
    requires k < 4
  {
    if k == 0 then p == LocalPush
    else if k == 1 then p == MrValidation
    else if k == 2 then p == Tagging
    else p == DeployCi
  }

  /** The bar advances a quarter per phase, and indicator `k` is completed
      exactly when the flow is past phase `k` and active exactly at it. */
  lemma TimelineFollowsPhase(p: DeploymentPhase, k: nat)
    requires k < 4
    ensures Progress(p) == 25 * Index(p)
    ensures IndicatorCompleted(k, p) <==> Index(p) > k
    ensures IndicatorActive(k, p) <==> Index(p) == k
  {
  }

  // ---------------------------------------------------------------------------
  // The component
  // ---------------------------------------------------------------------------

  /** The commands of the terminal the phase shows. */
  function PhaseCommands(c: ProjectConfig, m: Mode, p: DeploymentPhase): seq<string> {
    if p == LocalPush then PushCommands(c, m)
    else if p == Tagging then TagCommands(m)
    else []
  }

  predicate ShowsTerminal(p: DeploymentPhase) {
    p == LocalPush || p == Tagging
  }

  class DeploymentManager {
    const config: ProjectConfig
    const mode: Mode
    var phase: DeploymentPhase
    var stepComplete: bool
    /** The terminal currently rendered; a phase that shows one renders it
        afresh on entry. */
    var terminal: Terminal

    function State(): Flow
      reads this
    {
      Flow(phase, stepComplete)
    }

    constructor (config: ProjectConfig, mode: Mode)
      ensures this.config == config && this.mode == mode
      ensures State() == Initial
      ensures fresh(terminal) && terminal.lines == [] && !terminal.running && !terminal.completed
    {
      this.config := config;
      this.mode := mode;
      phase := LocalPush;
      stepComplete := false;
      terminal := new Terminal();
    }

    /** The forward button of the current phase. */
    method ConfirmClicked()
      modifies this
      ensures State() == Step(old(State()), Confirm)
      ensures phase != old(phase) && ShowsTerminal(phase) ==>
        fresh(terminal) && terminal.lines == [] && !terminal.running && !terminal.completed
      ensures phase == old(phase) ==> terminal == old(terminal)
    {
      if phase == LocalPush && stepComplete {
        phase := MrValidation;
        stepComplete := false;
      } else if phase == MrValidation {
        phase := Tagging;
        stepComplete := false;
        terminal := new Terminal();
      } else if phase == Tagging && stepComplete {
        phase := DeployCi;
      } else if phase == DeployCi {
        phase := Success;
      }
    }

    /** The back button of the current phase. */
    method BackClicked()
      modifies this
      ensures State() == Step(old(State()), Back)
      ensures phase != old(phase) && ShowsTerminal(phase) ==>
        fresh(terminal) && terminal.lines == [] && !terminal.running && !terminal.completed
      ensures phase == old(phase) ==> terminal == old(terminal)
    {
      if phase == MrValidation {
        phase := LocalPush;
        terminal := new Terminal();
      } else if phase == Tagging {
        phase := MrValidation;
      } else if phase == DeployCi {
        phase := Tagging;
        terminal := new Terminal();
      }
    }

    /** "Run Sequence" in the phase's terminal, then its completion callback. */
    method RunTerminal()
      requires ShowsTerminal(phase)
      requires !terminal.running && !terminal.completed
      modifies this, terminal
      ensures State() == Step(old(State()), TerminalDone)
      ensures terminal == old(terminal)
      ensures terminal.lines == Transcript(PhaseCommands(config, mode, phase))
      ensures terminal.completed
    {
      terminal.RunSequence(PhaseCommands(config, mode, phase));
      stepComplete := true;
    }
  }
}
