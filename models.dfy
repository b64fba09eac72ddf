/** The backend's validation of a project configuration: field constraints
    (lengths, allowed literals, ranges, non-empty lists) are checked first, then
    the project name and the code robin are normalised. */
module Models {
  import opened Text
  import opened Config

  // ---------------------------------------------------------------------------
  // Defaults
  // ---------------------------------------------------------------------------

  const DefaultCode: string := "# Add your logic here..."

  /** A task given only its id and name. */
  function DefaultTask(id: string, name: string): (t: Task)
    ensures t.id == id && t.name == name
    ensures ValidTask(t)
    ensures t.imports == "" && t.code == DefaultCode
    ensures t.priority == "low" && t.poolSlots == 1 && t.kind == "python" && t.selectedPool == None
  {
    Task(id, name, "", DefaultCode, "low", 1, "python", None)
  }

  /** A configuration given only its required fields; every other field takes its
      declared default. */
  function DefaultConfig(nomprojet: string, coderobin: string, gitRemote: string, persoid: string,
                         lddata: string, pipeline: seq<PipelineStep>): (c: ProjectConfig)
    ensures c.nomprojet == nomprojet && c.coderobin == coderobin && c.pipeline == pipeline
    ensures !c.useConda && c.condaenv == "airflow-ml-3.11" && c.stage == LIL
    ensures !c.useVertica && c.silot == "BANK"
    ensures !c.useInput && c.datalabIn == "" && !c.useOutput && c.datalabOut == ""
    ensures !c.useNas && !c.useGpu && c.cron == "" && c.bundleBase == "" && !c.prepareTests
    ensures c.pools == []
  {
    ProjectConfig(nomprojet, coderobin, gitRemote, persoid, lddata,
                  false, "airflow-ml-3.11", LIL, false, "BANK",
                  false, "", false, "",
                  false, false, "", "", false,
                  pipeline, [], "")
  }

  // ---------------------------------------------------------------------------
  // Field constraints
  // ---------------------------------------------------------------------------

  predicate ValidPriority(p: string) {
    p == "high" || p == "mid" || p == "low"
  }

  predicate ValidKind(k: string) {
    k == "python" || k == "bash" || k == "dummy"
  }

  /** A priority among the three literals, one to five pool slots, a known type. */
  predicate ValidTask(t: Task) {
    ValidPriority(t.priority) && 1 <= t.poolSlots <= 5 && ValidKind(t.kind)
  }

  /** A step needs at least one task. */
  predicate ValidStep(s: PipelineStep) {
    |s.tasks| >= 1 && forall k :: 0 <= k < |s.tasks| ==> ValidTask(s.tasks[k])
  }

  /** The field constraints of a project configuration. */
  predicate Admissible(c: ProjectConfig) {
    |c.nomprojet| >= 1 && 1 <= |c.coderobin| <= 4 && |c.pipeline| >= 1
    && forall i :: 0 <= i < |c.pipeline| ==> ValidStep(c.pipeline[i])
  }

  /** One broken constraint. */
  datatype Violation =
    | NameEmpty
    | CodeLength
    | PipelineEmpty
    | StepEmpty(step: nat)
    | TaskInvalid(step: nat, task: nat)

  /** Every broken constraint; the validator reports them all at once. */
  function Violations(c: ProjectConfig): set<Violation> {
    var p := c.pipeline;
    (if |c.nomprojet| == 0 then {NameEmpty} else {})
    + (if !(1 <= |c.coderobin| <= 4) then {CodeLength} else {})
    + (if |p| == 0 then {PipelineEmpty} else {})
    + (set i: nat | i < |p| && |p[i].tasks| == 0 :: StepEmpty(i))
    + (set i: nat, k: nat | i < |p| && k < |p[i].tasks| && !ValidTask(p[i].tasks[k]) :: TaskInvalid(i, k))
  }

  /** No violation is reported exactly when every constraint holds. */
  lemma ViolationsEmpty(c: ProjectConfig)
    ensures Violations(c) == {} <==> Admissible(c)
  {
    var p := c.pipeline;
    if Violations(c) == {} {
      forall i | 0 <= i < |p| ensures ValidStep(p[i]) {
        assert StepEmpty(i) !in Violations(c);
        forall k | 0 <= k < |p[i].tasks| ensures ValidTask(p[i].tasks[k]) {
          assert TaskInvalid(i, k) !in Violations(c);
        }
      }
    } else {
      var v :| v in Violations(c);
      if v.StepEmpty? {
        assert !ValidStep(p[v.step]);
      } else if v.TaskInvalid? {
        assert !ValidStep(p[v.step]);
      }
    }
  }

  // ---------------------------------------------------------------------------
  // Normalisation
  // ---------------------------------------------------------------------------

  predicate NoUpper(s: string) {
    forall i :: 0 <= i < |s| ==> !('A' <= s[i] <= 'Z')
  }

  /** `v.lower()[:4]` */
  function LowerCode(v: string): (r: string)
    ensures |r| == (if |v| < 4 then |v| else 4)
    ensures NoUpper(r)
    ensures forall i :: 0 <= i < |r| ==> r[i] == LowerChar(v[i])
  {
    Lower(v)[..if |v| < 4 then |v| else 4]
  }

  /** `v.replace(' ', '_').lower()` */
  function SafeName(v: string): (r: string)
    ensures |r| == |v|
    ensures ' ' !in r && NoUpper(r)
    ensures forall i :: 0 <= i < |v| ==> r[i] == (if v[i] == ' ' then '_' else LowerChar(v[i]))
  {
    var r := Lower(ReplaceChar(v, ' ', '_'));
    assert forall i :: 0 <= i < |r| ==> r[i] != ' ';
    r
  }

  /** A configuration whose name and code robin are already in normal form. */
  predicate Normalised(c: ProjectConfig) {
    ' ' !in c.nomprojet && NoUpper(c.nomprojet) && NoUpper(c.coderobin)
  }

  datatype Validation = Accepted(config: ProjectConfig) | Rejected(violations: set<Violation>)

  /** Parsing a configuration: all violations, or the configuration with its two
      normalised fields and everything else unchanged. */
  function Validate(c: ProjectConfig): (r: Validation)
    ensures r.Rejected? ==> r.violations != {}
    ensures r.Accepted? ==> r.config == c.(nomprojet := SafeName(c.nomprojet), coderobin := LowerCode(c.coderobin))
  {
    var v := Violations(c);
    if v != {} then Rejected(v)
    else Accepted(c.(nomprojet := SafeName(c.nomprojet), coderobin := LowerCode(c.coderobin)))
  }

  /** A configuration is accepted exactly when it meets the constraints, and what
      comes out meets them too and is normalised. */
  lemma ValidateAccepts(c: ProjectConfig)
    ensures Validate(c).Accepted? <==> Admissible(c)
    ensures Validate(c).Accepted? ==> Admissible(Validate(c).config) && Normalised(Validate(c).config)
  {
    ViolationsEmpty(c);
    if Admissible(c) {
      var d := Validate(c).config;
      assert d.pipeline == c.pipeline;
    }
  }

  lemma {:induction false} NoUpperLower(s: string)
    requires NoUpper(s)
    ensures Lower(s) == s
  {
    assert forall i :: 0 <= i < |s| ==> LowerChar(s[i]) == s[i];
  }

  /** The code robin validator applied twice equals applied once. */
  lemma LowerCodeIdempotent(v: string)
    ensures LowerCode(LowerCode(v)) == LowerCode(v)
  {
    NoUpperLower(LowerCode(v));
  }

  /** The project name validator applied twice equals applied once. */
  lemma SafeNameIdempotent(v: string)
    ensures SafeName(SafeName(v)) == SafeName(v)
  {
    var r := SafeName(v);
    assert ReplaceChar(r, ' ', '_') == r;
    NoUpperLower(r);
  }

  /** Validating an accepted configuration again accepts it unchanged. */
  lemma ValidateIdempotent(c: ProjectConfig)
    requires Validate(c).Accepted?
    ensures Validate(Validate(c).config) == Validate(c)
  {
    ValidateAccepts(c);
    var d := Validate(c).config;
    ValidateAccepts(d);
    LowerCodeIdempotent(c.coderobin);
    SafeNameIdempotent(c.nomprojet);
  }

  /** The length limit is checked before the code robin is lowered, so the
      truncation to four characters never removes anything. */
  lemma CodeTruncationNeverCuts(c: ProjectConfig)
    requires Validate(c).Accepted?
    ensures Validate(c).config.coderobin == Lower(c.coderobin)
  {
    ValidateAccepts(c);
  }

  /** A configuration built from defaults is accepted once its required fields are. */
  lemma DefaultConfigAccepted(nomprojet: string, coderobin: string, gitRemote: string, persoid: string,
                              lddata: string, pipeline: seq<PipelineStep>)
    requires |nomprojet| >= 1 && 1 <= |coderobin| <= 4 && |pipeline| >= 1
    requires forall i :: 0 <= i < |pipeline| ==> ValidStep(pipeline[i])
    ensures Validate(DefaultConfig(nomprojet, coderobin, gitRemote, persoid, lddata, pipeline)).Accepted?
  {
    ValidateAccepts(DefaultConfig(nomprojet, coderobin, gitRemote, persoid, lddata, pipeline));
  }
}
