# Airflow Studio, modelled in Dafny

Airflow Studio is a JupyterLab extension for building Apache Airflow
projects without writing the boilerplate. The user fills in a project
configuration in a guided form:

- identity;
- pool;
- a pipeline of sequential steps, each holding parallel tasks;
- environment and schedule;
- input/output folders.

The studio then compiles the configuration into three files:

- `meta.yaml`, a key/value listing of the project;
- `treatment.py`, one Python function per task;
- `dag.py`, the Airflow DAG with one `PythonOperator` per task and a
  start → steps → end dependency flow.

A deployment cockpit then walks the user through a five-phase GitOps flow:
push a branch, validate the merge request, tag a release, watch the CI
deployment, success.

The repository holds three versions of the compiler:

- the current front end (`src/utils/generator.ts`);
- an older front end (`utils/generator.ts`);
- the Python backend (`airflow_dag_generator/core/generator.py`).

It also holds two versions of the studio's top-level state (`src/App.tsx`
and `App.tsx`), two folder pickers, two schedule editors, the backend's
configuration validators, the pipeline editor and the deployment cockpit.

The model has one Dafny module per component:

| module | file | models |
|---|---|---|
| `Text` | text.dfy | the JavaScript/Python string operations used throughout (split, join, trim, case mapping, includes, decimal rendering) |
| `Config` | config.dfy | the `Task`, `PipelineStep` and `ProjectConfig` records |
| `Order` | order.dfy | Python string order and `sorted(set(...))` |
| `Compile` | compile.dfy | what all three compilers share: name sanitisation, the priority weight, the DAG id, the operator block, and the dependency-flow cursor |
| `Treatment` | treatment.dfy | `treatment.py` as the front ends write it |
| `GeneratorTs` | generator_ts.dfy | the current front-end compiler |
| `GeneratorLegacy` | generator_legacy.dfy | the older front-end compiler |
| `GeneratorPy` | generator_py.dfy | the backend compiler |
| `Models` | models.dfy | the backend's configuration validation |
| `JsNumber` | js_number.dfy | `Number`, `parseInt` and `String` on integer numerals |
| `EnvironmentSchedule` | environment_schedule.dfy | the cron decoder/encoder of the environment section (POSIX crontab five-field format, IEEE Std 1003.1) |
| `LegacySchedule` | schedule_builder.dfy | the older schedule editor |
| `CronKeywords` | cron_keywords.dfy | the offline description → cron keyword table |
| `TaskBuilder` | task_builder.dfy | the pipeline editor (capacity check, slider, add, remove, drag-and-drop move) |
| `InteractiveTerminal` | terminal.dfy | the cockpit's simulated terminal |
| `Deployment` | deployment.dfy | the cockpit's phase machine |
| `Sections` | sections.dfy | the guided accordion flow and the single-task save |
| `StudioApp` | studio_app.dfy | the current top-level state |
| `LegacyApp` | legacy_app.dfy | the older top-level state |
| `JupyterExplorer` | jupyter_explorer.dfy | the current folder picker |
| `MockExplorer` | mock_explorer.dfy | the older folder picker |

The model keeps the source's form:

- **Generators.** The string-building loops are methods with loop
  invariants, each proved equal to a specification function of the
  configuration. The properties are then proved about those functions: the
  meta lines read back, import order, and the shape of the flow.
- **Stateful components.** These are classes with `modifies` clauses: the
  editors, the cockpit, the terminal, the two top-level states and the
  pickers.
- **Server answers.** The answers to load, save and listing requests are
  parameters of the handlers.
- **Fresh ids.** Ids the source draws from the clock or from randomness are
  parameters.

## Model

| member | source | states |
|---|---|---|
| Compile.Sanitize | src/utils/generator.ts:70 | every character outside `[A-Za-z0-9_]` becomes `_`; the length is preserved |
| Compile.SanitizeWordChars | airflow_dag_generator/core/generator.py:114-118 | the result holds only word characters, and word characters are kept in place |
| Compile.SanitizeFixpoint | utils/generator.ts:88 | a name is left unchanged exactly when it is already made of word characters |
| Compile.SanitizeIdempotent | airflow_dag_generator/core/generator.py:206-210 | sanitising twice equals sanitising once |
| Compile.SanitizeExample | src/utils/generator.ts:134 | `"load data!"` becomes `load_data_` |
| Compile.JsSanitize | src/utils/generator.ts:134 | the front ends' code-unit `replace` keeps the UTF-16 length and leaves only word characters |
| Compile.JsSanitizeOnBmp | src/utils/generator.ts:70 | on names of single-unit characters it equals the per-character sanitisation the backend's `re.sub` does |
| Compile.SanitizeAstralExample | utils/generator.ts:88 | the name `a` + U+1F600 becomes `a__` in the front ends and `a_` in the backend |
| Compile.EnvRewriteVerbatim | src/utils/generator.ts:177-182 | without `$` in the environment name, the rewrite inserts the environment line as written |
| Compile.ScheduleRewriteVerbatim | src/utils/generator.ts:184-188 | without `$` in the cron, the rewrite inserts the schedule line as written |
| Compile.EnvRewriteRepeatsMatch | utils/generator.ts:192-197 | the environment name `env$&` puts the template's own line inside the new one |
| Compile.PriorityWeight | src/utils/generator.ts:84-91 | the weight is between 1 and 3; it is 3 exactly for `high` and 2 exactly for `mid` |
| Compile.PriorityWeightMatchesTable | airflow_dag_generator/core/generator.py:212-215 | the front ends' switch agrees, on every string, with the backend's `{'high':3,'mid':2,'low':1}.get(p, 1)` |
| Compile.DagId | src/utils/generator.ts:121 | the DAG id is `dag_` followed by the project name; it contains no `-`, and every other character of the name is kept in place |
| Compile.ImportLine | src/utils/generator.ts:102-104 | the `from src.treatment import` line is empty exactly when there are no tasks |
| Compile.ScheduleValue | src/utils/generator.ts:184 | the schedule is `None` exactly for an empty cron, and the quoted cron otherwise |
| Compile.PoolFor | src/utils/generator.ts:136 | the pool is the task's own, a configured one or `default_pool`; a task's own non-empty pool wins, else a non-empty first pool; the front ends never write an empty pool, the backend does exactly when its first pool is empty and the task has none; with nothing configured the pool is `default_pool` |
| Compile.FrontEndAndBackendPools | airflow_dag_generator/core/generator.py:172 | the front-end and backend pool rules differ exactly when the task has no pool of its own and the first pool is the empty string |
| Compile.OperatorsAppend | src/utils/generator.ts:132-147 | the operators of a concatenation of task lists are the operators of each list, in order |
| Compile.TaskNamesAt | src/utils/generator.ts:95-100 | the k-th collected name is the sanitised name of the k-th task |
| Compile.CollectTaskNames | src/utils/generator.ts:95-100 | the collecting loop yields the sanitised names of all tasks, step after step |
| Compile.PushStepNames | src/utils/generator.ts:97-99 | one step's loop appends that step's sanitised names |
| Compile.AppendOperator | src/utils/generator.ts:138-145 | writing one operator appends exactly that task's block |
| Compile.AppendStepOperators | src/utils/generator.ts:133-146 | one step's loop appends the operators of that step's tasks |
| Compile.AppendOperators | src/utils/generator.ts:132-147 | the operator loop appends one block per task of the whole pipeline |
| Compile.StepNode | src/utils/generator.ts:156-161 | a step has no node exactly when it has no task |
| Compile.StepNodesAgree | airflow_dag_generator/core/generator.py:192-200 | the front-end and backend step nodes agree on every step with tasks; an empty step has no front-end node and is `[]` in the backend |
| Compile.FlowIsChain | src/utils/generator.ts:163-173 | the cursor loop links `start`, the present nodes in order, and `end` into one chain |
| Compile.EmptyFlow | utils/generator.ts:178-188 | with no present node the flow is exactly `start >> end` |
| Compile.EmptyFlowFrom | utils/generator.ts:178-188 | missing nodes are skipped, so a cursor with no present node after it is linked straight to `end` |
| Compile.EmitFlow | src/utils/generator.ts:163-173 | the cursor loop writes the specified flow |
| Compile.EmitFlowSection | src/utils/generator.ts:150-174 | the flow section is the heading, then `start >> end` for an empty pipeline, else the cursor chain |
| Compile.EmptyPipelineCaseRedundant | src/utils/generator.ts:152-153 | the front ends' empty-pipeline special case writes what the cursor chain would write anyway |
| Compile.FlowsAgreeWithoutEmptyStages | airflow_dag_generator/core/generator.py:184-202 | front end and backend build the same flow when no step is empty |
| Config.AllTasksAppend | src/utils/generator.ts:68-69 | flattening a concatenation of steps is the concatenation of the flattenings |
| Config.AllTasksLength | types.ts:13-16 | the flattened task list holds as many tasks as the pipeline counts |
| Treatment.ImportLinesOf | src/utils/generator.ts:54-56 | an import field yields its trimmed lines, none of them blank |
| Treatment.EmptyImportsContributeNothing | src/utils/generator.ts:53 | an empty import field yields no line, so the current front end's extra emptiness test changes nothing |
| Treatment.DedupElements | src/utils/generator.ts:50-60 | the import set keeps each line exactly once, and keeps nothing else |
| Treatment.DedupFirstAppearanceOrder | src/utils/generator.ts:64 | the kept lines come in the order of their first appearance across the pipeline |
| Treatment.DedupAppend | src/utils/generator.ts:50-60 | inserting more lines into the set of `xs` gives the set of `xs + ys` |
| Treatment.ImportBlock | src/utils/generator.ts:62-65 | the import block is empty exactly when there is no import line |
| Treatment.IndentedCodeEmpty | src/utils/generator.ts:76 | the indented code is empty exactly for empty code, so only `''` falls back to `    pass` |
| Treatment.DedentBody | src/utils/generator.ts:72-76 | removing the indentation from a body that is not `pass` gives the task's code back |
| Treatment.DefBlockStartsWithName | src/utils/generator.ts:70-71 | each function starts with `def <sanitised name>(**context):` |
| Treatment.AddImportLines | src/utils/generator.ts:54-57 | one task's loop adds its trimmed non-blank lines to the set |
| Treatment.AppendFunction | src/utils/generator.ts:70-77 | writing one function appends exactly that task's block |
| Treatment.AppendStepFunctions | src/utils/generator.ts:69-78 | one step's loop appends the functions of that step's tasks |
| Treatment.AppendFunctions | src/utils/generator.ts:68-79 | the function loop appends one function per task of the pipeline |
| GeneratorTs.AbsolutePath | src/utils/generator.ts:30 | an I/O folder always becomes absolute, and one that already starts with `/` is kept as it is |
| GeneratorTs.AbsolutePathIdempotent | src/utils/generator.ts:34 | making a path absolute twice changes nothing |
| GeneratorTs.GenerateMetaYaml | src/utils/generator.ts:6-46 | the lines are pushed in the fixed order, joined by newlines, and the file ends in a newline; the backend (airflow_dag_generator/core/generator.py, lines 12-61) writes the same lines in the same order, so this one member models both |
| GeneratorTs.PushPools | src/utils/generator.ts:16-19 | the `pools:` header and its items are pushed only when there are pools |
| GeneratorTs.PushIf | src/utils/generator.ts:21-23 | a gated line is pushed exactly under its gate |
| GeneratorTs.PushGatedLines | src/utils/generator.ts:21-43 | the optional lines are pushed in order, each under its gate |
| GeneratorTs.GatedLinesAreEntries | src/utils/generator.ts:21-43 | the optional lines are the entry lines of the gated entries |
| GeneratorTs.ReadIdentity | src/utils/generator.ts:8-13 | reading `meta.yaml` back gives `folder: <p>/r_<code>_<p>`, the stage, the upper-cased data location and the persoid |
| GeneratorTs.ReadIdentityPrefix | src/utils/generator.ts:8-13 | the identity lines read back as configured, whatever follows them |
| GeneratorTs.IdentityNotPools | src/utils/generator.ts:10-17 | no identity line is a `pools:` header |
| GeneratorTs.ReadPools | src/utils/generator.ts:16-19 | the pools block reads back as the configured pools, in order; without pools there is no block |
| GeneratorTs.ItemsOfPoolItems | src/utils/generator.ts:18 | the item lines read back as the pool names |
| GeneratorTs.EntryLinesShape | src/utils/generator.ts:21-43 | every optional line starts with its key, never with a space or `pools:` |
| GeneratorTs.LookupEntries | src/utils/generator.ts:21-43 | among lines whose keys are distinct, a key is found with its value exactly when its gate is set |
| GeneratorTs.ReadGatedLines | src/utils/generator.ts:21-43 | silot, env_name, input/output folders (made absolute), NAS and GPU are each present, with their value, exactly under their gates |
| GeneratorTs.AddStepImports | src/utils/generator.ts:52-59 | one step's loop adds its tasks' import lines and skips tasks whose import field is empty |
| GeneratorTs.CollectImports | src/utils/generator.ts:50-60 | the set holds the distinct import lines of the pipeline, in first-appearance order |
| GeneratorTs.GenerateTreatmentFile | src/utils/generator.ts:48-82 | the file written is the import block followed by one function per task |
| GeneratorTs.TemplateEnvLine | src/utils/generator.ts:113 | the template's environment line is the rewrite of `airflow-env` |
| GeneratorTs.GenerateDagFile | src/utils/generator.ts:93-191 | the file is the header with both configuration lines rewritten, then one operator per task, then the flow |
| GeneratorTs.OperatorBlockStartsWithName | src/utils/generator.ts:138-140 | each operator opens with `t_<sanitised name> = PythonOperator(` |
| GeneratorTs.NamesLineUp | src/utils/generator.ts:95-104 | the import line, the treatment functions and the operators use the same sanitised name at each position of the pipeline |
| GeneratorTs.DagConfigurationLines | src/utils/generator.ts:176-188 | the environment is rewritten exactly when conda is on with a non-empty name; the schedule is the quoted cron, or `None` |
| GeneratorTs.FrontEndFlow | src/utils/generator.ts:149-174 | the flow links `start`, the node of every non-empty step in order, and `end` |
| GeneratorLegacy.GenerateLegacyMetaYaml | utils/generator.ts:33-66 | the older lines are pushed in order, joined by newlines, and the file ends in a newline |
| GeneratorLegacy.LegacyLinesAreEntries | utils/generator.ts:42-63 | the older optional lines are the entry lines of their gated entries |
| GeneratorLegacy.LegacyMetaStartsLikeCurrent | utils/generator.ts:37-40 | the older file starts with the same four identity lines as the current one |
| GeneratorLegacy.ReadLegacyMeta | utils/generator.ts:42-63 | `git_remote` is present exactly when set; the I/O folders are present exactly when non-empty, verbatim and with no toggle; silot, env_name, NAS and GPU keep their gates |
| GeneratorLegacy.ReadLegacyEntry | utils/generator.ts:42-63 | each older optional key reads back with its value exactly under its gate |
| GeneratorLegacy.LegacyMetaHasNoPools | utils/generator.ts:33-66 | the older file has no pools list, and its persoid reads back |
| GeneratorLegacy.AddLegacyStepImports | utils/generator.ts:72-76 | the older loop splits every import field, even an empty one, and adds the same lines |
| GeneratorLegacy.GenerateLegacyTreatmentFile | utils/generator.ts:68-100 | the older `treatment.py` is exactly the current front end's |
| GeneratorLegacy.GenerateLegacyDagFile | utils/generator.ts:111-206 | the older `dag.py` is written as specified |
| GeneratorLegacy.LegacyOperatorsSharePool | utils/generator.ts:157 | every operator gets `pool_type`, or `default_pool` when that is empty, whatever the task selected |
| GeneratorLegacy.LegacyDagIsCurrentWithSinglePool | utils/generator.ts:111-206 | when no task has a pool of its own, the older `dag.py` is the current one for the pool list `[pool_type]` |
| GeneratorPy.AddImportSet | airflow_dag_generator/core/generator.py:82-85 | one import field adds its stripped non-blank lines to the set |
| GeneratorPy.AddStepImportSet | airflow_dag_generator/core/generator.py:80-85 | one step's loop adds its tasks' lines and skips empty import fields |
| GeneratorPy.CollectImportSet | airflow_dag_generator/core/generator.py:77-85 | the set holds every import line of the pipeline |
| Order.SortSet | airflow_dag_generator/core/generator.py:90 | `sorted` of a set is strictly increasing and holds exactly the set's values |
| Order.SortedSetSpec | airflow_dag_generator/core/generator.py:90 | the reference `sorted(set(xs))` is strictly increasing and holds exactly the values of `xs` |
| Order.StrictlySortedUnique | airflow_dag_generator/core/generator.py:90 | a strictly sorted list is determined by its values, so the sort has one possible result |
| Order.LexLessTotal | airflow_dag_generator/core/generator.py:90 | Python's string order is total on distinct strings (with irreflexivity, transitivity and asymmetry alongside) |
| GeneratorPy.SortedImportsPermuteFrontEnd | airflow_dag_generator/core/generator.py:89-90 | the backend writes the same import lines as the front ends, each once, only sorted instead of in first-appearance order |
| GeneratorPy.ImportOrderExample | airflow_dag_generator/core/generator.py:90 | two lines given in reverse order keep that order in the front ends and are sorted by the backend |
| GeneratorPy.AppendDocstring | airflow_dag_generator/core/generator.py:97-101 | the docstring records the task's name, priority and pool slots |
| GeneratorPy.AppendCodeLines | airflow_dag_generator/core/generator.py:105-106 | each code line is indented and ended; an empty line becomes a bare newline |
| GeneratorPy.AppendBody | airflow_dag_generator/core/generator.py:104-108 | the body is the code lines, or `pass` when the stripped code is empty |
| GeneratorPy.AppendTaskFunction | airflow_dag_generator/core/generator.py:95-110 | writing one function appends exactly that task's backend block |
| GeneratorPy.AppendStepTaskFunctions | airflow_dag_generator/core/generator.py:94-110 | one step's loop appends the functions of that step's tasks |
| GeneratorPy.AppendTaskFunctions | airflow_dag_generator/core/generator.py:93-110 | the function loop appends one function per task of the pipeline |
| GeneratorPy.GenerateTreatment | airflow_dag_generator/core/generator.py:67-112 | the file is the sorted distinct imports followed by one function per task |
| GeneratorPy.IndentedLinesAreJoin | airflow_dag_generator/core/generator.py:105-106 | the backend's line-by-line indentation is the front ends' indented code plus a final newline |
| GeneratorPy.BodyMatchesFrontEnd | airflow_dag_generator/core/generator.py:104-108 | code with something besides whitespace gets the front ends' body plus a newline |
| GeneratorPy.PyDefBlockMatchesFrontEnd | airflow_dag_generator/core/generator.py:95-110 | the backend function is the front end's with the docstring inserted after `def` and one more newline |
| GeneratorPy.WhitespaceCodeExample | airflow_dag_generator/core/generator.py:104 | whitespace-only code gets `pass` in the backend but is indented by the front ends |
| GeneratorPy.GenerateDag | airflow_dag_generator/core/generator.py:124-204 | the backend `dag.py` is the f-string header, one operator per task, then the flow in which every step is a node |
| GeneratorPy.EnvNamesDiffer | airflow_dag_generator/core/generator.py:150 | the backend and front-end environment rules differ exactly when conda is on with an empty name |
| GeneratorPy.BackendDagMatchesFrontEnd | airflow_dag_generator/core/generator.py:143-202 | with owner `airflow`, no empty first pool, no empty step, no nameless conda, task names of single-unit characters and no `$` in the environment name or cron, the backend writes the front end's `dag.py`, and both sanitise every task name alike |
| GeneratorPy.SingleNodeFlow | airflow_dag_generator/core/generator.py:194-196 | a single-task step is a scalar node between `start` and `end` |
| GeneratorPy.EmptyStageBackendFlow | airflow_dag_generator/core/generator.py:197-200 | an empty step is the node `[]` in the backend and is not skipped |
| GeneratorPy.EmptyStageFrontEndFlow | src/utils/generator.ts:157 | the front ends skip the same empty step, leaving `start >> end` |
| Models.DefaultTask | airflow_dag_generator/core/models.py:9-18 | a task given only id and name has the declared defaults and is valid |
| Models.DefaultConfig | airflow_dag_generator/core/models.py:27-59 | a configuration given only its required fields takes every declared default, with `pools` empty |
| Models.ViolationsEmpty | airflow_dag_generator/core/models.py:15-30 | no violation is reported exactly when priority, slots 1..5, type, non-empty steps and pipeline, and name and code lengths all hold |
| Models.LowerCode | airflow_dag_generator/core/models.py:61-64 | the code robin is lower-cased and cut to at most four characters |
| Models.SafeName | airflow_dag_generator/core/models.py:66-69 | the project name has spaces replaced by `_` and is lower-cased; the length is kept |
| Models.Validate | airflow_dag_generator/core/models.py:27-69 | a rejection lists at least one violation; an acceptance normalises name and code and changes nothing else |
| Models.ValidateAccepts | airflow_dag_generator/core/models.py:27-69 | accepted exactly when the constraints hold, and the output meets them and is normalised |
| Models.LowerCodeIdempotent | airflow_dag_generator/core/models.py:61-64 | the code robin validator is idempotent |
| Models.SafeNameIdempotent | airflow_dag_generator/core/models.py:66-69 | the project name validator is idempotent |
| Models.ValidateIdempotent | airflow_dag_generator/core/models.py:27-69 | validating an accepted configuration again accepts it unchanged |
| Models.CodeTruncationNeverCuts | airflow_dag_generator/core/models.py:30 | the length limit is checked before the code is lowered, so the cut to four characters never removes anything |
| Models.DefaultConfigAccepted | airflow_dag_generator/core/models.py:27-59 | a configuration of defaults is accepted once its required fields are valid |
| JsNumber.Number | components/EnvironmentBuilder.tsx:58 | `Number` of whitespace or the empty string is 0 |
| JsNumber.LeadingDigits | components/EnvironmentBuilder.tsx:62 | the leading digit run is a prefix of digits, stopped by a non-digit |
| JsNumber.ParseInt | components/EnvironmentBuilder.tsx:62 | `parseInt` is `NaN` exactly when no digit follows the optional sign |
| JsNumber.NumberOfToString | components/EnvironmentBuilder.tsx:95 | `Number(String(x)) == x` for every integer and for `NaN` |
| JsNumber.ParseIntOfToString | components/EnvironmentBuilder.tsx:99 | `parseInt(String(x)) == x` for every integer and for `NaN` |
| JsNumber.ParseIntStopsAtNonDigit | components/EnvironmentBuilder.tsx:62 | `parseInt("15th")` is 15 while `Number("15th")` is `NaN` |
| EnvironmentSchedule.Pad2 | components/EnvironmentBuilder.tsx:59 | `padStart(2, '0')` pads to two UTF-16 code units, so one character outside the Basic Multilingual Plane is not padded, and keeps a string that already has two |
| EnvironmentSchedule.Pad2Bmp | components/EnvironmentBuilder.tsx:59 | on single-unit characters the padding depends only on the length: `00`, a leading `0`, or the text itself |
| EnvironmentSchedule.FieldsSplit | components/EnvironmentBuilder.tsx:44 | five space-free fields joined by spaces split back into those fields |
| EnvironmentSchedule.DecodeMalformed | components/EnvironmentBuilder.tsx:40-48 | an empty cron, or one without exactly five fields, only switches to manual |
| EnvironmentSchedule.DecodeStarsIsHourly | components/EnvironmentBuilder.tsx:52-55 | with day of month, month and weekday all `*` the decoding is hourly and keeps neither minute nor hour |
| EnvironmentSchedule.DecodeMonthly | components/EnvironmentBuilder.tsx:60-63 | a day of the month with month and weekday `*` decodes as monthly with that day and the padded time |
| EnvironmentSchedule.DecodeYearly | components/EnvironmentBuilder.tsx:64-68 | a day of the month and a month with weekday `*` decode as yearly |
| EnvironmentSchedule.DecodeManualKeeps | components/EnvironmentBuilder.tsx:40-48 | the decoding leaves the frequency manual only when it changes nothing else |
| EnvironmentSchedule.DecodeIntendedDaily | components/EnvironmentBuilder.tsx:69-71 | under the intended decoding, a concrete hour with the other fields `*` is daily at the padded time |
| EnvironmentSchedule.DecodingsDiffer | components/EnvironmentBuilder.tsx:52-55 | the as-written and intended decodings differ only on five-field crons `m h * * *` with `h` not `*` |
| EnvironmentSchedule.EncodeCron | components/EnvironmentBuilder.tsx:75-104 | the encoding is empty exactly for manual |
| EnvironmentSchedule.TimeParts | components/EnvironmentBuilder.tsx:81-83 | an `HH:MM` time splits into its hour and minute, which are used as they are |
| EnvironmentSchedule.EncodeWeeklyExample | components/EnvironmentBuilder.tsx:94-96 | weekly at 09:00 on days 1 and 5 gives `00 09 * * 1,5` |
| EnvironmentSchedule.DaysFieldParts | components/EnvironmentBuilder.tsx:95 | a non-empty day list joined by commas reads back as the same numbers |
| EnvironmentSchedule.WeeklyRoundTrip | components/EnvironmentBuilder.tsx:56-59 | a weekly schedule with days decodes back with the same days and time |
| EnvironmentSchedule.MonthlyRoundTrip | components/EnvironmentBuilder.tsx:60-63 | a monthly schedule decodes back with the same day of month and time |
| EnvironmentSchedule.YearlyRoundTrip | components/EnvironmentBuilder.tsx:64-68 | a yearly schedule decodes back with the same day, month and time |
| EnvironmentSchedule.DailyComesBackHourly | components/EnvironmentBuilder.tsx:52-55 | a daily schedule, and a weekly one without days, decode back as hourly, with the time of the state decoded into |
| EnvironmentSchedule.HourlyLosesMinute | components/EnvironmentBuilder.tsx:52-53 | an hourly schedule decodes back as hourly, but its minute is not read back |
| EnvironmentSchedule.ManualRoundTrip | components/EnvironmentBuilder.tsx:40-43 | manual encodes to `''`, which decodes back to manual |
| EnvironmentSchedule.DailyRoundTripIntended | components/EnvironmentBuilder.tsx:69-72 | under the intended decoding a daily schedule decodes back as daily, at its time |
| EnvironmentSchedule.DailyCronOpenedAsHourly | components/EnvironmentBuilder.tsx:52-55 | `30 9 * * *` opens as hourly and is then stored as `00 * * * *`; the intended decoding keeps it daily at 09:30 |
| EnvironmentSchedule.ToggleSpec | components/EnvironmentBuilder.tsx:109-112 | the toggled day flips between present and absent, the other days stay, and a list without repeats stays without repeats |
| EnvironmentSchedule.ToggleTwice | components/EnvironmentBuilder.tsx:109-112 | toggling an absent day twice gives the list back |
| EnvironmentSchedule.ComputeCron | components/EnvironmentBuilder.tsx:81-104 | the effect's split, padding and frequency switch compute exactly the encoding of the state |
| EnvironmentSchedule.EnvironmentBuilder.Mount | components/EnvironmentBuilder.tsx:38-107 | on mount the state is the decoding of the stored cron; the first encoding clears a non-empty cron, then the re-render writes the state's encoding when the state changed |
| EnvironmentSchedule.EnvironmentBuilder.EncodeEffect | components/EnvironmentBuilder.tsx:75-107 | the effect writes the state's encoding only when it differs from the stored cron, so an in-sync editor writes nothing |
| EnvironmentSchedule.EnvironmentBuilder.Update | components/EnvironmentBuilder.tsx:107 | a state change re-runs the encoding and leaves the editor in sync; no change writes nothing |
| EnvironmentSchedule.EnvironmentBuilder.SelectFrequency | components/EnvironmentBuilder.tsx:165 | a frequency button sets the frequency and re-encodes when it changed |
| EnvironmentSchedule.EnvironmentBuilder.SetTime | components/EnvironmentBuilder.tsx:195 | the time input sets the time and re-encodes when it changed |
| EnvironmentSchedule.EnvironmentBuilder.ToggleDay | components/EnvironmentBuilder.tsx:211 | a weekday button toggles the day and re-encodes |
| EnvironmentSchedule.EnvironmentBuilder.SelectMonthDay | components/EnvironmentBuilder.tsx:236 | a day-of-month button sets day `i + 1` and re-encodes when it changed; clicking the selected day writes nothing |
| EnvironmentSchedule.EnvironmentBuilder.SelectMonth | components/EnvironmentBuilder.tsx:260 | a month button sets month `i + 1` and re-encodes when it changed; clicking the selected month writes nothing |
| LegacySchedule.CronOf | components/ScheduleBuilder.tsx:30-43 | the cron is empty exactly for the manual and custom frequencies |
| LegacySchedule.Emitted | components/ScheduleBuilder.tsx:24-48 | manual always passes `''`; custom passes nothing; otherwise the cron is passed exactly when it differs from the value |
| LegacySchedule.EncodersAgree | components/ScheduleBuilder.tsx:33-39 | for an `HH:MM` time this editor and the environment editor give the same hourly, daily and weekly crons |
| LegacySchedule.MissingMinute | components/ScheduleBuilder.tsx:30-34 | without `:` this editor writes `undefined` as the minute, where the environment editor writes `00` |
| LegacySchedule.StringSortSpec | components/ScheduleBuilder.tsx:52 | `sort()` on numbers returns a permutation of its input in text order |
| LegacySchedule.StringSortSorted | components/ScheduleBuilder.tsx:52 | sorting a list already in text order changes nothing |
| Text.Without | components/ScheduleBuilder.tsx:51 | filtering out a value keeps exactly the others, as both schedule editors' day toggles do (also components/EnvironmentBuilder.tsx:110) |
| Text.Utf16Length | src/App.tsx:341 | a string's JavaScript length is at least its number of characters, with equality exactly when every character is one code unit |
| Text.Substitution | src/utils/generator.ts:177-188 | a replacement text without `$` is inserted as it is |
| Text.SubstituteMatch | utils/generator.ts:192-203 | a `$&` between `$`-free text is replaced by the matched text |
| LegacySchedule.WithoutSorted | components/ScheduleBuilder.tsx:51 | filtering keeps a list in strict text order |
| LegacySchedule.ToggleSpec | components/ScheduleBuilder.tsx:50-53 | the day flips between present and absent, the other days stay, and the list stays in strict text order without repeats |
| LegacySchedule.DigitKeys | components/ScheduleBuilder.tsx:55-63 | for the weekday values 0..6 text order is numeric order |
| LegacySchedule.WeekdaysAscending | components/ScheduleBuilder.tsx:55-63 | a weekday list kept by the toggle is in strictly ascending numeric order |
| LegacySchedule.ScheduleBuilder.Mount | components/ScheduleBuilder.tsx:11-28 | the editor starts manual and, whatever the value, passes `''` on mount |
| LegacySchedule.ScheduleBuilder.EncodeEffect | components/ScheduleBuilder.tsx:24-48 | after the effect the value is `''` for manual, unchanged for custom, and the cron otherwise |
| LegacySchedule.ScheduleBuilder.SelectFrequency | components/ScheduleBuilder.tsx:69-72 | one of the four buttons (no button offers Custom) sets the frequency, and re-runs the effect only when the frequency changed |
| LegacySchedule.ScheduleBuilder.SetTime | components/ScheduleBuilder.tsx:93 | the time input re-runs the effect only when the time changed |
| LegacySchedule.ScheduleBuilder.ToggleDay | components/ScheduleBuilder.tsx:108 | a weekday button toggles the day, keeps the list sorted and re-runs the effect |
| CronKeywords.Classify | src/services/geminiService.ts:8-18 | the result is one of the eight rule outputs or `""` |
| CronKeywords.TrimKeeps | src/services/geminiService.ts:5 | a keyword without surrounding whitespace occurs in the trimmed text exactly when it occurs in the text |
| CronKeywords.TrimIrrelevant | src/services/geminiService.ts:5 | trimming changes no result; only the lower-casing matters |
| CronKeywords.CaseInsensitive | src/services/geminiService.ts:5 | upper-casing the description changes nothing |
| CronKeywords.MidnightFirst | src/services/geminiService.ts:8 | any text containing "midnight" gives `0 0 * * *`, whatever else it contains |
| CronKeywords.MondayBeforeWeek | src/services/geminiService.ts:12-14 | "every monday" is tested before "week" |
| CronKeywords.NoKeywordEmpty | src/services/geminiService.ts:18 | without any keyword the result is `""` |
| CronKeywords.FiveFields | src/services/geminiService.ts:8-15 | every non-empty result has exactly five space-separated fields, each `*` or a decimal number |
| CronKeywords.DailyAtNineOpensAsHourly | src/services/geminiService.ts:9 | "daily at 9" gives `0 9 * * *`, which the environment editor opens as hourly |
| CronKeywords.EveryMondayOpensAsWeekly | src/services/geminiService.ts:12 | "every monday" gives a cron the environment editor opens as weekly on Monday at 09:00 |
| TaskBuilder.UsedSlotsAppend | src/components/TaskBuilder.tsx:111 | the slot usage of a concatenation is the sum of the usages |
| TaskBuilder.OneSlotEach | src/components/TaskBuilder.tsx:111 | with one slot per task the usage is the task count |
| TaskBuilder.DefaultLimitOneSlotEach | src/components/TaskBuilder.tsx:15 | under the default limit of 5, one-slot tasks are over the limit only from the sixth; five is not over |
| TaskBuilder.UsedSlotsBounds | src/components/TaskBuilder.tsx:111-112 | tasks of 1..5 slots use between one and five slots each |
| TaskBuilder.Values | src/components/TaskBuilder.tsx:7 | the contents of a pipeline of step objects, step by step |
| TaskBuilder.ResizedSpec | src/components/TaskBuilder.tsx:19-40 | growing keeps every step and adds one task per new step named `task_step_<n>`; shrinking keeps the first `val` steps |
| TaskBuilder.StepObjects | src/components/TaskBuilder.tsx:23-35 | one fresh step object per new step value, holding exactly that value, in order |
| TaskBuilder.Grown | src/components/TaskBuilder.tsx:36 | `[...pipeline, ...newSteps]` keeps the old step objects as the prefix and adds fresh ones whose contents are the new steps |
| TaskBuilder.SliderChange | src/components/TaskBuilder.tsx:19-40 | a larger value appends fresh steps, a smaller one keeps the first steps, and the same value passes nothing on |
| TaskBuilder.WithTaskAddedSpec | src/components/TaskBuilder.tsx:42-55 | one task more, named `parallel_task_<n+1>`, at the end of the chosen step only; the add control never takes a step past five tasks |
| TaskBuilder.AddTaskToStep | src/components/TaskBuilder.tsx:42-55 | the step object's task list gets the new task at its end, which the input pipeline sees too; the same step objects are passed on |
| TaskBuilder.SpliceOut | src/components/TaskBuilder.tsx:60 | `splice(k, 1)` removes one task, or none past the end |
| TaskBuilder.WithTaskRemovedSpec | src/components/TaskBuilder.tsx:57-62 | exactly one task is removed and no other step is touched; the only step of a one-step pipeline is never emptied, but a step of a longer pipeline can be |
| TaskBuilder.RemoveTask | src/components/TaskBuilder.tsx:57-62 | a one-step, one-task pipeline is left as it is and nothing is passed on; otherwise the task is spliced out in place |
| TaskBuilder.MoveKeepsTasks | src/components/TaskBuilder.tsx:77-78 | a move keeps the same tasks and the same count |
| TaskBuilder.MovedSpec | src/components/TaskBuilder.tsx:77-78 | the dragged task ends last in the target step, after the target's other tasks in their old order, also when it is dropped on its own step; the source loses exactly it; every other step is unchanged |
| TaskBuilder.DeepCopy | src/components/TaskBuilder.tsx:75 | the copy holds fresh step objects with the same contents |
| TaskBuilder.OnDrop | src/components/TaskBuilder.tsx:69-82 | without a drag nothing happens; otherwise the move is made on fresh objects, leaving the input pipeline untouched |
| TaskBuilder.MovedCopy | src/components/TaskBuilder.tsx:75-78 | the deep copy with the move made on it holds the moved pipeline, on fresh step objects |
| TaskBuilder.MoveInPlace | src/components/TaskBuilder.tsx:77-78 | the splice and push on distinct step objects produce the specified move |
| InteractiveTerminal.Prompts | components/DeploymentManager.tsx:27-28 | the prompt lines of a list, in order |
| InteractiveTerminal.PrintedNoPrompt | components/DeploymentManager.tsx:35-42 | no canned output line looks like a prompt |
| InteractiveTerminal.TranscriptPrompts | components/DeploymentManager.tsx:25-45 | the transcript's prompt lines are exactly `$ cmd` for each command, in command order |
| InteractiveTerminal.CheckoutPrinted | components/DeploymentManager.tsx:38 | the checkout output is one line |
| InteractiveTerminal.Terminal.RunSequence | components/DeploymentManager.tsx:21-50 | a run leaves the transcript of the commands and completes, once |
| Deployment.ModesDiffer | components/DeploymentManager.tsx:102-109 | the two modes never agree on branch, tag or commit message |
| Deployment.PushCommandsShape | components/DeploymentManager.tsx:195-209 | both push lists start with `cd`; the create list inserts `git init` and `git remote add origin` (7 commands against 5) |
| Deployment.OnePhaseAtATime | components/DeploymentManager.tsx:215-305 | each event moves at most one phase: forward exactly on an enabled confirm, back exactly on a shown back button |
| Deployment.OnlyTerminalCompletes | components/DeploymentManager.tsx:210 | only the terminal's completion sets the flag |
| Deployment.ConfirmClears | components/DeploymentManager.tsx:215-272 | leaving push or validation forward clears the flag; leaving tagging keeps it |
| Deployment.SuccessNeedsTwoRuns | components/DeploymentManager.tsx:210-216 | success needs at least two finished terminal runs |
| Deployment.BackFromDeployKeepsTagging | components/DeploymentManager.tsx:272-304 | after Back from deployment, the tagging confirm is already enabled |
| Deployment.ShortestSuccess | components/DeploymentManager.tsx:98-305 | the shortest successful run of events reaches success |
| Deployment.StaleCompletion | components/DeploymentManager.tsx:247-270 | a completion earned while tagging survives two Back clicks, so the push confirm is enabled on return |
| Deployment.BackUndoesConfirm | components/DeploymentManager.tsx:247-304 | Back undoes a confirm in every phase that has both buttons |
| Deployment.TimelineFollowsPhase | components/DeploymentManager.tsx:142-148 | the bar is 25% per phase; indicator k is completed exactly past phase k and active exactly at it |
| Deployment.DeploymentManager.constructor | components/DeploymentManager.tsx:98-99 | starts in the push phase with the flag cleared |
| Deployment.DeploymentManager.ConfirmClicked | components/DeploymentManager.tsx:213-305 | the forward button follows the phase machine; a new terminal phase gets a fresh terminal |
| Deployment.DeploymentManager.BackClicked | components/DeploymentManager.tsx:247-304 | the back button follows the phase machine |
| Deployment.DeploymentManager.RunTerminal | components/DeploymentManager.tsx:194-266 | running the phase's terminal leaves the transcript of the phase's commands and sets the flag |
| Sections.SectionComplete | src/App.tsx:130-133 | the section joins the completed set, nothing else joins or leaves it, and the next section opens |
| Sections.ToggleSection | src/App.tsx:135-137 | the section opens exactly when it was not the open one, otherwise none is open; the completed set is kept |
| Sections.ReadyIffAll | src/App.tsx:166 | ready exactly when all five sections are completed; completing never makes a ready flow unready |
| Sections.WalkThrough | App.tsx:143-146 | following the continue buttons in page order completes every section and leaves none open |
| Sections.ToggleTwice | App.tsx:148-150 | toggling the open section, or a closed flow, twice restores it |
| Sections.LoadedNeedsPipeline | src/App.tsx:121 | the four sections a loaded project is marked with leave only the pipeline section to complete |
| Sections.ReplaceTask | src/App.tsx:139-145 | exactly task `t` of step `s` is replaced; every other task and step is kept |
| Sections.ReplaceTaskCounts | App.tsx:152-158 | the save keeps the task count and swaps exactly one task in the multiset of all tasks |
| Sections.ReplaceTaskAdmissible | src/App.tsx:139-145 | saving a valid task keeps a configuration admissible |
| Sections.WriteTask | src/App.tsx:143 | the array write `tasks[t] = task`: task `t` becomes the new task, the step grows by one exactly when `t` is one past its end, and every other task and step is kept |
| Sections.WriteTaskPastEnd | App.tsx:156 | a write one past the end of a step adds one task, and the tasks gained are exactly the written one |
| StudioApp.InitialConfigAccepted | src/App.tsx:25-49 | the starting configuration passes the backend's validation unchanged |
| StudioApp.Studio.constructor | src/App.tsx:52-67 | home view, picker closed, identity open, nothing completed, the starting configuration |
| StudioApp.Studio.StartNewProject | src/App.tsx:74-80 | the configuration and guided flow are reset, and the picker opens for the project location |
| StudioApp.Studio.OpenFilePicker | src/App.tsx:82-85 | the picker opens in input or output mode |
| StudioApp.Studio.OpenDeployment | src/App.tsx:87-90 | the picker opens for project selection |
| StudioApp.Studio.OpenModifier | src/App.tsx:92-95 | the picker opens for DAG modification |
| StudioApp.Studio.FileSelected | src/App.tsx:97-128 | a new location sets `lddata` and the pool `<path>_std_pool`; input and output set their folders; a selection opens the cockpit; a successful load replaces the configuration, marks four sections complete and opens the pipeline; a failed load changes nothing |
| StudioApp.Studio.SectionCompleted | src/App.tsx:130-133 | the guide follows `SectionComplete` and nothing else changes |
| StudioApp.Studio.SectionToggled | src/App.tsx:135-137 | the guide follows `ToggleSection` and nothing else changes |
| StudioApp.Studio.ProceedToDeployment | src/App.tsx:147-157 | the cockpit opens only when the button is enabled and the save succeeds; a failed save leaves the view |
| StudioApp.Studio.EditTask | src/App.tsx:409 | the task's indices become the edited task |
| StudioApp.Studio.SaveTask | src/App.tsx:139-145 | without an edited task nothing changes; a step index that no longer exists makes the save throw and change nothing; otherwise the task index is written, replacing that task or, one past the step's end, appending it |
| StudioApp.Studio.SaveAndClose | components/TaskEditorPopover.tsx:109-112 | the popover's save button saves and then closes the editor, except when the save throws, which leaves the editor open and the configuration unchanged |
| StudioApp.Studio.PipelineChanged | src/App.tsx:408 | the builder's new pipeline replaces the old one and an open editor keeps its indices |
| StudioApp.Studio.CloseEditor | src/App.tsx:208 | the edited task is cleared |
| StudioApp.Studio.GoHome | src/App.tsx:307 | the view returns home and nothing else changes |
| StudioApp.Studio.RobinCodeInput | src/App.tsx:341 | the code robin is lower-cased and cut to four characters, except in the modifier view where the field is disabled |
| StudioApp.Studio.DeploymentMode | src/App.tsx:519 | the cockpit's mode is update exactly when the picker was opened for DAG modification |
| StudioApp.RobinInputAccepted | src/App.tsx:341 | a non-empty code typed into the field has one to four characters and is one the backend keeps as it is |
| StudioApp.StaleEditorSaves | src/App.tsx:139-145 | with the editor left open on the only task: once the builder empties the step, saving puts the task back; once the builder removes the step, saving throws and the editor stays open |
| StudioApp.SharedInitialStep | src/App.tsx:74-75 | as written, a task added to the first project's step is still there when the next project starts |
| StudioApp.FreshInitialSteps | src/App.tsx:25-46 | with step objects of its own, every new project starts from the initial pipeline |
| LegacyApp.InitialConfig | App.tsx:41-63 | the older start: data location `eidp_p630`, pool type `eidp_p630_std_pool`, the first allowed silot, one valid one-task step |
| LegacyApp.MockCodeIsLowerCode | App.tsx:118 | cutting to four characters before lower-casing gives the backend's normalisation, which lower-cases first |
| LegacyApp.MockPipelineShape | App.tsx:119-130 | the mock pipeline has four tasks in three valid steps, none over the default slot limit |
| LegacyApp.MockLoadAccepted | App.tsx:113-131 | the mock load of a non-empty folder name is accepted by the backend, which keeps its code |
| LegacyApp.LegacyStudio.constructor | App.tsx:21-63 | home view, picker closed, identity open, nothing completed, the older starting configuration |
| LegacyApp.LegacyStudio.NewProject | App.tsx:256 | straight to the generator, keeping the configuration and progress |
| LegacyApp.LegacyStudio.OpenFilePicker | App.tsx:71-74 | the picker opens in input or output mode |
| LegacyApp.LegacyStudio.OpenDeployment | App.tsx:76-79 | the picker opens for project selection |
| LegacyApp.LegacyStudio.OpenModifier | App.tsx:81-84 | the picker opens for DAG modification |
| LegacyApp.LegacyStudio.FileSelected | App.tsx:86-141 | input and output set their folders; selection sets the name and opens the cockpit; modification applies the mock load, opens the modifier on the pipeline section and keeps the completed set |
| LegacyApp.LegacyStudio.SectionCompleted | App.tsx:143-146 | the guide follows `SectionComplete` |
| LegacyApp.LegacyStudio.SectionToggled | App.tsx:148-150 | the guide follows `ToggleSection` |
| LegacyApp.LegacyStudio.EditTask | App.tsx:454 | the task's indices become the edited task |
| LegacyApp.LegacyStudio.CloseEditor | App.tsx:210 | the edited task is cleared |
| LegacyApp.LegacyStudio.SaveTask | App.tsx:152-158 | as in the current front end: a missing step throws and changes nothing; otherwise the task index is replaced or, one past the end, appended |
| LegacyApp.LegacyStudio.PipelineChanged | App.tsx:453 | the builder's new pipeline replaces the old one and an open editor keeps its indices |
| LegacyApp.LegacyStudio.RobinCodeInput | App.tsx:389 | lower-cased and cut to four characters, except in the modifier view |
| LegacyApp.LegacyStudio.Deploy | App.tsx:503 | the cockpit opens with no gate on the completed sections |
| LegacyApp.LegacyStudio.GoHome | App.tsx:355 | the view returns home |
| LegacyApp.LegacyStudio.DeploymentMode | App.tsx:570 | update exactly when the picker was opened for DAG modification |
| LegacyApp.ModifyThenDeploy | App.tsx:107-139 | a modification from a fresh start reaches the cockpit in update mode with no section completed |
| JupyterExplorer.Dirs | src/components/FileExplorer.tsx:36-42 | the listing keeps only directories |
| JupyterExplorer.DirsMembers | src/components/FileExplorer.tsx:36-42 | an item is shown exactly when it is in the listing and is a directory |
| JupyterExplorer.DirsAppend | src/components/FileExplorer.tsx:36-42 | the filter keeps listing order |
| JupyterExplorer.DirsIdempotent | src/components/FileExplorer.tsx:37 | filtering twice equals filtering once |
| JupyterExplorer.NavPath | src/components/FileExplorer.tsx:58-62 | entering a folder appends `/name`, or gives `name` alone at the root |
| JupyterExplorer.SelectedAfterNavigate | src/components/FileExplorer.tsx:156-159 | after entering a folder whose name has no `/`, the selection is that folder |
| JupyterExplorer.UpAfterNavigate | src/components/FileExplorer.tsx:64-69 | going up after entering a `/`-free folder returns to the previous path, except entering the start folder from the root |
| JupyterExplorer.UpShortens | src/components/FileExplorer.tsx:115 | `..` is shown exactly where going up changes the path, and going up shortens it |
| JupyterExplorer.UpToStart | src/components/FileExplorer.tsx:65 | from a direct child of the start folder, one Up reaches the start folder, where `..` is hidden |
| JupyterExplorer.Explorer.constructor | src/components/FileExplorer.tsx:17-20 | the picker starts at `workspaces` with an empty listing |
| JupyterExplorer.Explorer.Navigate | src/components/FileExplorer.tsx:58-62 | the path becomes `NavPath` of the old path |
| JupyterExplorer.Explorer.Up | src/components/FileExplorer.tsx:64-69 | the path becomes `UpPath` of the old path |
| JupyterExplorer.Explorer.Fetch | src/components/FileExplorer.tsx:23-56 | no server changes nothing; a failure keeps the listing and sets the error; a directory answer lists its directories; any other answer lists nothing |
| JupyterExplorer.NavigateThenSelect | src/components/FileExplorer.tsx:58-62 | entering a folder from the start and selecting hands back its name |
| MockExplorer.Lookup | components/FileExplorer.tsx:45 | a name is found with its sub-folder exactly when it is listed |
| MockExplorer.CurrentContents | components/FileExplorer.tsx:40-50 | the walk returns the folder the path leads to, or an empty folder at the first missing name |
| MockExplorer.WalkSnoc | components/FileExplorer.tsx:40-50 | following one more name from where a path leads |
| MockExplorer.NavigateListed | components/FileExplorer.tsx:52-54 | entering a listed folder keeps the path in the tree and lists that folder's sub-folders |
| MockExplorer.ReachablePrefix | components/FileExplorer.tsx:56-58 | every prefix of a path in the tree is in the tree |
| MockExplorer.ReachableDepth | components/FileExplorer.tsx:11-34 | the tree is two folders deep |
| MockExplorer.DefaultIsListed | components/FileExplorer.tsx:129 | the root's default selection `marketing` is a listed folder |
| MockExplorer.Picker.constructor | components/FileExplorer.tsx:37 | the path stack starts empty |
| MockExplorer.Picker.Navigate | components/FileExplorer.tsx:52-54 | the folder is pushed onto the path |
| MockExplorer.Picker.Up | components/FileExplorer.tsx:56-58 | the last folder is dropped; at the root nothing changes |
| MockExplorer.NavigateThenUp | components/FileExplorer.tsx:52-58 | from any path, Up after Navigate restores the path, and in between the selection is the folder entered |
| MockExplorer.LabelNamesValue | components/FileExplorer.tsx:126-129 | the footer label is what the select button hands back exactly when a folder is entered; at the root it reads `Root` while the button hands back `marketing`, which is listed at the root |

## Left out

- Rendering, layout, styling and the components that only render are not modelled: `Accordion`, `InputField`, `IOBuilder`, `PoolSelector`, `TaskEditorModal`, `TaskEditorPopover` (apart from its save button, `StudioApp.Studio.SaveAndClose`) and `GraphPreview`. Their floating-point geometry, zoom and vCPU display are left out with them.
- Network and foreign calls are left out: the Google GenAI client in `services/geminiService.ts`, `CronGenerator.tsx`, the Jupyter `ServerConnection` in `src/services/api.ts`, the Tornado handlers and the plugin registration. Where a handler awaits a server answer, that answer is a parameter (`loaded`, `saved`, `service`, `reply`).
- Filesystem and YAML I/O are left out: `airflow_dag_generator/core/manager.py` and `downloadProjectZip` (JSZip/file-saver).
- Timers and randomness are left out. The older front end's 1.5 s `setTimeout` validation is one synchronous step whose outcome is always success, as written. The terminal's random delays are not modelled, and neither is clicking Back while a terminal run is still in progress.
- Fresh ids are left out. The ids the slider and the add control draw from `Date.now()`/`Math.random()` are parameters.
- General regular expressions are not modelled. Sanitisation is modelled character by character. The two `dag.py` rewrites substitute the template's own configuration line, which is where the first match lies unless a conda environment name itself contains `schedule_interval =`; that case is not modelled.
- `GeneratorTs.GenerateDagFile` inserts the conda environment name and the cron as written. The source's string `replace` expands `$$`, `$&`, `` $` `` and `$'` in them (`Text.Substitution`), so the model agrees with it only when neither holds a `$` (`Compile.EnvRewriteVerbatim`, `Compile.ScheduleRewriteVerbatim`, and `Compile.EnvRewriteRepeatsMatch` for a counterexample). A `` $` `` or `$'` would also copy part of the file into the environment line, ahead of the schedule line the next rewrite looks for; that is not modelled.
- `GeneratorTs.DagConfigurationLines`: the same limit on `$` in the environment name and the cron.
- `GeneratorLegacy.GenerateLegacyDagFile`: the same limit on `$`, for the older front end's rewrites.
- `Compile.Sanitize` is the sanitisation of every generator in the model, which is the backend's `re.sub` over characters. The front ends' pattern has no `u` flag and works on UTF-16 code units, so a character outside the Basic Multilingual Plane becomes two underscores there (`Compile.JsSanitize`, `Compile.SanitizeAstralExample`). The front ends' texts in the model are theirs only for task names of single-unit characters (`Compile.JsSanitizeOnBmp`).
- `StudioApp.Studio.RobinCodeInput` keeps four characters. `slice(0, 4)` keeps four UTF-16 code units and can cut a surrogate pair in half, which a Dafny string cannot hold, so the model agrees with the source only on single-unit characters.
- `StudioApp.RobinInputAccepted`: the same limit, as it is about that field.
- `LegacyApp.LegacyStudio.RobinCodeInput`: the same limit for `slice(0, 4)` in the older front end.
- `LegacyApp.MockCodeIsLowerCode` and `LegacyApp.MockCode`: `substring(0, 4)` counts code units too, with the same limit.
- Case mapping covers ASCII letters only. `toLowerCase`/`toUpperCase` and Python `lower`/`upper` of other Unicode characters are not modelled.
- `CronKeywords.CaseInsensitive` holds under the ASCII case mapping only. In JavaScript a dotless `ı` upper-cases to `I`, so `mıdnight` finds no keyword while its upper-cased form `MIDNIGHT` lower-cases to `midnight` and does.
- `Models.CodeTruncationNeverCuts` holds under the ASCII case mapping only. Python's `lower` can turn one character into two (`İ`), so a lowered code can grow past the length check and be cut by the truncation.
- `TaskBuilder.OnDrop` takes the dragged item as a parameter, so the `setDraggedItem(null)` that clears it after a drop (src/components/TaskBuilder.tsx:81) is not modelled.
- `Number`, `parseInt` and `String` are modelled for decimal integer numerals only. Hexadecimal, exponents, fractions, `Infinity` and precision limits are not modelled.
- `StudioApp.Studio.SaveTask`, `StudioApp.Studio.SaveAndClose` and `LegacyApp.LegacyStudio.SaveTask` require the edited task index to be at most one past the end of its step. When the builder removes several tasks under an open editor, the source's write leaves a hole in the array, which a sequence cannot hold.
- `handleSaveTask` and the builder's add and remove controls edit step objects that the previous configuration, and in the current front end the initial configuration, also hold. The step objects and their sharing are modelled in `TaskBuilder`; the two applications hold their configuration as a value, so the sharing is not captured there.
- `StudioApp.Studio.StartNewProject` resets to a pristine initial configuration. The source reinstates the one initial configuration object, whose step earlier projects may have edited in place (see Findings).
- `LegacyApp.InitialConfig`: the older front end's `ALLOWED_SILOTS` constant is not part of this model, so its first entry is a parameter.
- The older front end's configuration literal has no `use_input`, `use_output` or `pools` fields. They are modelled as off and empty.
- The older picker looks names up with JavaScript property access, so an inherited key such as `constructor` would also be found. Only listed folders can be clicked, so `MockExplorer.Lookup` covers only own keys.
- `JupyterExplorer.Explorer.Fetch` models the listing effect as an explicit call after each path change, with the answer for that path. The effect in src/components/FileExplorer.tsx:23-56 has no guard against stale answers, so a late answer for an earlier path overwrites a newer listing; that interleaving is not modelled.
- The cockpit's tag and commit outputs are canned text. The terminal prints them the same way in both modes, which the model keeps.
- The pool selector's name templating and the silot lists by stage (`SILOTS_LIL`, `SILOTS_SXB`) are not modelled; they only feed form fields.
- `JsNumber.ToString`: only integers and `NaN` are rendered.

## Findings

| source | as written | input that shows it | evidently intended | confidence | as-written member | corrected member |
|---|---|---|---|---|---|---|
| components/EnvironmentBuilder.tsx:52-55 | the second "hourly" branch repeats the first test (`dom`, `mon`, `dow` all `*`), so the hour is never checked and every `m h * * *` opens as hourly | the cron `30 9 * * *` (daily at 09:30) opens as hourly, and the encoding effect then stores `00 * * * *` | hourly only when the hour is `*` too, so that `m h * * *` falls through to the daily branch and keeps its time | not executed | EnvironmentSchedule.DailyCronOpenedAsHourly | EnvironmentSchedule.DailyRoundTripIntended |
| src/App.tsx:74-75 | "Create New Pipeline" calls `setConfig(INITIAL_CONFIG)` with the module constant itself, whose step object the builder's add and remove controls and the task editor's save change in place | start a project, press "+" on its first step, go home and start another project: its first step already holds two tasks | each new project starts from a fresh copy of the initial configuration | not executed | StudioApp.SharedInitialStep | StudioApp.FreshInitialSteps |
