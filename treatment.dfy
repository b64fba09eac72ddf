/** The `treatment.py` module as the front ends write it: the distinct import
    lines of all tasks, then one function per task holding its indented code. */
module Treatment {
  import opened Text
  import opened Config
  import opened Compile

  // ---------------------------------------------------------------------------
  // Imports
  // ---------------------------------------------------------------------------

  /** The trimmed, non-blank lines of `text`, in order. */
  function ImportLinesOf(text: string, isSpace: char -> bool): (r: seq<string>)
    ensures forall k :: 0 <= k < |r| ==> r[k] != ""
  {
    NonBlank(Split(text, '\n'), isSpace)
  }

  function NonBlank(lines: seq<string>, isSpace: char -> bool): (r: seq<string>)
    ensures forall k :: 0 <= k < |r| ==> r[k] != ""
    decreases |lines|
  {
    if |lines| == 0 then []
    else
      var t := Trim(lines[|lines| - 1], isSpace);
      NonBlank(lines[..|lines| - 1], isSpace) + (if t != "" then [t] else [])
  }

  /** The import lines of several tasks, task after task. */
  function Candidates(tasks: seq<Task>, isSpace: char -> bool): (r: seq<string>)
    ensures forall k :: 0 <= k < |r| ==> r[k] != ""
    decreases |tasks|
  {
    if |tasks| == 0 then []
    else Candidates(tasks[..|tasks| - 1], isSpace) + ImportLinesOf(tasks[|tasks| - 1].imports, isSpace)
  }

  /** An empty import field contributes nothing, so testing it first changes nothing. */
  lemma EmptyImportsContributeNothing(isSpace: char -> bool)
    ensures ImportLinesOf("", isSpace) == []
  {
    assert Split("", '\n') == [""];
    assert Trim("", isSpace) == "";
  }

  /** One more line of an import field: its stripped form joins the candidates
      unless it is blank. */
  lemma NonBlankStep(lines: seq<string>, k: nat, isSpace: char -> bool)
    requires k < |lines|
    ensures NonBlank(lines[..k + 1], isSpace) == NonBlank(lines[..k], isSpace)
      + (if Trim(lines[k], isSpace) != "" then [Trim(lines[k], isSpace)] else [])
  {
    assert lines[..k + 1][..k] == lines[..k] && lines[..k + 1][k] == lines[k];
  }

  /** One more task: its import lines join the candidates, and an empty import
      field adds nothing. */
  lemma CandidatesStep(tasks: seq<Task>, j: nat, isSpace: char -> bool)
    requires j < |tasks|
    ensures Candidates(tasks[..j + 1], isSpace) == Candidates(tasks[..j], isSpace) + ImportLinesOf(tasks[j].imports, isSpace)
    ensures tasks[j].imports == "" ==> Candidates(tasks[..j + 1], isSpace) == Candidates(tasks[..j], isSpace)
  {
    assert tasks[..j + 1][..j] == tasks[..j];
    if tasks[j].imports == "" {
      EmptyImportsContributeNothing(isSpace);
      AppendEmpty(Candidates(tasks[..j], isSpace));
    }
  }

  /** Insertion into a JavaScript `Set`: a value already present is ignored, a new
      one goes to the end. */
  function SetAdd(xs: seq<string>, x: string): seq<string> {
    if x in xs then xs else xs + [x]
  }

  /** The distinct values of `xs`, in order of first appearance. */
  function Dedup(xs: seq<string>): seq<string>
    decreases |xs|
  {
    if |xs| == 0 then [] else SetAdd(Dedup(xs[..|xs| - 1]), xs[|xs| - 1])
  }

  predicate NoDuplicates(xs: seq<string>) {
    forall i, j :: 0 <= i < j < |xs| ==> xs[i] != xs[j]
  }

  /** The position of the first occurrence of `x` in `xs`. */
  function FirstIndex(xs: seq<string>, x: string): (k: nat)
    requires x in xs
    ensures k < |xs| && xs[k] == x
    ensures forall j :: 0 <= j < k ==> xs[j] != x
  {
    if xs[0] == x then 0 else 1 + FirstIndex(xs[1..], x)
  }

  /** Each import line is kept exactly once, and nothing else is kept. */
  lemma {:induction false} DedupElements(xs: seq<string>)
    ensures NoDuplicates(Dedup(xs))
    ensures forall x :: x in Dedup(xs) <==> x in xs
    decreases |xs|
  {
    if |xs| > 0 {
      DedupElements(xs[..|xs| - 1]);
      assert xs == xs[..|xs| - 1] + [xs[|xs| - 1]];
    }
  }

  /** The kept lines come in the order of their first appearance in `xs`. */
  lemma {:induction false} DedupFirstAppearanceOrder(xs: seq<string>, i: nat, j: nat)
    requires i < j < |Dedup(xs)|
    ensures Dedup(xs)[i] in xs && Dedup(xs)[j] in xs
    ensures FirstIndex(xs, Dedup(xs)[i]) < FirstIndex(xs, Dedup(xs)[j])
    decreases |xs|
  {
    DedupElements(xs);
    var init, last := xs[..|xs| - 1], xs[|xs| - 1];
    assert xs == init + [last];
    var d, di := Dedup(xs), Dedup(init);
    DedupElements(init);
    if last in di {
      assert d == di;
      DedupFirstAppearanceOrder(init, i, j);
      PrefixFirstIndex(init, last, d[i]);
      PrefixFirstIndex(init, last, d[j]);
    } else if j < |di| {
      assert d == di + [last];
      assert d[i] == di[i] && d[j] == di[j];
      DedupFirstAppearanceOrder(init, i, j);
      PrefixFirstIndex(init, last, d[i]);
      PrefixFirstIndex(init, last, d[j]);
    } else {
      // d[j] is the new value `last`, seen for the first time at the end of xs
      assert d == di + [last];
      assert d[i] == di[i] && d[j] == last && last !in init;
      PrefixFirstIndex(init, last, d[i]);
      FirstIndexAtEnd(init, last);
    }
  }

  lemma PrefixFirstIndex(init: seq<string>, last: string, x: string)
    requires x in init
    ensures x in init + [last]
    ensures FirstIndex(init + [last], x) == FirstIndex(init, x)
  {
    var k := FirstIndex(init, x);
    var k' := FirstIndex(init + [last], x);
    assert (init + [last])[k] == x;
  }

  lemma FirstIndexAtEnd(init: seq<string>, last: string)
    requires last !in init
    ensures FirstIndex(init + [last], last) == |init|
  {
    var k := FirstIndex(init + [last], last);
  }

  /** The import block: the lines joined by newlines plus a blank line, or nothing
      when there is no import at all. */
  function ImportBlock(imports: seq<string>): (r: string)
    ensures r == "" <==> imports == []
  {
    if |imports| == 0 then "" else Join(imports, "\n") + "\n\n"
  }

  // ---------------------------------------------------------------------------
  // Function bodies
  // ---------------------------------------------------------------------------

  function IndentLine(line: string): string {
    if line == "" then "" else "    " + line
  }

  function IndentLines(lines: seq<string>): (r: seq<string>)
    ensures |r| == |lines|
    ensures forall k :: 0 <= k < |lines| ==> r[k] == IndentLine(lines[k])
  {
    seq(|lines|, k requires 0 <= k < |lines| => IndentLine(lines[k]))
  }

  /** Every code line indented by four spaces, blank lines left blank. */
  function IndentedCode(code: string): string {
    Join(IndentLines(Split(code, '\n')), "\n")
  }

  /** The body of a task's function: its indented code, or `pass` when that is empty. */
  function FunctionBody(code: string): string {
    var indented := IndentedCode(code);
    if indented == "" then "    pass" else indented
  }

  lemma {:induction false} JoinEmpty(parts: seq<string>, sep: string)
    requires |parts| >= 1 && |sep| > 0
    ensures Join(parts, sep) == "" <==> parts == [""]
    decreases |parts|
  {
    if |parts| > 1 {
      assert |Join(parts, sep)| >= |sep|;
    }
  }

  /** The indented code is empty exactly for the empty code, so only `''` falls back
      to `pass`. */
  lemma IndentedCodeEmpty(code: string)
    ensures IndentedCode(code) == "" <==> code == ""
  {
    var parts := Split(code, '\n');
    JoinEmpty(IndentLines(parts), "\n");
    JoinSplit(code, '\n');
    if IndentLines(parts) == [""] {
      assert IndentLine(parts[0]) == "";
      assert parts == [""];
    }
  }

  function DedentLine(line: string): string {
    if StartsWith(line, "    ") then line[4..] else line
  }

  /** Removes four leading spaces from every line that has them. */
  function Dedent(text: string): string {
    var lines := Split(text, '\n');
    Join(seq(|lines|, k requires 0 <= k < |lines| => DedentLine(lines[k])), "\n")
  }

  /** Dedenting a non-`pass` body gives the task's code back. */
  lemma DedentBody(code: string)
    requires code != ""
    ensures Dedent(FunctionBody(code)) == code
  {
    IndentedCodeEmpty(code);
    var parts := Split(code, '\n');
    var ind := IndentLines(parts);
    forall k | 0 <= k < |ind| ensures '\n' !in ind[k] {
      assert '\n' !in parts[k];
      if parts[k] != "" {
        assert ind[k] == "    " + parts[k];
      }
    }
    SplitJoin(ind, '\n');
    assert "\n" == ['\n'];
    var lines := Split(IndentedCode(code), '\n');
    assert lines == ind;
    var back := seq(|lines|, k requires 0 <= k < |lines| => DedentLine(lines[k]));
    forall k | 0 <= k < |lines| ensures back[k] == parts[k] {
      if parts[k] != "" {
        assert lines[k] == "    " + parts[k];
        assert lines[k][..4] == "    ";
        assert lines[k][4..] == parts[k];
      }
    }
    assert back == parts;
    JoinSplit(code, '\n');
  }

  /** The function of one task: its sanitised name, its body, two newlines. */
  function DefBlock(t: Task): string {
    "def " + Sanitize(t.name) + "(**context):\n" + FunctionBody(t.code) + "\n\n"
  }

  function DefBlocks(tasks: seq<Task>): (r: seq<string>)
    ensures |r| == |tasks|
    ensures forall k :: 0 <= k < |tasks| ==> r[k] == DefBlock(tasks[k])
  {
    seq(|tasks|, k requires 0 <= k < |tasks| => DefBlock(tasks[k]))
  }

  /** `treatment.py` as written by both front ends. */
  function TreatmentText(pipeline: seq<PipelineStep>): string {
    var tasks := AllTasks(pipeline);
    ImportBlock(Dedup(Candidates(tasks, IsJsSpace))) + Concat(DefBlocks(tasks))
  }

  /** Successive insertions into a JavaScript `Set`. */
  function AddAll(seen: seq<string>, ys: seq<string>): seq<string>
    decreases |ys|
  {
    if |ys| == 0 then seen else SetAdd(AddAll(seen, ys[..|ys| - 1]), ys[|ys| - 1])
  }

  lemma {:induction false} AddAllAppend(seen: seq<string>, a: seq<string>, b: seq<string>)
    ensures AddAll(seen, a + b) == AddAll(AddAll(seen, a), b)
    decreases |b|
  {
    if |b| == 0 {
      assert a + b == a;
    } else {
      assert (a + b)[..|a + b| - 1] == a + b[..|b| - 1];
      AddAllAppend(seen, a, b[..|b| - 1]);
    }
  }

  lemma {:induction false} CandidatesAppend(a: seq<Task>, b: seq<Task>, isSpace: char -> bool)
    ensures Candidates(a + b, isSpace) == Candidates(a, isSpace) + Candidates(b, isSpace)
    decreases |b|
  {
    if |b| == 0 {
      assert a + b == a;
    } else {
      var n := |b| - 1;
      assert (a + b)[..|a + b| - 1] == a + b[..n];
      CandidatesAppend(a, b[..n], isSpace);
      AppendAssoc(Candidates(a, isSpace), Candidates(b[..n], isSpace), ImportLinesOf(b[n].imports, isSpace));
    }
  }

  /** Inserting more lines into the set of `xs` gives the set of `xs + ys`. */
  lemma {:induction false} DedupAppend(xs: seq<string>, ys: seq<string>)
    ensures Dedup(xs + ys) == AddAll(Dedup(xs), ys)
    decreases |ys|
  {
    if |ys| == 0 {
      assert xs + ys == xs;
    } else {
      assert (xs + ys)[..|xs + ys| - 1] == xs + ys[..|ys| - 1];
      DedupAppend(xs, ys[..|ys| - 1]);
    }
  }

  /** Adds the trimmed non-blank lines of one task's import field to the set of
      lines seen so far. */
  method AddImportLines(seen: seq<string>, text: string) returns (r: seq<string>)
    ensures r == AddAll(seen, ImportLinesOf(text, IsJsSpace))
  {
    var lines := Split(text, '\n');
    r := seen;
    var k := 0;
    while k < |lines|
      invariant 0 <= k <= |lines|
      invariant r == AddAll(seen, NonBlank(lines[..k], IsJsSpace))
    {
      var trimmed := Trim(lines[k], IsJsSpace);
      NonBlankStep(lines, k, IsJsSpace);
      if trimmed != "" {
        var before := NonBlank(lines[..k], IsJsSpace);
        assert (before + [trimmed])[..|before|] == before;
        r := SetAdd(r, trimmed);
      } else {
        AppendEmpty(NonBlank(lines[..k], IsJsSpace));
      }
      k := k + 1;
    }
    assert lines[..|lines|] == lines;
  }

  /** Writes the function of one task: the `def` line, the indented code or `pass`,
      and two newlines. */
  method AppendFunction(content: string, task: Task) returns (r: string)
    ensures r == content + DefBlock(task)
  {
    var funcName := Sanitize(task.name);
    r := content + "def " + funcName + "(**context):\n";
    var indentedCode := Join(IndentLines(Split(task.code, '\n')), "\n");
    r := r + (if indentedCode != "" then indentedCode else "    pass");
    r := r + "\n\n";
  }

  lemma DefBlocksAppend(a: seq<Task>, b: seq<Task>)
    ensures Concat(DefBlocks(a + b)) == Concat(DefBlocks(a)) + Concat(DefBlocks(b))
  {
    var l, r := DefBlocks(a + b), DefBlocks(a) + DefBlocks(b);
    forall k | 0 <= k < |a + b| ensures l[k] == r[k] {
      if k < |a| {
        assert (a + b)[k] == a[k] && r[k] == DefBlocks(a)[k];
      } else {
        assert (a + b)[k] == b[k - |a|] && r[k] == DefBlocks(b)[k - |a|];
      }
    }
    assert l == r;
    ConcatAppend(DefBlocks(a), DefBlocks(b));
  }

  lemma DefBlocksSnoc(tasks: seq<Task>, j: nat)
    requires j < |tasks|
    ensures Concat(DefBlocks(tasks[..j + 1])) == Concat(DefBlocks(tasks[..j])) + DefBlock(tasks[j])
  {
    assert tasks[..j + 1] == tasks[..j] + [tasks[j]];
    DefBlocksAppend(tasks[..j], [tasks[j]]);
    assert DefBlocks([tasks[j]]) == [DefBlock(tasks[j])];
    ConcatSingle(DefBlock(tasks[j]));
  }

  lemma DefBlocksStep(pipeline: seq<PipelineStep>, i: nat)
    requires i < |pipeline|
    ensures Concat(DefBlocks(AllTasks(pipeline[..i + 1])))
         == Concat(DefBlocks(AllTasks(pipeline[..i]))) + Concat(DefBlocks(pipeline[i].tasks))
  {
    AllTasksStep(pipeline, i);
    DefBlocksAppend(AllTasks(pipeline[..i]), pipeline[i].tasks);
  }

  /** Writes the functions of one step's tasks. */
  method AppendStepFunctions(content: string, tasks: seq<Task>) returns (r: string)
    ensures r == content + Concat(DefBlocks(tasks))
  {
    r := content;
    var j := 0;
    while j < |tasks|
      invariant 0 <= j <= |tasks|
      invariant r == content + Concat(DefBlocks(tasks[..j]))
    {
      DefBlocksSnoc(tasks, j);
      AppendAssoc(content, Concat(DefBlocks(tasks[..j])), DefBlock(tasks[j]));
      r := AppendFunction(r, tasks[j]);
      j := j + 1;
    }
    assert tasks[..j] == tasks;
  }

  /** Writes one function per task, step after step. */
  method AppendFunctions(content: string, pipeline: seq<PipelineStep>) returns (r: string)
    ensures r == content + Concat(DefBlocks(AllTasks(pipeline)))
  {
    r := content;
    var i := 0;
    while i < |pipeline|
      invariant 0 <= i <= |pipeline|
      invariant r == content + Concat(DefBlocks(AllTasks(pipeline[..i])))
    {
      DefBlocksStep(pipeline, i);
      AppendAssoc(content, Concat(DefBlocks(AllTasks(pipeline[..i]))), Concat(DefBlocks(pipeline[i].tasks)));
      r := AppendStepFunctions(r, pipeline[i].tasks);
      i := i + 1;
    }
    assert pipeline[..i] == pipeline;
  }

  /** Every function starts with the `def` line of the task's sanitised name. */
  lemma DefBlockStartsWithName(t: Task)
    ensures StartsWith(DefBlock(t), "def " + Sanitize(t.name) + "(**context):\n")
  {
    var p := "def " + Sanitize(t.name) + "(**context):\n";
    assert DefBlock(t) == p + (FunctionBody(t.code) + "\n\n");
    PrefixOfConcat(p, FunctionBody(t.code) + "\n\n");
  }
}
