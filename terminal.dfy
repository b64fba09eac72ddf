/** The simulated terminal of the deployment cockpit: it types each command
    after a `$ ` prompt and follows it with a canned output chosen by the first
    git keyword the command contains. */
module InteractiveTerminal {
  import opened Text

  // ---------------------------------------------------------------------------
  // The terminal's canned output
  // ---------------------------------------------------------------------------

  // The canned texts, one constant per line. The two longest are written as
  // two literals joined, which is the same text.
  const Enumerating := "Enumerating objects: 15, done."
  const Writing := "Writing objects: 100% (15/15), " + "2.45 KiB | 2.45 MiB/s, done."
  const Total := "Total 15 (delta 2), reused 0 (delta 0)"
  const Remote := "To github.com:org/repo.git"
  const FixHead := "[fix/update 7b1c2d] fix: update dag logic"
  const FixStat := " 2 files changed, 20 insertions(+)"
  const FeatHead := "[feature/init 8a2b3c] feat: init dag"
  const FeatStat := " 4 files changed, 125 insertions(+)"
  const TagLine := "Created tag v1.1.0"
  const InitLine := "Initialized empty Git repository" + " in /home/jovyan/workspaces/.git/"

  const PushLines: seq<string> := [Enumerating, Writing, Total, Remote]
  const FixCommitLines: seq<string> := [FixHead, FixStat]
  const FeatCommitLines: seq<string> := [FeatHead, FeatStat]

  function CheckoutLine(cmd: string): string {
    "Switched to branch '" + LastSegment(cmd, ' ') + "'"
  }

  /** The fake output of one command: the first matching rule wins. */
  function Output(cmd: string): string {
    if Contains(cmd, "git push") then Join(PushLines, "\n")
    else if Contains(cmd, "git commit") then
      (if Contains(cmd, "fix:") then Join(FixCommitLines, "\n") else Join(FeatCommitLines, "\n"))
    else if Contains(cmd, "git tag") then TagLine
    else if Contains(cmd, "git checkout") then CheckoutLine(cmd)
    else if Contains(cmd, "git init") then InitLine
    else ""
  }

  /** The lines the output adds to the terminal. */
  function Printed(cmd: string): seq<string> {
    var out := Output(cmd);
    if out != "" then Split(out, '\n') else []
  }

  /** A line the terminal shows as a prompt. */
  predicate IsPrompt(line: string) {
    StartsWith(line, "$")
  }

  /** What the terminal holds after running `cmds`: each command's prompt line
      followed by the lines of its output. */
  function Transcript(cmds: seq<string>): seq<string>
    decreases |cmds|
  {
    if |cmds| == 0 then []
    else
      var cmd := cmds[|cmds| - 1];
      Transcript(cmds[..|cmds| - 1]) + ["$ " + cmd] + Printed(cmd)
  }

  /** The prompt lines of a list, in order. */
  function Prompts(lines: seq<string>): (r: seq<string>)
    ensures forall k :: 0 <= k < |r| ==> IsPrompt(r[k])
    decreases |lines|
  {
    if |lines| == 0 then []
    else
      var last := lines[|lines| - 1];
      Prompts(lines[..|lines| - 1]) + (if IsPrompt(last) then [last] else [])
  }

  lemma {:induction false} PromptsAppend(a: seq<string>, b: seq<string>)
    ensures Prompts(a + b) == Prompts(a) + Prompts(b)
    decreases |b|
  {
    if |b| == 0 {
      assert a + b == a;
    } else {
      var last := b[|b| - 1];
      assert (a + b)[..|a + b| - 1] == a + b[..|b| - 1];
      PromptsAppend(a, b[..|b| - 1]);
      var x := if IsPrompt(last) then [last] else [];
      assert Prompts(a + b) == Prompts(a) + Prompts(b[..|b| - 1]) + x;
    }
  }

  lemma {:induction false} PromptsNone(lines: seq<string>)
    requires forall k :: 0 <= k < |lines| ==> !IsPrompt(lines[k])
    ensures Prompts(lines) == []
    decreases |lines|
  {
    if |lines| > 0 {
      PromptsNone(lines[..|lines| - 1]);
    }
  }

  /** A text free of line breaks. */
  predicate OneLine(s: string) {
    '\n' !in s
  }

  /** An output line: one line that does not look like a prompt. */
  predicate Plain(s: string) {
    OneLine(s) && !IsPrompt(s)
  }

  lemma LinesSplit(lines: seq<string>)
    requires |lines| >= 1
    requires forall k :: 0 <= k < |lines| ==> OneLine(lines[k])
    ensures Split(Join(lines, "\n"), '\n') == lines
  {
    SplitJoin(lines, '\n');
  }

  /** A line whose first character is not `$` is not a prompt. */
  lemma FirstNotDollar(s: string)
    requires |s| > 0 && s[0] != '$'
    ensures !IsPrompt(s)
  {
    assert s[..1] == [s[0]];
  }

  lemma EnumeratingPlain() ensures Plain(Enumerating) { FirstNotDollar(Enumerating); }
  lemma WritingPlain() ensures Plain(Writing) { FirstNotDollar(Writing); }
  lemma TotalPlain() ensures Plain(Total) { FirstNotDollar(Total); }
  lemma RemotePlain() ensures Plain(Remote) { FirstNotDollar(Remote); }
  lemma FixHeadPlain() ensures Plain(FixHead) { FirstNotDollar(FixHead); }
  lemma FixStatPlain() ensures Plain(FixStat) { FirstNotDollar(FixStat); }
  lemma FeatHeadPlain() ensures Plain(FeatHead) { FirstNotDollar(FeatHead); }
  lemma FeatStatPlain() ensures Plain(FeatStat) { FirstNotDollar(FeatStat); }
  lemma TagPlain() ensures Plain(TagLine) { FirstNotDollar(TagLine); }
  lemma InitPlain() ensures Plain(InitLine) { FirstNotDollar(InitLine); }

  lemma PushPlain()
    ensures forall k :: 0 <= k < |PushLines| ==> Plain(PushLines[k])
  {
    EnumeratingPlain();
    WritingPlain();
    TotalPlain();
    RemotePlain();
  }

  lemma CommitPlain()
    ensures forall k :: 0 <= k < |FixCommitLines| ==> Plain(FixCommitLines[k])
    ensures forall k :: 0 <= k < |FeatCommitLines| ==> Plain(FeatCommitLines[k])
  {
    FixHeadPlain();
    FixStatPlain();
    FeatHeadPlain();
    FeatStatPlain();
  }

  lemma PushPrinted()
    ensures Split(Join(PushLines, "\n"), '\n') == PushLines
  {
    PushPlain();
    LinesSplit(PushLines);
  }

  lemma CommitPrinted()
    ensures Split(Join(FixCommitLines, "\n"), '\n') == FixCommitLines
    ensures Split(Join(FeatCommitLines, "\n"), '\n') == FeatCommitLines
  {
    CommitPlain();
    LinesSplit(FixCommitLines);
    LinesSplit(FeatCommitLines);
  }

  lemma InitPrinted()
    ensures Split(InitLine, '\n') == [InitLine]
  {
    InitPlain();
    SplitNoSep(InitLine, '\n');
  }

  lemma CheckoutPrinted(cmd: string)
    requires '\n' !in cmd
    ensures Split(CheckoutLine(cmd), '\n') == [CheckoutLine(cmd)]
  {
    var parts := Split(cmd, ' ');
    SplitChars(cmd, ' ', '\n');
    var last := parts[|parts| - 1];
    assert '\n' !in last;
    assert '\n' !in "Switched to branch '" && '\n' !in "'";
    assert '\n' !in "Switched to branch '" + last + "'";
    SplitNoSep(CheckoutLine(cmd), '\n');
  }

  /** No line of `lines` looks like a prompt. */
  predicate NoPromptIn(lines: seq<string>) {
    forall k :: 0 <= k < |lines| ==> !IsPrompt(lines[k])
  }

  lemma PushNoPrompt()
    ensures NoPromptIn(Split(Join(PushLines, "\n"), '\n'))
  {
    PushPrinted();
    PushPlain();
  }

  lemma CommitNoPrompt()
    ensures NoPromptIn(Split(Join(FixCommitLines, "\n"), '\n'))
    ensures NoPromptIn(Split(Join(FeatCommitLines, "\n"), '\n'))
  {
    CommitPrinted();
    CommitPlain();
  }

  lemma OneLineNoPrompt(line: string)
    requires Plain(line)
    ensures NoPromptIn(Split(line, '\n'))
  {
    SplitNoSep(line, '\n');
  }

  lemma CheckoutNoPrompt(cmd: string)
    requires '\n' !in cmd
    ensures NoPromptIn(Split(CheckoutLine(cmd), '\n'))
  {
    CheckoutPrinted(cmd);
    FirstNotDollar(CheckoutLine(cmd));
  }

  /** No output line looks like a prompt, as long as the command is one line. */
  lemma PrintedNoPrompt(cmd: string)
    requires '\n' !in cmd
    ensures forall k :: 0 <= k < |Printed(cmd)| ==> !IsPrompt(Printed(cmd)[k])
  {
    if Contains(cmd, "git push") {
      PushNoPrompt();
    } else if Contains(cmd, "git commit") {
      CommitNoPrompt();
    } else if Contains(cmd, "git tag") {
      TagPlain();
      OneLineNoPrompt(TagLine);
    } else if Contains(cmd, "git checkout") {
      CheckoutNoPrompt(cmd);
    } else if Contains(cmd, "git init") {
      InitPlain();
      OneLineNoPrompt(InitLine);
    }
    assert NoPromptIn(Printed(cmd));
  }

  /** One command adds its own prompt line and no other. */
  lemma PromptsOfCommand(before: seq<string>, cmd: string)
    requires '\n' !in cmd
    ensures Prompts(before + ["$ " + cmd] + Printed(cmd)) == Prompts(before) + ["$ " + cmd]
  {
    PromptsAppend(before + ["$ " + cmd], Printed(cmd));
    PromptsAppend(before, ["$ " + cmd]);
    assert Prompts(["$ " + cmd]) == ["$ " + cmd] by {
      assert IsPrompt("$ " + cmd);
    }
    PrintedNoPrompt(cmd);
    PromptsNone(Printed(cmd));
  }

  lemma PromptLinesSnoc(cmds: seq<string>)
    requires |cmds| > 0
    ensures seq(|cmds|, i requires 0 <= i < |cmds| => "$ " + cmds[i])
         == seq(|cmds| - 1, i requires 0 <= i < |cmds| - 1 => "$ " + cmds[..|cmds| - 1][i]) + ["$ " + cmds[|cmds| - 1]]
  {
  }

  /** The prompt lines of the transcript are exactly `$ cmd` for each command,
      in command order. */
  lemma {:induction false} TranscriptPrompts(cmds: seq<string>)
    requires forall i :: 0 <= i < |cmds| ==> '\n' !in cmds[i]
    ensures Prompts(Transcript(cmds)) == seq(|cmds|, i requires 0 <= i < |cmds| => "$ " + cmds[i])
    decreases |cmds|
  {
    if |cmds| > 0 {
      var init := cmds[..|cmds| - 1];
      var cmd := cmds[|cmds| - 1];
      TranscriptPrompts(init);
      PromptsOfCommand(Transcript(init), cmd);
      PromptLinesSnoc(cmds);
    }
  }

  /** The simulated terminal of the push and tagging phases. */
  class Terminal {
    var lines: seq<string>
    var running: bool
    var completed: bool

    constructor ()
      ensures lines == [] && !running && !completed
    {
      lines := [];
      running := false;
      completed := false;
    }

    /** "Run Sequence": types each command and its output, then reports
        completion. The button is shown only before the first run. */
    method RunSequence(commands: seq<string>)
      requires !running && !completed
      modifies this
      ensures lines == Transcript(commands)
      ensures !running && completed
    {
      running := true;
      lines := [];
      var i := 0;
      while i < |commands|
        invariant 0 <= i <= |commands|
        invariant lines == Transcript(commands[..i])
      {
        var cmd := commands[i];
        assert commands[..i + 1][..i] == commands[..i];
        lines := lines + ["$ " + cmd];
        var output := Output(cmd);
        if output != "" {
          lines := lines + Split(output, '\n');
        }
        i := i + 1;
      }
      assert commands[..|commands|] == commands;
      running := false;
      completed := true;
    }
  }

}
