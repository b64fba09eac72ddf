/** The current front-end compiler: `meta.yaml`, `treatment.py` and `dag.py`
    produced from one project configuration. */
module GeneratorTs {
  import opened Text
  import opened Config
  import opened Compile
  import opened Treatment

  // ---------------------------------------------------------------------------
  // meta.yaml
  // ---------------------------------------------------------------------------

  const WorkspaceRoot: string := "/home/jovyan/workspaces/"

  /** A path kept as is when it starts with '/', otherwise placed under the
      workspace root. */
  function AbsolutePath(p: string): (r: string)
    ensures StartsWith(r, "/")
    ensures StartsWith(p, "/") ==> r == p
  {
    if StartsWith(p, "/") then p else WorkspaceRoot + p
  }

  /** Making a path absolute twice changes nothing. */
  lemma AbsolutePathIdempotent(p: string)
    ensures AbsolutePath(AbsolutePath(p)) == AbsolutePath(p)
  {
  }

  /** The `  - <pool>` item lines of the pools block. */
  function PoolItems(pools: seq<string>): (r: seq<string>)
    ensures |r| == |pools|
    ensures forall k :: 0 <= k < |pools| ==> r[k] == "  - " + pools[k]
  {
    seq(|pools|, k requires 0 <= k < |pools| => "  - " + pools[k])
  }

  /** The four identity lines every version starts with. */
  function IdentityLines(c: ProjectConfig): seq<string> {
    ["folder: " + c.nomprojet + "/r_" + c.coderobin + "_" + c.nomprojet,
     "stage: " + StageName(c.stage),
     "ld_data: " + Upper(c.lddata),
     "persoid: " + c.persoid]
  }

  function LineIf(gate: bool, line: string): seq<string> {
    if gate then [line] else []
  }

  /** An optional `key: value` line and the gate it is written under. */
  datatype Entry = Entry(gate: bool, key: string, value: string)

  function EntryLine(e: Entry): seq<string> {
    LineIf(e.gate, e.key + ": " + e.value)
  }

  function EntryLines(es: seq<Entry>): seq<string>
    decreases |es|
  {
    if |es| == 0 then [] else EntryLines(es[..|es| - 1]) + EntryLine(es[|es| - 1])
  }

  lemma EntryLinesStep(es: seq<Entry>, k: nat)
    requires k < |es|
    ensures EntryLines(es[..k + 1]) == EntryLines(es[..k]) + EntryLine(es[k])
  {
    assert es[..k + 1][..k] == es[..k];
  }

  /** The optional lines that follow the pools, in order, each with its gate. */
  function GatedEntries(c: ProjectConfig): seq<Entry> {
    [Entry(c.useVertica && c.silot != "", "silot", c.silot),
     Entry(c.useConda && c.condaenv != "", "env_name", c.condaenv),
     Entry(c.useInput && c.datalabIn != "", "input_folder", AbsolutePath(c.datalabIn)),
     Entry(c.useOutput && c.datalabOut != "", "output_folder", AbsolutePath(c.datalabOut)),
     Entry(c.useNas, "NAS", "true"),
     Entry(c.useGpu, "GPU", "true")]
  }

  function PoolBlock(pools: seq<string>): seq<string> {
    if |pools| > 0 then ["pools:"] + PoolItems(pools) else []
  }

  /** The lines of `meta.yaml`, in the order they are written. */
  function MetaLines(c: ProjectConfig): seq<string> {
    IdentityLines(c) + PoolBlock(c.pools) + EntryLines(GatedEntries(c))
  }

  /** Builds the lines in a list, pushing the pools one by one, then joins them
      with newlines and ends the file with a newline. */
  method GenerateMetaYaml(c: ProjectConfig) returns (out: string)
    ensures out == Join(MetaLines(c), "\n") + "\n"
  {
    var lines := IdentityLines(c);
    lines := PushPools(lines, c.pools);
    lines := PushGatedLines(lines, c);
    GatedLinesAreEntries(c);
    out := Join(lines, "\n") + "\n";
  }

  /** Pushes the `pools:` header and one item per pool, when there are pools. */
  method PushPools(lines: seq<string>, pools: seq<string>) returns (r: seq<string>)
    ensures r == lines + PoolBlock(pools)
  {
    r := lines;
    if |pools| > 0 {
      r := r + ["pools:"];
      var k := 0;
      while k < |pools|
        invariant 0 <= k <= |pools|
        invariant r == lines + ["pools:"] + PoolItems(pools[..k])
      {
        PoolItemsStep(lines + ["pools:"], pools, k);
        r := r + ["  - " + pools[k]];
        k := k + 1;
      }
      assert pools[..k] == pools;
    } else {
      assert r == lines + [];
    }
  }

  lemma PoolItemsStep(head: seq<string>, pools: seq<string>, k: nat)
    requires k < |pools|
    ensures head + PoolItems(pools[..k]) + ["  - " + pools[k]] == head + PoolItems(pools[..k + 1])
  {
    var a, b := PoolItems(pools[..k]), PoolItems(pools[..k + 1]);
    assert b == a + ["  - " + pools[k]];
    AppendAssoc(head, a, ["  - " + pools[k]]);
  }

  /** `if (gate) lines.push(line)` */
  method PushIf(lines: seq<string>, gate: bool, line: string) returns (r: seq<string>)
    ensures r == lines + LineIf(gate, line)
  {
    r := lines;
    if gate {
      r := r + [line];
    } else {
      assert r == lines + [];
    }
  }

  /** Pushes each optional line whose toggle is on and whose value is set. */
  method PushGatedLines(lines: seq<string>, c: ProjectConfig) returns (r: seq<string>)
    ensures r == lines + GatedLines(c, 6)
  {
    assert lines == lines + GatedLines(c, 0);
    r := PushPair(lines, lines, c, 0);
    r := PushPair(r, lines, c, 2);
    r := PushPair(r, lines, c, 4);
  }

  /** Pushes the optional lines `k` and `k + 1` onto `r0`, which holds the
      lines before them. */
  method PushPair(r0: seq<string>, ghost lines: seq<string>, c: ProjectConfig, k: nat) returns (r: seq<string>)
    requires k == 0 || k == 2 || k == 4
    requires r0 == lines + GatedLines(c, k)
    ensures r == lines + GatedLines(c, k + 2)
  {
    r := r0;
    if k == 0 {
      r := PushIf(r, c.useVertica && c.silot != "", "silot: " + c.silot);
      GatedStep(lines, c, 0);
      r := PushIf(r, c.useConda && c.condaenv != "", "env_name: " + c.condaenv);
      GatedStep(lines, c, 1);
    } else if k == 2 {
      r := PushIf(r, c.useInput && c.datalabIn != "", "input_folder: " + AbsolutePath(c.datalabIn));
      GatedStep(lines, c, 2);
      r := PushIf(r, c.useOutput && c.datalabOut != "", "output_folder: " + AbsolutePath(c.datalabOut));
      GatedStep(lines, c, 3);
    } else {
      r := PushIf(r, c.useNas, "NAS: true");
      GatedStep(lines, c, 4);
      r := PushIf(r, c.useGpu, "GPU: true");
      GatedStep(lines, c, 5);
    }
  }

  lemma GatedStep(lines: seq<string>, c: ProjectConfig, k: nat)
    requires k < 6
    ensures lines + GatedLines(c, k) + GatedLine(c, k) == lines + GatedLines(c, k + 1)
  {
    AppendAssoc(lines, GatedLines(c, k), GatedLine(c, k));
  }

  // --- reading the file back --------------------------------------------------

  /** The value of the first `key: value` line, as a YAML reader would find it. */
  function Lookup(lines: seq<string>, key: string): Option<string>
    decreases |lines|
  {
    if |lines| == 0 then None
    else if StartsWith(lines[0], key + ": ") then Some(lines[0][|key| + 2..])
    else Lookup(lines[1..], key)
  }

  lemma {:induction false} LookupAppend(a: seq<string>, b: seq<string>, key: string)
    ensures Lookup(a + b, key) == if Lookup(a, key).Some? then Lookup(a, key) else Lookup(b, key)
    decreases |a|
  {
    if |a| > 0 {
      assert (a + b)[0] == a[0] && (a + b)[1..] == a[1..] + b;
      LookupAppend(a[1..], b, key);
    } else {
      assert a + b == b;
    }
  }

  lemma LookupSingle(line: string, key: string, value: string)
    requires line == key + ": " + value
    ensures Lookup([line], key) == Some(value)
  {
    assert line[..|key + ": "|] == key + ": ";
    assert line[|key| + 2..] == value;
  }

  lemma LookupMiss(lines: seq<string>, key: string, k: nat)
    requires k < |key|
    requires forall i :: 0 <= i < |lines| ==> |lines[i]| > k && lines[i][k] != key[k]
    ensures Lookup(lines, key) == None
    decreases |lines|
  {
    if |lines| > 0 {
      assert (key + ": ")[k] == key[k];
      LookupMiss(lines[1..], key, k);
    }
  }

  lemma LookupMissAll(lines: seq<string>, key: string)
    requires forall i :: 0 <= i < |lines| ==> |lines[i]| >= 1 && lines[i][0] == ' '
    requires |key| > 0 && key[0] != ' '
    ensures Lookup(lines, key) == None
  {
    LookupMiss(lines, key, 0);
  }

  /** The lines written for the optional entry `k`. */
  function GatedLine(c: ProjectConfig, k: nat): seq<string>
    requires k < 6
  {
    if k == 0 then LineIf(c.useVertica && c.silot != "", "silot: " + c.silot)
    else if k == 1 then LineIf(c.useConda && c.condaenv != "", "env_name: " + c.condaenv)
    else if k == 2 then LineIf(c.useInput && c.datalabIn != "", "input_folder: " + AbsolutePath(c.datalabIn))
    else if k == 3 then LineIf(c.useOutput && c.datalabOut != "", "output_folder: " + AbsolutePath(c.datalabOut))
    else if k == 4 then LineIf(c.useNas, "NAS: true")
    else LineIf(c.useGpu, "GPU: true")
  }

  lemma GatedEntryLine(c: ProjectConfig, k: nat)
    requires k < 6
    ensures EntryLine(GatedEntries(c)[k]) == GatedLine(c, k)
  {
    if k == 0 {
      assert "silot" + ": " == "silot: ";
    } else if k == 1 {
      assert "env_name" + ": " == "env_name: ";
    } else if k == 2 {
      assert "input_folder" + ": " == "input_folder: ";
    } else if k == 3 {
      assert "output_folder" + ": " == "output_folder: ";
    } else if k == 4 {
      assert "NAS" + ": " + "true" == "NAS: true";
    } else {
      assert "GPU" + ": " + "true" == "GPU: true";
    }
  }

  /** The first `k` optional lines, in the order they are written. */
  function GatedLines(c: ProjectConfig, k: nat): seq<string>
    requires k <= 6
  {
    if k == 0 then [] else GatedLines(c, k - 1) + GatedLine(c, k - 1)
  }

  /** The optional lines are the entry lines of the gated entries. */
  lemma GatedLinesAreEntries(c: ProjectConfig)
    ensures GatedLines(c, 6) == EntryLines(GatedEntries(c))
  {
    var es := GatedEntries(c);
    forall k | 0 <= k <= 6 ensures GatedLines(c, k) == EntryLines(es[..k]) {
      GatedPrefix(c, k);
    }
    assert es[..6] == es;
  }

  lemma {:induction false} GatedPrefix(c: ProjectConfig, k: nat)
    requires k <= 6
    ensures GatedLines(c, k) == EntryLines(GatedEntries(c)[..k])
  {
    if k > 0 {
      GatedPrefix(c, k - 1);
      EntryLinesStep(GatedEntries(c), k - 1);
      GatedEntryLine(c, k - 1);
    }
  }

  /** Reading the written identity lines back gives the configured values, with the
      data location upper-cased, whatever lines follow them. */
  lemma ReadIdentityPrefix(c: ProjectConfig, rest: seq<string>)
    ensures Lookup(IdentityLines(c) + rest, "folder") == Some(c.nomprojet + "/r_" + c.coderobin + "_" + c.nomprojet)
    ensures Lookup(IdentityLines(c) + rest, "stage") == Some(StageName(c.stage))
    ensures Lookup(IdentityLines(c) + rest, "ld_data") == Some(Upper(c.lddata))
    ensures Lookup(IdentityLines(c) + rest, "persoid") == Some(c.persoid)
  {
    var id := IdentityLines(c);
    LookupAppend(id, rest, "folder");
    LookupAppend(id, rest, "stage");
    LookupAppend(id, rest, "ld_data");
    LookupAppend(id, rest, "persoid");
    ReadFolder(c);
    ReadStage(c);
    ReadLdData(c);
    ReadPersoid(c);
  }

  lemma ReadFolder(c: ProjectConfig)
    ensures Lookup(IdentityLines(c), "folder") == Some(c.nomprojet + "/r_" + c.coderobin + "_" + c.nomprojet)
  {
    var id := IdentityLines(c);
    LookupSingle(id[0], "folder", c.nomprojet + "/r_" + c.coderobin + "_" + c.nomprojet);
    assert id == [id[0]] + id[1..];
    LookupAppend([id[0]], id[1..], "folder");
  }

  lemma ReadStage(c: ProjectConfig)
    ensures Lookup(IdentityLines(c), "stage") == Some(StageName(c.stage))
  {
    var id := IdentityLines(c);
    assert id == [id[0]] + ([id[1]] + id[2..]);
    LookupMiss([id[0]], "stage", 1);
    LookupSingle(id[1], "stage", StageName(c.stage));
    LookupAppend([id[0]], [id[1]] + id[2..], "stage");
    LookupAppend([id[1]], id[2..], "stage");
  }

  lemma ReadLdData(c: ProjectConfig)
    ensures Lookup(IdentityLines(c), "ld_data") == Some(Upper(c.lddata))
  {
    var id := IdentityLines(c);
    assert id == [id[0], id[1]] + ([id[2]] + id[3..]);
    LookupMiss([id[0], id[1]], "ld_data", 0);
    LookupAppend([id[0], id[1]], [id[2]] + id[3..], "ld_data");
    LookupSingle(id[2], "ld_data", Upper(c.lddata));
    LookupAppend([id[2]], id[3..], "ld_data");
  }

  lemma ReadPersoid(c: ProjectConfig)
    ensures Lookup(IdentityLines(c), "persoid") == Some(c.persoid)
  {
    var id := IdentityLines(c);
    assert id == [id[0], id[1], id[2]] + [id[3]];
    LookupMiss([id[0], id[1], id[2]], "persoid", 0);
    LookupAppend([id[0], id[1], id[2]], [id[3]], "persoid");
    LookupSingle(id[3], "persoid", c.persoid);
  }

  lemma ReadIdentity(c: ProjectConfig)
    ensures Lookup(MetaLines(c), "folder") == Some(c.nomprojet + "/r_" + c.coderobin + "_" + c.nomprojet)
    ensures Lookup(MetaLines(c), "stage") == Some(StageName(c.stage))
    ensures Lookup(MetaLines(c), "ld_data") == Some(Upper(c.lddata))
    ensures Lookup(MetaLines(c), "persoid") == Some(c.persoid)
  {
    var rest := PoolBlock(c.pools) + EntryLines(GatedEntries(c));
    AppendAssoc(IdentityLines(c), PoolBlock(c.pools), EntryLines(GatedEntries(c)));
    ReadIdentityPrefix(c, rest);
  }

  /** No identity line is a `pools:` header. */
  lemma IdentityNotPools(c: ProjectConfig)
    ensures forall i :: 0 <= i < |IdentityLines(c)| ==> IdentityLines(c)[i] != "pools:"
  {
    var id := IdentityLines(c);
    assert id[0][0] == 'f' && id[1][0] == 's' && id[2][0] == 'l' && id[3][..2] == "pe";
  }

  /** The pool items that follow a `pools:` line. */
  function ListAfter(lines: seq<string>, header: string): seq<string>
    decreases |lines|
  {
    if |lines| == 0 then []
    else if lines[0] == header then Items(lines[1..])
    else ListAfter(lines[1..], header)
  }

  /** The leading run of `  - x` lines, as the values `x`. */
  function Items(lines: seq<string>): seq<string>
    decreases |lines|
  {
    if |lines| > 0 && StartsWith(lines[0], "  - ") then [lines[0][4..]] + Items(lines[1..]) else []
  }

  lemma {:induction false} ItemsOfPoolItems(pools: seq<string>, rest: seq<string>)
    requires |rest| == 0 || !StartsWith(rest[0], "  - ")
    ensures Items(PoolItems(pools) + rest) == pools
    decreases |pools|
  {
    var ls := PoolItems(pools) + rest;
    if |pools| == 0 {
      assert ls == rest;
    } else {
      assert ls[0] == "  - " + pools[0];
      assert ls[0][..4] == "  - " && ls[0][4..] == pools[0];
      assert PoolItems(pools)[1..] == PoolItems(pools[1..]);
      assert ls[1..] == PoolItems(pools[1..]) + rest;
      ItemsOfPoolItems(pools[1..], rest);
      assert pools == [pools[0]] + pools[1..];
    }
  }

  /** Reading the pools block back gives the configured pools, in order; without
      pools there is no block at all. */
  lemma ReadPools(c: ProjectConfig)
    ensures ListAfter(MetaLines(c), "pools:") == c.pools
  {
    var id := IdentityLines(c);
    var gated := EntryLines(GatedEntries(c));
    EntryLinesShape(GatedEntries(c));
    IdentityNotPools(c);
    assert forall i :: 0 <= i < |gated| ==> |gated[i]| > 0 && gated[i][0] != ' ' && gated[i] != "pools:";
    ListAfterSkip(id, PoolBlock(c.pools) + gated, "pools:");
    assert MetaLines(c) == id + (PoolBlock(c.pools) + gated);
    if |c.pools| > 0 {
      assert PoolBlock(c.pools) + gated == ["pools:"] + (PoolItems(c.pools) + gated);
      ItemsOfPoolItems(c.pools, gated);
    } else {
      assert PoolBlock(c.pools) + gated == gated;
      ListAfterSkip(gated, [], "pools:");
      assert gated + [] == gated;
    }
  }

  lemma {:induction false} ListAfterSkip(a: seq<string>, b: seq<string>, header: string)
    requires forall i :: 0 <= i < |a| ==> a[i] != header
    ensures ListAfter(a + b, header) == ListAfter(b, header)
    decreases |a|
  {
    if |a| == 0 {
      assert a + b == b;
    } else {
      assert (a + b)[0] == a[0] && (a + b)[1..] == a[1..] + b;
      ListAfterSkip(a[1..], b, header);
    }
  }

  /** Every optional line starts with its key, never with a space or `pools:`. */
  lemma {:induction false} EntryLinesShape(es: seq<Entry>)
    requires forall j :: 0 <= j < |es| ==> |es[j].key| > 0 && es[j].key[0] != ' ' && es[j].key[0] != 'p'
    ensures forall i :: 0 <= i < |EntryLines(es)| ==>
              |EntryLines(es)[i]| > 0 && EntryLines(es)[i][0] != ' ' && EntryLines(es)[i] != "pools:"
    decreases |es|
  {
    if |es| > 0 {
      var n := |es| - 1;
      EntryLinesShape(es[..n]);
      var line := es[n].key + ": " + es[n].value;
      assert line[0] == es[n].key[0];
    }
  }

  /** In a list of optional lines whose keys start with distinct letters, looking a
      key up finds its value exactly when its gate is set. */
  lemma {:induction false} LookupEntries(es: seq<Entry>, i: nat)
    requires i < |es|
    requires forall j :: 0 <= j < |es| ==> |es[j].key| > 0
    requires forall j :: 0 <= j < |es| && j != i ==> es[j].key[0] != es[i].key[0]
    ensures Lookup(EntryLines(es), es[i].key) == if es[i].gate then Some(es[i].value) else None
    decreases |es|
  {
    var n := |es| - 1;
    var last := EntryLine(es[n]);
    LookupAppend(EntryLines(es[..n]), last, es[i].key);
    if i == n {
      EntriesMiss(es[..n], es[n].key);
      if es[n].gate {
        LookupSingle(last[0], es[n].key, es[n].value);
      }
    } else {
      LookupEntries(es[..n], i);
      if es[n].gate {
        assert (es[n].key + ": " + es[n].value)[0] == es[n].key[0];
        LookupMiss(last, es[i].key, 0);
      }
    }
  }

  lemma {:induction false} EntriesMiss(es: seq<Entry>, key: string)
    requires |key| > 0
    requires forall j :: 0 <= j < |es| ==> |es[j].key| > 0 && es[j].key[0] != key[0]
    ensures Lookup(EntryLines(es), key) == None
    decreases |es|
  {
    if |es| > 0 {
      var n := |es| - 1;
      var last := EntryLine(es[n]);
      LookupAppend(EntryLines(es[..n]), last, key);
      if es[n].gate {
        assert (es[n].key + ": " + es[n].value)[0] == es[n].key[0];
        LookupMiss(last, key, 0);
      }
      EntriesMiss(es[..n], key);
    }
  }

  /** Each optional line is present, with its value, exactly under its gate; the
      I/O folders are written as absolute paths. */
  lemma ReadGatedLines(c: ProjectConfig)
    ensures Lookup(MetaLines(c), "silot") == (if c.useVertica && c.silot != "" then Some(c.silot) else None)
    ensures Lookup(MetaLines(c), "env_name") == (if c.useConda && c.condaenv != "" then Some(c.condaenv) else None)
    ensures Lookup(MetaLines(c), "input_folder")
         == (if c.useInput && c.datalabIn != "" then Some(AbsolutePath(c.datalabIn)) else None)
    ensures Lookup(MetaLines(c), "output_folder")
         == (if c.useOutput && c.datalabOut != "" then Some(AbsolutePath(c.datalabOut)) else None)
    ensures Lookup(MetaLines(c), "NAS") == (if c.useNas then Some("true") else None)
    ensures Lookup(MetaLines(c), "GPU") == (if c.useGpu then Some("true") else None)
  {
    var es := GatedEntries(c);
    ReadGatedEntry(c, 0);
    ReadGatedEntry(c, 1);
    ReadGatedEntry(c, 2);
    ReadGatedEntry(c, 3);
    ReadGatedEntry(c, 4);
    ReadGatedEntry(c, 5);
    assert es[0].key == "silot" && es[1].key == "env_name" && es[2].key == "input_folder";
    assert es[3].key == "output_folder" && es[4].key == "NAS" && es[5].key == "GPU";
  }

  lemma GatedKey(c: ProjectConfig, i: nat)
    requires i < 6
    ensures GatedEntries(c)[i].key in {"git_remote", "silot", "env_name", "input_folder", "output_folder", "NAS", "GPU"}
  {
    var es := GatedEntries(c);
    if i == 0 { assert es[0].key == "silot"; }
    else if i == 1 { assert es[1].key == "env_name"; }
    else if i == 2 { assert es[2].key == "input_folder"; }
    else if i == 3 { assert es[3].key == "output_folder"; }
    else if i == 4 { assert es[4].key == "NAS"; }
    else { assert es[5].key == "GPU"; }
  }

  /** The optional keys start with distinct letters. */
  lemma GatedInitials(c: ProjectConfig, i: nat)
    requires i < 6
    ensures forall j :: 0 <= j < |GatedEntries(c)| ==> |GatedEntries(c)[j].key| > 0
    ensures forall j :: 0 <= j < |GatedEntries(c)| && j != i ==>
      GatedEntries(c)[j].key[0] != GatedEntries(c)[i].key[0]
  {
    var es := GatedEntries(c);
    assert es[0].key[0] == 's' && es[1].key[0] == 'e' && es[2].key[0] == 'i';
    assert es[3].key[0] == 'o' && es[4].key[0] == 'N' && es[5].key[0] == 'G';
  }

  /** The optional entry `i` reads back exactly under its gate. */
  lemma ReadGatedEntry(c: ProjectConfig, i: nat)
    requires i < 6
    ensures Lookup(MetaLines(c), GatedEntries(c)[i].key)
         == if GatedEntries(c)[i].gate then Some(GatedEntries(c)[i].value) else None
  {
    var head := IdentityLines(c) + PoolBlock(c.pools);
    var es := GatedEntries(c);
    assert MetaLines(c) == head + EntryLines(es);
    GatedKey(c, i);
    GatedInitials(c, i);
    HeadMisses(c, es[i].key);
    LookupAppend(head, EntryLines(es), es[i].key);
    LookupEntries(es, i);
  }

  lemma HeadMisses(c: ProjectConfig, key: string)
    requires key in {"git_remote", "silot", "env_name", "input_folder", "output_folder", "NAS", "GPU"}
    ensures Lookup(IdentityLines(c) + PoolBlock(c.pools), key) == None
  {
    LookupAppend(IdentityLines(c), PoolBlock(c.pools), key);
    IdentityMisses(c, key);
    PoolsMiss(c.pools, key);
  }

  lemma IdentityMisses(c: ProjectConfig, key: string)
    requires key in {"git_remote", "silot", "env_name", "input_folder", "output_folder", "NAS", "GPU"}
    ensures Lookup(IdentityLines(c), key) == None
  {
    var id := IdentityLines(c);
    assert id[0][0] == 'f' && id[1][..2] == "st" && id[2][0] == 'l' && id[3][0] == 'p';
    if key == "silot" {
      LookupMiss(id, key, 1);
    } else {
      LookupMiss(id, key, 0);
    }
  }

  lemma PoolsMiss(pools: seq<string>, key: string)
    requires key in {"git_remote", "silot", "env_name", "input_folder", "output_folder", "NAS", "GPU"}
    ensures Lookup(PoolBlock(pools), key) == None
  {
    if |pools| > 0 {
      assert PoolBlock(pools) == ["pools:"] + PoolItems(pools);
      LookupMiss(["pools:"], key, if key == "silot" then 1 else 0);
      LookupMissAll(PoolItems(pools), key);
      LookupAppend(["pools:"], PoolItems(pools), key);
    }
  }

  // ---------------------------------------------------------------------------
  // treatment.py
  // ---------------------------------------------------------------------------

  /** Adds the import lines of one step's tasks to the set, skipping tasks whose
      import field is empty. */
  method AddStepImports(seen: seq<string>, tasks: seq<Task>) returns (r: seq<string>)
    ensures r == AddAll(seen, Candidates(tasks, IsJsSpace))
  {
    r := seen;
    var j := 0;
    while j < |tasks|
      invariant 0 <= j <= |tasks|
      invariant r == AddAll(seen, Candidates(tasks[..j], IsJsSpace))
    {
      CandidatesStep(tasks, j, IsJsSpace);
      if tasks[j].imports != "" {
        AddAllAppend(seen, Candidates(tasks[..j], IsJsSpace), ImportLinesOf(tasks[j].imports, IsJsSpace));
        r := AddImportLines(r, tasks[j].imports);
      }
      j := j + 1;
    }
    assert tasks[..j] == tasks;
  }

  /** The set of import lines of the whole pipeline, in insertion order. */
  method CollectImports(pipeline: seq<PipelineStep>) returns (imports: seq<string>)
    ensures imports == Dedup(Candidates(AllTasks(pipeline), IsJsSpace))
  {
    imports := [];
    var i := 0;
    while i < |pipeline|
      invariant 0 <= i <= |pipeline|
      invariant imports == Dedup(Candidates(AllTasks(pipeline[..i]), IsJsSpace))
    {
      AllTasksStep(pipeline, i);
      CandidatesAppend(AllTasks(pipeline[..i]), pipeline[i].tasks, IsJsSpace);
      DedupAppend(Candidates(AllTasks(pipeline[..i]), IsJsSpace), Candidates(pipeline[i].tasks, IsJsSpace));
      imports := AddStepImports(imports, pipeline[i].tasks);
      i := i + 1;
    }
    assert pipeline[..i] == pipeline;
  }

  /** Collects the distinct import lines in a Set while walking the pipeline, then
      writes the import block and one function per task. */
  method GenerateTreatmentFile(pipeline: seq<PipelineStep>) returns (content: string)
    ensures content == TreatmentText(pipeline)
  {
    var allImports := CollectImports(pipeline);
    content := "";
    if |allImports| > 0 {
      content := Join(allImports, "\n") + "\n\n";
    }
    content := AppendFunctions(content, pipeline);
  }

  // ---------------------------------------------------------------------------
  // dag.py
  // ---------------------------------------------------------------------------

  /** The environment name after the rewrite: the conda environment when it is
      enabled and set, the template's `airflow-env` otherwise. */
  function EnvName(c: ProjectConfig): string {
    if c.useConda && c.condaenv != "" then c.condaenv else "airflow-env"
  }

  /** `dag.py`: the header with both configuration lines rewritten, one operator per
      task, then the dependency flow. */
  function DagText(c: ProjectConfig): string {
    var tasks := AllTasks(c.pipeline);
    DagHeader(ImportLine(TaskNames(tasks)), EnvLine(EnvName(c)), ScheduleLine(ScheduleValue(c.cron)), "airflow", DagId(c.nomprojet))
    + Operators(tasks, FirstPool(c.pools))
    + FlowSection(|c.pipeline| == 0, FrontEndNodes(c.pipeline))
  }

  /** The template's environment line is the rewrite of `airflow-env`. */
  lemma TemplateEnvLine()
    ensures EnvLine("airflow-env") == "custom_env_name = \"airflow-env\""
  {
  }

  /** Collects the task names, fills the template, appends one operator per task and
      the flow, then rewrites the environment and schedule lines of the template. */
  method GenerateDagFile(c: ProjectConfig) returns (content: string)
    ensures content == DagText(c)
  {
    var allTaskNames := CollectTaskNames(c.pipeline);
    var taskImports := if |allTaskNames| > 0 then "from src.treatment import " + Join(allTaskNames, ", ") else "";

    // the template's two configuration lines, rewritten at the end
    var envLine := "custom_env_name = \"airflow-env\"";
    var scheduleLine := "schedule_interval = None";

    var body := AppendOperators("", c.pipeline, FirstPool(c.pools));
    AppendEmpty(Operators(AllTasks(c.pipeline), FirstPool(c.pools)));
    var flow := EmitFlowSection(|c.pipeline| == 0, FrontEndNodes(c.pipeline));
    body := body + flow;

    if c.useConda && c.condaenv != "" {
      envLine := EnvLine(c.condaenv);
    }
    var cronVal := if c.cron != "" then "\"" + c.cron + "\"" else "None";
    scheduleLine := ScheduleLine(cronVal);
    TemplateEnvLine();
    assert taskImports == ImportLine(TaskNames(AllTasks(c.pipeline)));
    assert envLine == EnvLine(EnvName(c));
    assert scheduleLine == ScheduleLine(ScheduleValue(c.cron));
    var header := DagHeader(taskImports, envLine, scheduleLine, "airflow", DagId(c.nomprojet));
    content := header + body;
    AppendAssoc(header, Operators(AllTasks(c.pipeline), FirstPool(c.pools)), flow);
  }

  // --- properties of the DAG file ------------------------------------------

  /** Every operator block opens with the variable and call of the task's sanitised
      name. */
  lemma OperatorBlockStartsWithName(t: Task, pool: string)
    ensures StartsWith(OperatorBlock(t, pool), "    t_" + Sanitize(t.name) + " = PythonOperator(\n")
  {
    var name := Sanitize(t.name);
    var l1 := "    t_" + name + " = PythonOperator(\n";
    var l2 := "        task_id='" + name + "',\n";
    var l3 := "        python_callable=" + name + ",\n";
    var l4 := "        priority_weight=" + IntToString(PriorityWeight(t.priority)) + ",\n";
    var l5 := "        pool='" + pool + "',\n";
    var l6 := "        pool_slots=" + IntToString(t.poolSlots) + ",\n";
    PrefixOfConcat(l1, l2);
    StartsWithExtend(l1 + l2, l1, l3);
    StartsWithExtend(l1 + l2 + l3, l1, l4);
    StartsWithExtend(l1 + l2 + l3 + l4, l1, l5);
    StartsWithExtend(l1 + l2 + l3 + l4 + l5, l1, l6);
    StartsWithExtend(l1 + l2 + l3 + l4 + l5 + l6, l1, "        dag=dag\n");
    StartsWithExtend(l1 + l2 + l3 + l4 + l5 + l6 + "        dag=dag\n", l1, "    )\n\n");
  }

  /** The import line, the functions of `treatment.py` and the operators all use the
      same sanitised names, in pipeline order. */
  lemma NamesLineUp(pipeline: seq<PipelineStep>, policy: PoolPolicy, k: nat)
    requires k < |AllTasks(pipeline)|
    ensures var tasks := AllTasks(pipeline);
            var name := TaskNames(tasks)[k];
            StartsWith(DefBlocks(tasks)[k], "def " + name + "(**context):\n")
            && StartsWith(OperatorBlocks(tasks, policy)[k], "    t_" + name + " = PythonOperator(\n")
  {
    var tasks := AllTasks(pipeline);
    TaskNamesAt(tasks, k);
    DefBlockStartsWithName(tasks[k]);
    OperatorBlockStartsWithName(tasks[k], PoolFor(policy, tasks[k]));
  }

  /** The environment line keeps the template's value unless conda is enabled with a
      non-empty environment; the schedule is the quoted cron or `None`. */
  lemma DagConfigurationLines(c: ProjectConfig)
    ensures EnvName(c) != "airflow-env" ==> c.useConda && c.condaenv != ""
    ensures c.useConda && c.condaenv != "" ==> EnvName(c) == c.condaenv
    ensures ScheduleValue(c.cron) == (if c.cron == "" then "None" else "\"" + c.cron + "\"")
  {
  }

  /** The flow links `start`, the node of every non-empty stage in order, and `end`. */
  lemma FrontEndFlow(pipeline: seq<PipelineStep>)
    ensures FlowSection(|pipeline| == 0, FrontEndNodes(pipeline))
         == "    # Pipeline Flow\n" + Edges(["start"] + Present(FrontEndNodes(pipeline)) + ["end"])
  {
    EmptyPipelineCaseRedundant(pipeline);
    FlowIsChain("start", FrontEndNodes(pipeline));
  }
}
