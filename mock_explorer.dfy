/** The older front end's folder picker: it browses a fixed in-memory folder
    tree, keeps the path as a list of folder names below the workspace root,
    and hands back the last folder (or "marketing" at the root). */
module MockExplorer {
  import opened Text

  /** A folder: its sub-folders, in the order the tree literal lists them. */
  datatype Dir = Dir(entries: seq<(string, Dir)>)

  const Leaf := Dir([])

  const Marketing := Dir([("campaigns", Leaf), ("analysis", Leaf), ("reports", Leaf)])
  const Finance := Dir([("q1_2024", Leaf), ("forecasting", Leaf), ("ledger", Leaf)])
  const Risk := Dir([("credit_scoring", Leaf), ("fraud_detection", Leaf)])
  const DataEngineering := Dir([("pipelines", Leaf), ("bronze", Leaf), ("silver", Leaf)])
  const Sandbox := Dir([("test_project", Leaf)])

  /** The mock file system under the workspace root. */
  const MockFileSystem := Dir([
    ("marketing", Marketing),
    ("finance", Finance),
    ("risk", Risk),
    ("data-engineering", DataEngineering),
    ("sandbox", Sandbox)])

  /** The folder selected at the root. */
  const DefaultSelection := "marketing"

  /** `Object.keys(d)` */
  function Keys(d: Dir): (r: seq<string>)
    ensures |r| == |d.entries|
    ensures forall i :: 0 <= i < |r| ==> r[i] == d.entries[i].0
  {
    seq(|d.entries|, i requires 0 <= i < |d.entries| => d.entries[i].0)
  }

  /** `d[name]`: the sub-folder of that name, if any. */
  function Lookup(es: seq<(string, Dir)>, name: string): (r: Option<Dir>)
    ensures r.Some? ==> exists i :: 0 <= i < |es| && es[i] == (name, r.value)
    ensures r.None? ==> forall i :: 0 <= i < |es| ==> es[i].0 != name
    decreases |es|
  {
    if |es| == 0 then None
    else if es[0].0 == name then Some(es[0].1)
    else
      var r := Lookup(es[1..], name);
      if r.Some? then
        assert es[1..][0] == es[1];
        r
      else r
  }

  /** The folder a path leads to from `d`, or `None` once a name is missing. */
  function Walk(d: Dir, path: seq<string>): Option<Dir>
    decreases |path|
  {
    if |path| == 0 then Some(d)
    else
      match Lookup(d.entries, path[0])
      case None => None
      case Some(c) => Walk(c, path[1..])
  }

  /** What the picker lists for a path: the folder it leads to, or an empty
      folder when the path leads nowhere. */
  function ContentsAt(path: seq<string>): Dir {
    match Walk(MockFileSystem, path)
    case Some(d) => d
    case None => Leaf
  }

  /** `getCurrentContents`: walks the tree one name at a time and stops with an
      empty folder at the first missing name. */
  method CurrentContents(path: seq<string>) returns (current: Dir)
    ensures current == ContentsAt(path)
  {
    current := MockFileSystem;
    var i := 0;
    while i < |path|
      invariant 0 <= i <= |path|
      invariant Walk(current, path[i..]) == Walk(MockFileSystem, path)
    {
      assert path[i..][1..] == path[i + 1..];
      var next := Lookup(current.entries, path[i]);
      if next.None? {
        return Leaf;
      }
      current := next.value;
      i := i + 1;
    }
    assert path[i..] == [];
  }

  /** Following one more name from where a path leads. */
  lemma {:induction false} WalkSnoc(d: Dir, path: seq<string>, name: string)
    ensures Walk(d, path + [name]) ==
      match Walk(d, path)
      case None => None
      case Some(c) => Lookup(c.entries, name)
    decreases |path|
  {
    if |path| == 0 {
      assert [] + [name] == [name];
      assert [name][1..] == [];
    } else {
      assert (path + [name])[0] == path[0];
      assert (path + [name])[1..] == path[1..] + [name];
      match Lookup(d.entries, path[0])
      case None =>
      case Some(c) => WalkSnoc(c, path[1..], name);
    }
  }

  /** A path the picker can be in: each name was listed where it was clicked. */
  predicate Reachable(path: seq<string>) {
    Walk(MockFileSystem, path).Some?
  }

  /** Entering a listed folder keeps the path reachable, and the picker then
      lists that folder's sub-folders. */
  lemma NavigateListed(path: seq<string>, k: nat)
    requires Reachable(path) && k < |ContentsAt(path).entries|
    ensures Reachable(path + [ContentsAt(path).entries[k].0])
    ensures ContentsAt(path + [ContentsAt(path).entries[k].0]) ==
      Lookup(ContentsAt(path).entries, ContentsAt(path).entries[k].0).value
  {
    var name := ContentsAt(path).entries[k].0;
    WalkSnoc(MockFileSystem, path, name);
  }

  /** Every prefix of a reachable path is reachable: going up never leaves the
      tree. */
  lemma {:induction false} ReachablePrefix(d: Dir, path: seq<string>, n: nat)
    requires n <= |path| && Walk(d, path).Some?
    ensures Walk(d, path[..n]).Some?
    decreases |path|
  {
    if n > 0 {
      var c := Lookup(d.entries, path[0]).value;
      assert path[..n][0] == path[0];
      assert path[..n][1..] == path[1..][..n - 1];
      ReachablePrefix(c, path[1..], n - 1);
    }
  }

  /** Each sub-folder of a top-level folder is empty. */
  predicate LeafChildren(d: Dir) {
    forall j :: 0 <= j < |d.entries| ==> d.entries[j].1 == Leaf
  }

  lemma TopLevelShape()
    ensures forall i :: 0 <= i < |MockFileSystem.entries| ==> LeafChildren(MockFileSystem.entries[i].1)
  {
    assert LeafChildren(Marketing) && LeafChildren(Finance) && LeafChildren(Risk);
    assert LeafChildren(DataEngineering) && LeafChildren(Sandbox);
  }

  /** The tree is two folders deep: no reachable path is longer than two. */
  lemma ReachableDepth(path: seq<string>)
    ensures Reachable(path) ==> |path| <= 2
  {
    if |path| > 2 {
      var top := Lookup(MockFileSystem.entries, path[0]);
      if top.Some? {
        TopLevelShape();
        var c := top.value;
        var p1 := path[1..];
        assert p1[0] == path[1];
        assert Walk(MockFileSystem, path) == Walk(c, p1);
        var mid := Lookup(c.entries, p1[0]);
        if mid.Some? {
          assert mid.value == Leaf;
          assert Walk(c, p1) == Walk(Leaf, p1[1..]);
        }
      }
    }
  }

  /** The root's default selection is a folder the root lists. */
  lemma DefaultIsListed()
    ensures DefaultSelection in Keys(MockFileSystem)
  {
    assert Keys(MockFileSystem)[0] == DefaultSelection;
  }

  class Picker {
    var path: seq<string>

    constructor ()
      ensures path == []
    {
      path := [];
    }

    /** A listed folder clicked. */
    method Navigate(folder: string)
      modifies this
      ensures path == old(path) + [folder]
    {
      path := path + [folder];
    }

    /** The ".." entry (shown when the path is not empty); `slice(0, -1)` of
        an empty list is empty. */
    method Up()
      modifies this
      ensures path == if |old(path)| == 0 then [] else old(path)[..|old(path)| - 1]
    {
      if |path| > 0 {
        path := path[..|path| - 1];
      }
    }

    predicate ShowsUp()
      reads this
    {
      |path| > 0
    }

    /** The header's absolute path. */
    function DisplayPath(): string
      reads this
    {
      "/home/jovyan/workspaces/" + Join(path, "/")
    }

    /** The footer's label. */
    function SelectedLabel(): (r: string)
      reads this
      ensures |path| > 0 ==> r == path[|path| - 1]
      ensures |path| == 0 ==> r == "Root"
    {
      if |path| > 0 then path[|path| - 1] else "Root"
    }

    /** What the select button hands back. */
    function SelectedValue(): (r: string)
      reads this
      ensures |path| > 0 ==> r == path[|path| - 1]
      ensures |path| == 0 ==> r == DefaultSelection
    {
      if |path| > 0 then path[|path| - 1] else DefaultSelection
    }
  }

  /** The footer names what the select button hands back, except at the root:
      there it reads `Root` while the button hands back `marketing`, a folder
      listed at the root. */
  lemma LabelNamesValue(p: Picker)
    ensures p.SelectedLabel() == p.SelectedValue() <==> p.ShowsUp()
    ensures !p.ShowsUp() ==> p.SelectedValue() in Keys(MockFileSystem)
  {
    if !p.ShowsUp() {
      DefaultIsListed();
    }
  }

  /** From any path, going up after entering a folder returns to that path,
      and in between the picker hands back the folder just entered. */
  method NavigateThenUp(p: Picker, folder: string) returns (selected: string)
    modifies p
    ensures selected == folder && p.path == old(p.path)
  {
    var before := p.path;
    p.Navigate(folder);
    selected := p.SelectedValue();
    p.Up();
    assert before + [folder] == p.path + [folder];
  }
}
