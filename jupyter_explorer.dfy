/** The current front end's folder picker: it browses the Jupyter server's
    contents tree, shows only directories, and hands back the last segment of
    the path it is in. Paths are relative to the server root, '/'-separated,
    and start at "workspaces". The server's answer to a listing request is a
    parameter. */
module JupyterExplorer {
  import opened Text

  datatype Kind = Directory | File | Notebook

  /** One entry of a listing, reduced to the fields the picker keeps. */
  datatype Item = Item(name: string, kind: Kind, path: string)

  /** The server's answer to a contents request. */
  datatype Reply =
    | Failed
    | Listing(isDirectory: bool, content: Option<seq<Item>>)

  const StartPath := "workspaces"
  const AccessError := "Could not access directory. " + "Ensure /home/jovyan/workspaces exists."

  // ---------------------------------------------------------------------------
  // The directory filter
  // ---------------------------------------------------------------------------

  /** The directories of a listing, in listing order. */
  function Dirs(items: seq<Item>): (r: seq<Item>)
    ensures |r| <= |items|
    ensures forall k :: 0 <= k < |r| ==> r[k].kind == Directory
    decreases |items|
  {
    if |items| == 0 then []
    else
      var rest := Dirs(items[..|items| - 1]);
      var last := items[|items| - 1];
      if last.kind == Directory then rest + [last] else rest
  }

  /** An item is shown exactly when it is in the listing and is a directory. */
  lemma {:induction false} DirsMembers(items: seq<Item>, x: Item)
    ensures x in Dirs(items) <==> x in items && x.kind == Directory
    decreases |items|
  {
    if |items| > 0 {
      var init := items[..|items| - 1];
      DirsMembers(init, x);
      assert items == init + [items[|items| - 1]];
    }
  }

  /** The filter keeps the listing's order: it distributes over concatenation. */
  lemma {:induction false} DirsAppend(a: seq<Item>, b: seq<Item>)
    ensures Dirs(a + b) == Dirs(a) + Dirs(b)
    decreases |b|
  {
    if |b| == 0 {
      assert a + b == a;
    } else {
      assert (a + b)[..|a + b| - 1] == a + b[..|b| - 1];
      DirsAppend(a, b[..|b| - 1]);
    }
  }

  /** Filtering what was filtered changes nothing. */
  lemma {:induction false} DirsIdempotent(items: seq<Item>)
    ensures Dirs(Dirs(items)) == Dirs(items)
    decreases |items|
  {
    if |items| > 0 {
      var init := items[..|items| - 1];
      var last := items[|items| - 1];
      DirsIdempotent(init);
      if last.kind == Directory {
        DirsAppend(Dirs(init), [last]);
        assert [last][..0] == [];
      }
    }
  }

  // ---------------------------------------------------------------------------
  // Paths
  // ---------------------------------------------------------------------------

  /** Entering a folder: appended with a '/', or alone at the root. */
  function NavPath(p: string, name: string): (r: string)
    ensures p != "" ==> |r| == |p| + 1 + |name| && r[|p|] == '/'
  {
    if p != "" then p + "/" + name else name
  }

  /** The ".." entry is shown everywhere except at the start folder and the root. */
  predicate ShowsUp(p: string) {
    p != StartPath && p != ""
  }

  /** Going up: the last segment is dropped, except where ".." is hidden. */
  function UpPath(p: string): string {
    if !ShowsUp(p) then p
    else
      var parts := Split(p, '/');
      Join(parts[..|parts| - 1], "/")
  }

  /** The folder the footer names and the select button hands back. */
  function Selected(p: string): string {
    LastSegment(p, '/')
  }

  /** The header's absolute path. */
  function DisplayPath(p: string): string {
    "/home/jovyan/" + p
  }

  /** After entering a folder the footer names that folder. */
  lemma SelectedAfterNavigate(p: string, name: string)
    requires '/' !in name
    ensures Selected(NavPath(p, name)) == name
  {
    SplitNoSep(name, '/');
    if p != "" {
      assert p + "/" + name == p + ['/'] + name;
      SplitAround(p, name, '/');
    }
  }

  /** Going up from a folder just entered returns to where the picker was,
      unless the folder entered from the root is the start folder itself,
      where ".." is hidden. */
  lemma UpAfterNavigate(p: string, name: string)
    requires '/' !in name
    requires !(p == "" && name == StartPath)
    ensures UpPath(NavPath(p, name)) == p
  {
    SplitNoSep(name, '/');
    if p != "" {
      var q := NavPath(p, name);
      assert q == p + ['/'] + name;
      assert q != StartPath by {
        assert q[|p|] == '/' && '/' in q;
        assert '/' !in StartPath;
      }
      SplitAround(p, name, '/');
      var parts := Split(q, '/');
      assert parts[..|parts| - 1] == Split(p, '/');
      JoinSplit(p, '/');
    }
  }

  /** ".." is shown exactly where going up changes the path, and going up
      always shortens it. */
  lemma UpShortens(p: string)
    ensures ShowsUp(p) <==> UpPath(p) != p
    ensures ShowsUp(p) ==> |UpPath(p)| < |p|
  {
    if ShowsUp(p) {
      var parts := Split(p, '/');
      JoinSplit(p, '/');
      if |parts| >= 2 {
        var init := parts[..|parts| - 1];
        assert parts == init + [parts[|parts| - 1]];
        JoinSnoc(init, parts[|parts| - 1], "/");
      }
    }
  }

  /** From anywhere below the start folder, going up enough times reaches a
      place where ".." is hidden; one step from a direct child of the start
      folder is enough. */
  lemma UpToStart(name: string)
    requires '/' !in name
    ensures UpPath(NavPath(StartPath, name)) == StartPath
    ensures !ShowsUp(UpPath(NavPath(StartPath, name)))
  {
    UpAfterNavigate(StartPath, name);
  }

  // ---------------------------------------------------------------------------
  // The picker's state
  // ---------------------------------------------------------------------------

  class Explorer {
    var currentPath: string
    var contents: seq<Item>
    var loading: bool
    var error: Option<string>

    constructor ()
      ensures currentPath == StartPath && contents == [] && !loading && error == None
    {
      currentPath := StartPath;
      contents := [];
      loading := false;
      error := None;
    }

    /** A folder clicked in the listing. */
    method Navigate(folderName: string)
      modifies this
      ensures currentPath == NavPath(old(currentPath), folderName)
      ensures contents == old(contents) && loading == old(loading) && error == old(error)
    {
      currentPath := if currentPath != "" then currentPath + "/" + folderName else folderName;
    }

    /** The ".." entry; a no-op where it is hidden. */
    method Up()
      modifies this
      ensures currentPath == UpPath(old(currentPath))
      ensures contents == old(contents) && loading == old(loading) && error == old(error)
    {
      if currentPath == StartPath || currentPath == "" {
        return;
      }
      var parts := Split(currentPath, '/');
      currentPath := Join(parts[..|parts| - 1], "/");
    }

    /** The listing request made whenever the path changes; `service` is false
        when no server is attached, in which case nothing happens. A failure
        keeps the previous listing and sets the error. */
    method Fetch(service: bool, reply: Reply)
      modifies this
      ensures service ==> !loading
      ensures !service ==> contents == old(contents) && loading == old(loading) && error == old(error)
      ensures service && reply.Failed? ==> contents == old(contents) && error == Some(AccessError)
      ensures service && reply.Listing? ==> error == None
      ensures service && reply.Listing? && reply.isDirectory && reply.content.Some? ==>
        contents == Dirs(reply.content.value)
      ensures service && reply.Listing? && !(reply.isDirectory && reply.content.Some?) ==> contents == []
      ensures currentPath == old(currentPath)
    {
      if !service {
        return;
      }
      loading := true;
      error := None;
      match reply {
        case Failed =>
          error := Some(AccessError);
        case Listing(isDir, content) =>
          if isDir && content.Some? {
            contents := Dirs(content.value);
          } else {
            contents := [];
          }
      }
      loading := false;
    }

    function SelectedFolder(): string
      reads this
    {
      Selected(currentPath)
    }
  }

  /** Entering a folder and selecting hands back that folder's name. */
  method NavigateThenSelect(name: string) returns (selected: string)
    requires '/' !in name
    ensures selected == name
  {
    var e := new Explorer();
    e.Navigate(name);
    selected := e.SelectedFolder();
    SelectedAfterNavigate(StartPath, name);
  }
}
