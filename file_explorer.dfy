/** The mock file explorer (components/FileExplorer.tsx): a static tree of
    files and folders, a current path of names resolved against it, and the
    path updates behind the back button and double-clicks. */
module FileExplorer {
  import opened Types

  datatype NodeKind = File | Folder

  /** One entry of the mock tree (components/FileExplorer.tsx:4-9). */
  datatype FileNode = FileNode(
    name: string,
    kind: NodeKind,
    size: Option<string>,
    children: Children)

  /** The optional `children` array of an entry. A dedicated datatype rather
      than `Option` so that Dafny sees each child as smaller than its folder. */
  datatype Children = Absent | Present(items: seq<FileNode>)

  function FileEntry(name: string, size: string): FileNode
  {
    FileNode(name, File, Some(size), Absent)
  }

  function FolderEntry(name: string, children: seq<FileNode>): FileNode
  {
    FileNode(name, Folder, None, Present(children))
  }

  /** `MOCK_FS` (components/FileExplorer.tsx:11-46), with its folders'
      listings named below. */
  function MockFs(): seq<FileNode>
  {
    [ FolderEntry("bin", MockBin()),
      FolderEntry("etc", MockEtc()),
      FolderEntry("home", MockHome()),
      FileEntry("vmlinuz-gemini", "32MB"),
      FileEntry("initrd.img", "15MB") ]
  }

  function MockBin(): seq<FileNode>
  {
    [ FileEntry("kernel.bin", "1.2MB"), FileEntry("sh", "450KB"), FileEntry("gemini-core", "8.4MB") ]
  }

  function MockEtc(): seq<FileNode>
  {
    [ FileEntry("hosts", "1KB"), FileEntry("os-release", "2KB"), FileEntry("neural-config.json", "12KB") ]
  }

  function MockHome(): seq<FileNode>
  {
    [ FolderEntry("root", MockRoot()) ]
  }

  function MockRoot(): seq<FileNode>
  {
    [ FileEntry("readme.txt", "512B"), FileEntry("top_secret.lock", "0B") ]
  }

  // ---------------------------------------------------------------------
  // Resolving a path

  /** `current.find(item => item.name === segment)`: the first item with
      that name. */
  function FindByName(items: seq<FileNode>, name: string): (r: Option<FileNode>)
    ensures r.None? <==> forall i :: 0 <= i < |items| ==> items[i].name != name
    ensures r.Some? ==>
      exists k :: 0 <= k < |items| && items[k] == r.value && items[k].name == name &&
        forall j :: 0 <= j < k ==> items[j].name != name
  {
    if |items| == 0 then None
    else if items[0].name == name then Some(items[0])
    else
      var r := FindByName(items[1..], name);
      assert forall i :: 1 <= i < |items| ==> items[i] == items[1..][i - 1];
      if r.Some? then
        var k :| 0 <= k < |items[1..]| && items[1..][k] == r.value && items[1..][k].name == name &&
          forall j :: 0 <= j < k ==> items[1..][j].name != name;
        assert items[k + 1] == r.value;
        r
      else r
  }

  /** One iteration of the walk (components/FileExplorer.tsx:55-58): descend
      into the children of the first item named `segment` when it has any,
      and otherwise stay where the walk is. An empty children list is
      present (and truthy in the source), so the walk descends into it. */
  function Step(current: seq<FileNode>, segment: string): seq<FileNode>
  {
    match FindByName(current, segment)
    case Some(found) => if found.children.Present? then found.children.items else current
    case None => current
  }

  /** The listing reached by walking `path` from `current`, segment by
      segment, first to last. */
  function Resolve(current: seq<FileNode>, path: seq<string>): seq<FileNode>
    decreases |path|
  {
    if |path| == 0 then current else Resolve(Step(current, path[0]), path[1..])
  }

  /** The walk descends into the children of the first item carrying the
      segment's name, when that item has children. */
  lemma StepDescends(current: seq<FileNode>, k: int)
    requires 0 <= k < |current| && current[k].children.Present?
    requires forall j :: 0 <= j < k ==> current[j].name != current[k].name
    ensures Step(current, current[k].name) == current[k].children.items
  {
    var r := FindByName(current, current[k].name);
    var m :| 0 <= m < |current| && current[m] == r.value && current[m].name == current[k].name &&
      forall j :: 0 <= j < m ==> current[j].name != current[k].name;
    assert m == k;
  }

  /** A segment that names nothing, or whose first match has no children
      (a file), leaves the walk where it is: no error. */
  lemma StepSkips(current: seq<FileNode>, segment: string)
    requires (forall i :: 0 <= i < |current| ==> current[i].name != segment) ||
      exists k :: 0 <= k < |current| && current[k].name == segment && current[k].children.Absent? &&
        forall j :: 0 <= j < k ==> current[j].name != segment
    ensures Step(current, segment) == current
  {
    var r := FindByName(current, segment);
    if r.Some? {
      var m :| 0 <= m < |current| && current[m] == r.value && current[m].name == segment &&
        forall j :: 0 <= j < m ==> current[j].name != segment;
      var k :| 0 <= k < |current| && current[k].name == segment && current[k].children.Absent? &&
        forall j :: 0 <= j < k ==> current[j].name != segment;
      assert m == k;
    }
  }

  /** Walking one more segment is one more step from where the walk was. */
  lemma {:induction false} ResolveSnoc(current: seq<FileNode>, path: seq<string>, segment: string)
    ensures Resolve(current, path + [segment]) == Step(Resolve(current, path), segment)
    decreases |path|
  {
    if |path| == 0 {
      assert path + [segment] == [segment];
      assert Resolve(current, [segment]) == Resolve(Step(current, segment), []);
    } else {
      assert (path + [segment])[0] == path[0];
      assert (path + [segment])[1..] == path[1..] + [segment];
      ResolveSnoc(Step(current, path[0]), path[1..], segment);
    }
  }

  // ---------------------------------------------------------------------
  // Paths built by navigation

  /** No two entries of a listing share a name. */
  predicate UniqueNames(items: seq<FileNode>)
  {
    forall i, j :: 0 <= i < j < |items| ==> items[i].name != items[j].name
  }

  /** An entry is a folder exactly when it has children, and its children
      form well-formed listings all the way down. */
  ghost predicate WellFormedNode(node: FileNode)
    decreases node
  {
    match node.children
    case Absent => node.kind == File
    case Present(items) =>
      node.kind == Folder && UniqueNames(items) &&
      forall child :: child in items ==> WellFormedNode(child)
  }

  /** Names are unique in the listing and every entry is well formed. */
  ghost predicate WellFormed(items: seq<FileNode>)
  {
    UniqueNames(items) && forall item :: item in items ==> WellFormedNode(item)
  }

  /** `path` was built by double-clicking folders listed at each step
      (components/FileExplorer.tsx:86). */
  ghost predicate Navigated(root: seq<FileNode>, path: seq<string>)
    decreases |path|
  {
    |path| == 0 ||
    (Navigated(root, path[..|path| - 1]) &&
     exists item :: item in Resolve(root, path[..|path| - 1]) &&
       item.kind == Folder && item.name == path[|path| - 1])
  }

  /** In a well-formed listing, stepping into a listed folder gives its children. */
  lemma StepIntoListedFolder(items: seq<FileNode>, item: FileNode)
    requires WellFormed(items) && item in items && item.kind == Folder
    ensures item.children.Present?
    ensures Step(items, item.name) == item.children.items
  {
    var k :| 0 <= k < |items| && items[k] == item;
    assert WellFormedNode(items[k]);
    StepDescends(items, k);
  }

  /** Every step from a well-formed listing reaches a well-formed listing. */
  lemma StepWellFormed(items: seq<FileNode>, segment: string)
    requires WellFormed(items)
    ensures WellFormed(Step(items, segment))
  {
    var r := FindByName(items, segment);
    if r.Some? && r.value.children.Present? {
      var k :| 0 <= k < |items| && items[k] == r.value && items[k].name == segment &&
        forall j :: 0 <= j < k ==> items[j].name != segment;
      assert WellFormedNode(items[k]);
    }
  }

  /** Every listing the walk reaches from a well-formed root is well formed. */
  lemma {:induction false} ResolveWellFormed(current: seq<FileNode>, path: seq<string>)
    requires WellFormed(current)
    ensures WellFormed(Resolve(current, path))
    decreases |path|
  {
    if |path| > 0 {
      StepWellFormed(current, path[0]);
      ResolveWellFormed(Step(current, path[0]), path[1..]);
    }
  }

  /** From a well-formed root, entering a folder listed at `path` shows that
      folder's children. */
  lemma EnterListedFolder(root: seq<FileNode>, path: seq<string>, item: FileNode)
    requires WellFormed(root)
    requires item in Resolve(root, path) && item.kind == Folder
    ensures item.children.Present? && Resolve(root, path + [item.name]) == item.children.items
  {
    ResolveWellFormed(root, path);
    StepIntoListedFolder(Resolve(root, path), item);
    ResolveSnoc(root, path, item.name);
  }

  /** Double-clicking a folder listed at the current path gives a path that
      is still navigated, and the new listing is that folder's children. */
  lemma NavigateIntoFolder(root: seq<FileNode>, path: seq<string>, item: FileNode)
    requires WellFormed(root) && Navigated(root, path)
    requires item in Resolve(root, path) && item.kind == Folder
    ensures Navigated(root, path + [item.name])
    ensures item.children.Present? && Resolve(root, path + [item.name]) == item.children.items
  {
    EnterListedFolder(root, path, item);
    assert (path + [item.name])[..|path|] == path;
  }

  /** On a path built only by double-clicking listed folders, the listing
      shown is the children of the last folder entered. */
  lemma NavigatedListsLastFolder(root: seq<FileNode>, path: seq<string>)
    requires WellFormed(root) && Navigated(root, path) && |path| > 0
    ensures
      exists item :: item in Resolve(root, path[..|path| - 1]) &&
        item.kind == Folder && item.name == path[|path| - 1] &&
        item.children == Present(Resolve(root, path))
  {
    var parent := path[..|path| - 1];
    var item :| item in Resolve(root, parent) && item.kind == Folder && item.name == path[|path| - 1];
    EnterListedFolder(root, parent, item);
    assert parent + [item.name] == path;
  }

  /** Names whose first letters differ are unique. */
  lemma UniqueByInitials(items: seq<FileNode>, initials: string)
    requires |initials| == |items|
    requires forall i :: 0 <= i < |items| ==> |items[i].name| > 0 && items[i].name[0] == initials[i]
    requires forall i, j :: 0 <= i < j < |initials| ==> initials[i] != initials[j]
    ensures UniqueNames(items)
  {
    forall i, j | 0 <= i < j < |items| ensures items[i].name != items[j].name {
      assert items[i].name[0] != items[j].name[0];
    }
  }

  /** A listing of files with distinct first letters is well formed. */
  lemma FileListingWellFormed(items: seq<FileNode>, initials: string)
    requires |initials| == |items|
    requires forall i :: 0 <= i < |items| ==>
      items[i].kind == File && items[i].children.Absent? &&
      |items[i].name| > 0 && items[i].name[0] == initials[i]
    requires forall i, j :: 0 <= i < j < |initials| ==> initials[i] != initials[j]
    ensures WellFormed(items)
  {
    UniqueByInitials(items, initials);
    forall item | item in items ensures WellFormedNode(item) {
      var k :| 0 <= k < |items| && items[k] == item;
    }
  }

  /** The `home` folder's listing is well formed. */
  lemma MockHomeWellFormed()
    ensures WellFormed(MockHome())
  {
    FileListingWellFormed(MockRoot(), "rt");
    assert WellFormedNode(MockHome()[0]);
  }

  /** The mock tree is well formed. */
  lemma MockFsWellFormed()
    ensures WellFormed(MockFs())
  {
    var fs := MockFs();
    FileListingWellFormed(MockBin(), "ksg");
    assert WellFormedNode(fs[0]);
    FileListingWellFormed(MockEtc(), "hon");
    assert WellFormedNode(fs[1]);
    MockHomeWellFormed();
    assert WellFormedNode(fs[2]);
    assert WellFormedNode(fs[3]) && WellFormedNode(fs[4]);
    UniqueByInitials(fs, "behvi");
  }

  // ---------------------------------------------------------------------
  // Path updates and the breadcrumb

  /** `[...currentPath, name]` (components/FileExplorer.tsx:64). */
  function Child(path: seq<string>, name: string): (r: seq<string>)
    ensures |r| == |path| + 1 && r[..|path|] == path && r[|path|] == name
  {
    path + [name]
  }

  /** `currentPath.slice(0, -1)` (components/FileExplorer.tsx:68): drop the
      last segment; the empty path stays empty. */
  function Parent(path: seq<string>): (r: seq<string>)
    ensures |path| == 0 ==> r == []
    ensures |path| > 0 ==> |r| == |path| - 1 && path == r + [path[|path| - 1]]
  {
    if |path| == 0 then [] else path[..|path| - 1]
  }

  /** Going back after navigating restores the previous path. */
  lemma ParentOfChild(path: seq<string>, name: string)
    ensures Parent(Child(path, name)) == path
  {
    assert Child(path, name)[..|path|] == path;
  }

  /** The segments joined with "/" (`currentPath.join('/')`). */
  function Join(path: seq<string>): string
    decreases |path|
  {
    if |path| == 0 then ""
    else if |path| == 1 then path[0]
    else path[0] + "/" + Join(path[1..])
  }

  /** The breadcrumb (components/FileExplorer.tsx:79): "/" and the joined path. */
  function Breadcrumb(path: seq<string>): (r: string)
    ensures |r| >= 1 && r[0] == '/'
  {
    "/" + Join(path)
  }

  /** Splitting at every "/", as `split('/')` does: the inverse of `Join`. */
  function Split(s: string): (r: seq<string>)
    ensures |r| >= 1
    decreases |s|
  {
    if |s| == 0 then [""]
    else
      var rest := Split(s[1..]);
      if s[0] == '/' then [""] + rest else [[s[0]] + rest[0]] + rest[1..]
  }

  lemma {:induction false} SplitNoSlash(a: string)
    requires '/' !in a
    ensures Split(a) == [a]
    decreases |a|
  {
    if |a| > 0 {
      assert '/' !in a[1..] by {
        forall c | c in a[1..] ensures c in a { }
      }
      SplitNoSlash(a[1..]);
      assert [a[0]] + a[1..] == a;
    }
  }

  lemma {:induction false} SplitAtFirstSlash(a: string, b: string)
    requires '/' !in a
    ensures Split(a + "/" + b) == [a] + Split(b)
    decreases |a|
  {
    var s := a + "/" + b;
    if |a| == 0 {
      assert s == "/" + b && s[1..] == b;
    } else {
      assert '/' !in a[1..] by {
        forall c | c in a[1..] ensures c in a { }
      }
      assert s[0] == a[0] && s[1..] == a[1..] + "/" + b;
      SplitAtFirstSlash(a[1..], b);
      assert [a[0]] + a[1..] == a;
    }
  }

  /** With no "/" inside any segment, the breadcrumb determines the path:
      splitting what follows the leading "/" gives the segments back. */
  lemma {:induction false} BreadcrumbRoundTrip(path: seq<string>)
    requires |path| > 0 && forall i :: 0 <= i < |path| ==> '/' !in path[i]
    ensures Split(Breadcrumb(path)[1..]) == path
    decreases |path|
  {
    assert Breadcrumb(path)[1..] == Join(path);
    if |path| == 1 {
      SplitNoSlash(path[0]);
    } else {
      BreadcrumbRoundTrip(path[1..]);
      assert Breadcrumb(path[1..])[1..] == Join(path[1..]);
      SplitAtFirstSlash(path[0], Join(path[1..]));
      assert [path[0]] + path[1..] == path;
    }
  }

  /** Joining one more segment adds "/" and the segment. */
  lemma {:induction false} JoinSnoc(path: seq<string>, name: string)
    requires |path| > 0
    ensures Join(path + [name]) == Join(path) + "/" + name
    decreases |path|
  {
    var p := path + [name];
    assert p[0] == path[0] && p[1..] == path[1..] + [name];
    if |path| == 1 {
      assert p[1..] == [name];
    } else {
      JoinSnoc(path[1..], name);
    }
  }

  /** Navigating into `name` extends the breadcrumb by "/name" (by "name"
      right after the root "/"). */
  lemma BreadcrumbOfChild(path: seq<string>, name: string)
    ensures Breadcrumb(Child(path, name)) ==
      Breadcrumb(path) + (if |path| == 0 then "" else "/") + name
  {
    if |path| == 0 {
      assert Child(path, name) == [name];
    } else {
      JoinSnoc(path, name);
    }
  }

  // ---------------------------------------------------------------------
  // The explorer's state holders

  class Explorer {
    var currentPath: seq<string>
    var selectedFile: Option<string>

    constructor ()
      ensures currentPath == [] && selectedFile == None
    {
      currentPath := [];
      selectedFile := None;
    }

    /** `getCurrentItems()` (components/FileExplorer.tsx:52-61): the loop
        that walks the path from the root of the mock tree. */
    method GetCurrentItems() returns (items: seq<FileNode>)
      ensures items == Resolve(MockFs(), currentPath)
    {
      items := MockFs();
      for i := 0 to |currentPath|
        invariant Resolve(items, currentPath[i..]) == Resolve(MockFs(), currentPath)
      {
        var found := FindByName(items, currentPath[i]);
        assert currentPath[i..][1..] == currentPath[i + 1..];
        if found.Some? && found.value.children.Present? {
          items := found.value.children.items;
        }
      }
      assert currentPath[|currentPath|..] == [];
    }

    /** `navigateTo(name)` (components/FileExplorer.tsx:63-65). */
    method NavigateTo(name: string)
      modifies this
      ensures currentPath == Child(old(currentPath), name)
      ensures selectedFile == old(selectedFile)
    {
      currentPath := Child(currentPath, name);
    }

    /** `goBack()` (components/FileExplorer.tsx:67-69). */
    method GoBack()
      modifies this
      ensures currentPath == Parent(old(currentPath))
      ensures selectedFile == old(selectedFile)
    {
      currentPath := Parent(currentPath);
    }

    /** Whether the back button is enabled (components/FileExplorer.tsx:74). */
    function CanGoBack(): (r: bool)
      reads this
      ensures r <==> Parent(currentPath) != currentPath
    {
      |currentPath| != 0
    }

    /** A single click selects the item (components/FileExplorer.tsx:87). */
    method Select(name: string)
      modifies this
      ensures selectedFile == Some(name) && currentPath == old(currentPath)
    {
      selectedFile := Some(name);
    }

    /** The double-click handler: it opens a folder and selects a file
        (components/FileExplorer.tsx:86). A browser fires the click handler
        twice before it, so the whole gesture is `Select(item.name)` twice
        followed by `Activate(item)`. */
    method Activate(item: FileNode)
      modifies this
      ensures item.kind == Folder ==>
        currentPath == Child(old(currentPath), item.name) && selectedFile == old(selectedFile)
      ensures item.kind == File ==>
        currentPath == old(currentPath) && selectedFile == Some(item.name)
    {
      if item.kind == Folder {
        NavigateTo(item.name);
      } else {
        Select(item.name);
      }
    }
  }
}
