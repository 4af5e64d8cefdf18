/** The group browsers of pyiron_gui/project/project_browser.py: `HasGroupsBrowser` and the classes
    derived from it. The Python class hierarchy becomes one class `Browser` whose constant `variant`
    says which Python class it stands for; each overridden method branches on it. */
module Browsers {
  import opened Store
  import opened PosixPath
  import opened Wrapper
  import opened Navigation

  /** The Python class a browser was created as. */
  datatype Variant =
    | HasGroupsBrowser
    | HasGroupsBrowserWithHistoryPath
    | HasGroupBrowserWithOutput
    | ProjectBrowser
    | DataContainerGUI

  /** Variants whose `project` setter keeps the selection and cuts the breadcrumb instead. */
  predicate HasBreadcrumb(v: Variant) {
    v == HasGroupsBrowserWithHistoryPath || v == DataContainerGUI
  }

  /** Variants whose `_update_project_worker` may wrap the entered node. */
  predicate HasOutput(v: Variant) {
    v == HasGroupBrowserWithOutput || v == ProjectBrowser || v == DataContainerGUI
  }

  const DefaultNodeFilter: seq<string> := ["NAME", "TYPE", "VERSION", "HDF_VERSION"]
  const DefaultFileExtFilter: seq<string> := [".h5", ".db"]

  // ---- listings ----

  /** The list comprehension `[x for x in xs if x not in drop]`. */
  function Without(xs: seq<string>, drop: seq<string>): (r: seq<string>)
    ensures |r| <= |xs|
    ensures forall x :: x in r <==> x in xs && x !in drop
  {
    if xs == [] then []
    else if xs[0] in drop then Without(xs[1..], drop)
    else [xs[0]] + Without(xs[1..], drop)
  }

  /** `ys` is `xs` with some entries left out, the rest in their original order. */
  predicate IsSubsequence(ys: seq<string>, xs: seq<string>)
    decreases |xs|
  {
    if ys == [] then true
    else if xs == [] then false
    else if ys[0] == xs[0] then IsSubsequence(ys[1..], xs[1..])
    else IsSubsequence(ys, xs[1..])
  }

  /** Filtering keeps the order of what it keeps. */
  lemma {:induction false} WithoutKeepsOrder(xs: seq<string>, drop: seq<string>)
    ensures IsSubsequence(Without(xs, drop), xs)
    decreases |xs|
  {
    if xs != [] {
      WithoutKeepsOrder(xs[1..], drop);
      if xs[0] !in drop {
        assert Without(xs, drop)[1..] == Without(xs[1..], drop);
      } else {
        SkipHead(Without(xs, drop), xs);
      }
    }
  }

  lemma {:induction false} SkipHead(ys: seq<string>, xs: seq<string>)
    requires xs != [] && IsSubsequence(ys, xs[1..])
    ensures IsSubsequence(ys, xs)
    decreases |xs|, 0
  {
    if ys != [] && ys[0] == xs[0] {
      DropFirst(ys, xs[1..]);
    }
  }

  lemma {:induction false} DropFirst(ys: seq<string>, xs: seq<string>)
    requires ys != [] && IsSubsequence(ys, xs)
    ensures IsSubsequence(ys[1..], xs)
    decreases |xs|, 1
  {
    if ys[0] == xs[0] {
      SkipHead(ys[1..], xs);
    } else {
      DropFirst(ys, xs[1..]);
      SkipHead(ys[1..], xs);
    }
  }

  /** `_list_nodes`: every node under `_show_all`, otherwise the nodes not in `_node_filter`. */
  function ListNodes(nodes: seq<string>, showAll: bool, nodeFilter: seq<string>): (r: seq<string>)
    ensures showAll ==> r == nodes
    ensures !showAll ==> forall x :: x in r <==> x in nodes && x !in nodeFilter
  {
    if showAll then nodes else Without(nodes, nodeFilter)
  }

  predicate EndsWith(s: string, suffix: string) {
    |suffix| <= |s| && s[|s| - |suffix|..] == suffix
  }

  /** `s.endswith(tuple(suffixes))`. */
  predicate EndsWithAny(s: string, suffixes: seq<string>) {
    exists i :: 0 <= i < |suffixes| && EndsWith(s, suffixes[i])
  }

  /** `[f for f in files if not f.endswith(tuple(exts))]`. */
  function DropExtensions(files: seq<string>, exts: seq<string>): (r: seq<string>)
    ensures |r| <= |files|
    ensures forall f :: f in r <==> f in files && !EndsWithAny(f, exts)
  {
    if files == [] then []
    else if EndsWithAny(files[0], exts) then DropExtensions(files[1..], exts)
    else [files[0]] + DropExtensions(files[1..], exts)
  }

  /** `_list_files`: nothing when the position has no `list_files`; every file under `_show_all`;
      the files without a filtered extension when the position is a Project and `_show_files` is
      set; nothing otherwise. */
  function ListFiles(o: Obj, showAll: bool, showFiles: bool, exts: seq<string>): (r: seq<string>)
    ensures Files(o).Err? ==> r == []
    ensures Files(o).Ok? && showAll ==> r == Files(o).value
    ensures Files(o).Ok? && !showAll && IsProject(o) && showFiles ==>
      forall f :: f in r <==> f in Files(o).value && !EndsWithAny(f, exts)
    ensures !showAll && !(IsProject(o) && showFiles) ==> r == []
  {
    match Files(o)
    case Err(_) => []
    case Ok(files) =>
      if showAll then files
      else if IsProject(o) && showFiles then DropExtensions(files, exts)
      else []
  }

  /** The entries shown as group buttons: a Project shows its nodes among the groups. */
  function GroupEntries(isProject: bool, groups: seq<string>, nodes: seq<string>): seq<string> {
    if isProject then groups + nodes else groups
  }

  /** The entries shown as node buttons: other sources show their nodes after the files. */
  function NodeEntries(isProject: bool, files: seq<string>, nodes: seq<string>): seq<string> {
    if isProject then files else files + nodes
  }

  /** Whatever the source, every group, node and file is shown exactly once, as one kind of button
      or the other. */
  lemma EntriesPartition(isProject: bool, groups: seq<string>, nodes: seq<string>, files: seq<string>)
    ensures multiset(GroupEntries(isProject, groups, nodes) + NodeEntries(isProject, files, nodes)) ==
      multiset(groups) + multiset(nodes) + multiset(files)
    ensures isProject ==> forall n :: n in nodes ==> n in GroupEntries(isProject, groups, nodes)
    ensures !isProject ==> forall n :: n in nodes ==> n in NodeEntries(isProject, files, nodes)
  {
  }

  // ---- DisplayOutputGUI: a list of strings ----

  /** `"".join(lines)`. */
  function Concat(lines: seq<string>): string {
    if lines == [] then "" else Concat(lines[..|lines| - 1]) + lines[|lines| - 1]
  }

  const MaxLines := 2000
  const Skipped := " .... file too long: skipped ...."

  /** `_output_conv` on a list of strings: joined whole when shorter than 2000 entries, else the
      first 2000 joined and followed by a line break (`eol`, the platform's `os.linesep`) and a note. */
  function OutputLines(lines: seq<string>, eol: string): string {
    if |lines| < MaxLines then Concat(lines)
    else Concat(lines[..MaxLines]) + eol + Skipped
  }

  lemma {:induction false} ConcatAppend(a: seq<string>, b: seq<string>)
    ensures Concat(a + b) == Concat(a) + Concat(b)
    decreases |b|
  {
    if b != [] {
      ConcatAppend(a, b[..|b| - 1]);
      assert (a + b)[..|a + b| - 1] == a + b[..|b| - 1];
    } else {
      assert a + b == a;
    }
  }

  /** The output starts with the first (at most) 2000 lines joined; a long list is marked as cut. */
  lemma OutputLinesPrefix(lines: seq<string>, eol: string)
    ensures var keep := if |lines| < MaxLines then |lines| else MaxLines;
      var out := OutputLines(lines, eol);
      |Concat(lines[..keep])| <= |out| && out[..|Concat(lines[..keep])|] == Concat(lines[..keep])
    ensures |lines| >= MaxLines ==> EndsWith(OutputLines(lines, eol), Skipped)
  {
    if |lines| < MaxLines {
      assert lines[..|lines|] == lines;
    } else {
      var out := OutputLines(lines, eol);
      assert out[|out| - |Skipped|..] == Skipped;
    }
  }

  /** Lines past the 2000th never reach the output, and below that nothing is lost: the output of a
      short list is all of it joined, and appending to a list that is already cut changes nothing. */
  lemma OutputLinesCut(lines: seq<string>, more: seq<string>, eol: string)
    ensures |lines| < MaxLines ==> OutputLines(lines, eol) == Concat(lines)
    ensures |lines| >= MaxLines ==> OutputLines(lines + more, eol) == OutputLines(lines, eol)
  {
    if |lines| >= MaxLines {
      assert (lines + more)[..MaxLines] == lines[..MaxLines];
    }
  }

  // ---- the `_update_project_worker` of the browsers with an output area ----

  /** `to_object()` of a position; a wrapper forwards it to the wrapped object. */
  function ToObject(o: Obj): Result<Item> {
    if o.Plain? then o.item.toObject else o.wrapped.toObject
  }

  /** The position `HasGroupBrowserWithOutput._update_project_worker` moves to: `position[rel]`, wrapped
      with `PyironWrapper` when "TYPE" is among its nodes and `to_object()` does not raise
      ValueError. Errors of the lookup, of `list_nodes` and other errors of `to_object` propagate. */
  function Resolve(o: Obj, rel: string, cwd: string): (r: Result<Obj>)
    ensures GetItem(o, rel, cwd).Err? ==> r == GetItem(o, rel, cwd)
    ensures GetItem(o, rel, cwd).Ok? && !IsHasGroups(GetItem(o, rel, cwd).value) ==> r == Err(AttributeError)
    ensures r.Ok? ==> IsHasGroups(r.value)
    ensures r.Ok? ==> var n := GetItem(o, rel, cwd).value;
      r.value == (if "TYPE" in Nodes(n).value && ToObject(n).Ok? then PyironWrapper(ToObject(n).value, Some(o), rel) else n)
  {
    match GetItem(o, rel, cwd)
    case Err(e) => Err(e)
    case Ok(n) =>
      match Nodes(n)
      case Err(e) => Err(e)
      case Ok(nodes) =>
        if "TYPE" !in nodes then Ok(n)
        else
          match ToObject(n)
          case Ok(obj) => Ok(PyironWrapper(obj, Some(o), rel))
          case Err(e) => if e == ValueError then Ok(n) else Err(e)
  }

  /** The outcome of entering a path in a `ProjectBrowser`. */
  datatype Outcome = Moved | Stayed | Printed(message: string) | Raised(exc: Exc)

  /** The path `ProjectBrowser._update_project` hands to its worker: an absolute path relative to
      the current position's path, a relative one as given; None when the position has no path. */
  function WorkerPath(path: string, here: Obj, cwd: string): (r: Option<string>)
    ensures r.None? <==> IsAbs(path) && PathAttr(here).Err?
    ensures !IsAbs(path) ==> r == Some(path)
  {
    if !IsAbs(path) then Some(path)
    else if PathAttr(here).Err? then None
    else Some(RelPath(path, PathAttr(here).value, cwd).value)
  }

  /** How the worker of `ProjectBrowser` ends for a resolved target: a ValueError or AttributeError
      is printed as "No valid path", other errors propagate, a fixed position makes the setter raise
      RuntimeError; otherwise the browser moves, and the refresh that follows raises AttributeError
      (printed as "No valid path") when the new position has no path. */
  function WorkerOutcome(target: Result<Obj>, fixed: bool): (out: Outcome)
    ensures out.Printed? ==> out.message == "No valid path"
    ensures out.Moved? ==> target.Ok? && !fixed && PathAttr(target.value).Ok?
    ensures target.Err? ==> (out.Printed? <==> target.exc == ValueError || target.exc == AttributeError)
    ensures target.Ok? && PathAttr(target.value).Err? ==> out != Moved
  {
    match target
    case Err(e) => if e == ValueError || e == AttributeError then Printed("No valid path") else Raised(e)
    case Ok(p) => if fixed then Raised(RuntimeError) else if PathAttr(p).Err? then Printed("No valid path") else Moved
  }

  /** Every field of a browser, for stating what an operation leaves alone. */
  datatype State = State(
    project: Obj, history: seq<Obj>, idx: nat, clicked: seq<string>, data: Option<Obj>,
    fixPosition: bool, showAll: bool, showFiles: bool, nodeFilter: seq<string>,
    fileExtFilter: seq<string>, pathList: seq<string>, clickedFiles: seq<string>, hidePath: bool)

  /** Entering a HasGroups position keeps every history entry a HasGroups. */
  lemma EnterKeepsGroups(c: Cursor<Obj>, p: Obj)
    requires c.Valid() && IsHasGroups(p)
    requires forall i :: 0 <= i < |c.history| ==> IsHasGroups(c.history[i])
    ensures forall i :: 0 <= i < |Enter(c, p).history| ==> IsHasGroups(Enter(c, p).history[i])
  {
  }

  /** The filters and switches of a browser, which navigation leaves alone. */
  datatype Config = Config(fixPosition: bool, showAll: bool, showFiles: bool, nodeFilter: seq<string>,
    fileExtFilter: seq<string>, hidePath: bool)

  function SettingsOf(st: State): Config {
    Config(st.fixPosition, st.showAll, st.showFiles, st.nodeFilter, st.fileExtFilter, st.hidePath)
  }

  class Browser {
    const variant: Variant
    /** The process's working directory, which `os.path.relpath` consults for relative paths. */
    const cwd: string
    var project: Obj
    var history: seq<Obj>
    var idx: nat
    var clicked: seq<string>
    var data: Option<Obj>
    var fixPosition: bool
    var showAll: bool
    var showFiles: bool
    var nodeFilter: seq<string>
    var fileExtFilter: seq<string>
    /** `_path_list` of the breadcrumb variants. */
    var pathList: seq<string>
    /** `_clickedFiles` of `ProjectBrowser`, which only `_reset_data` sets. */
    var clickedFiles: seq<string>
    var hidePath: bool

    ghost predicate Valid()
      reads this
    {
      idx < |history| && history[idx] == project && |clicked| <= 1 &&
      forall i :: 0 <= i < |history| ==> IsHasGroups(history[i])
    }

    function Hist(): Cursor<Obj>
      reads this
    {
      Cursor(history, idx)
    }

    ghost function St(): State
      reads this
    {
      State(project, history, idx, clicked, data, fixPosition, showAll, showFiles, nodeFilter,
        fileExtFilter, pathList, clickedFiles, hidePath)
    }

    /** `HasGroupsBrowser(project)` and its subclasses with their default arguments. */
    constructor(variant: Variant, project: Obj, cwd: string)
      requires IsHasGroups(project)
      ensures Valid() && this.variant == variant && this.cwd == cwd
      ensures St() == State(project, [project], 0, [], None, false, false, true, DefaultNodeFilter,
        DefaultFileExtFilter, if HasBreadcrumb(variant) then ["/"] else [], [], variant == ProjectBrowser)
    {
      this.variant := variant;
      this.cwd := cwd;
      this.project := project;
      data := None;
      history := [project];
      idx := 0;
      clicked := [];
      fileExtFilter := DefaultFileExtFilter;
      nodeFilter := DefaultNodeFilter;
      showAll := false;
      showFiles := true;
      fixPosition := false;
      pathList := if HasBreadcrumb(variant) then ["/"] else [];
      clickedFiles := [];
      hidePath := variant == ProjectBrowser;
    }

    /** `ProjectBrowser(project, fix_path=..., show_files=...)`. */
    constructor Configured(project: Obj, cwd: string, fixPath: bool, showFiles: bool)
      requires IsHasGroups(project)
      ensures Valid() && variant == ProjectBrowser && this.cwd == cwd
      ensures St() == State(project, [project], 0, [], None, fixPath, false, showFiles, DefaultNodeFilter,
        DefaultFileExtFilter, [], [], true)
    {
      variant := ProjectBrowser;
      this.cwd := cwd;
      this.project := project;
      data := None;
      history := [project];
      idx := 0;
      clicked := [];
      fileExtFilter := DefaultFileExtFilter;
      nodeFilter := DefaultNodeFilter;
      showAll := false;
      this.showFiles := showFiles;
      fixPosition := fixPath;
      pathList := [];
      clickedFiles := [];
      hidePath := true;
    }

    /** Creating a browser: TypeError for a position that is not a HasGroups, and for a
        `ProjectBrowser` the AttributeError of reading the position's `path`. */
    static method Create(variant: Variant, project: Obj, cwd: string) returns (r: Result<Browser>)
      ensures !IsHasGroups(project) ==> r == Err(TypeError)
      ensures IsHasGroups(project) && variant == ProjectBrowser && PathAttr(project).Err? ==> r == Err(AttributeError)
      ensures r.Ok? ==>
        fresh(r.value) && r.value.Valid() && r.value.variant == variant &&
        r.value.history == [project] && r.value.project == project
    {
      if !IsHasGroups(project) {
        return Err(TypeError);
      }
      if variant == ProjectBrowser && PathAttr(project).Err? {
        return Err(AttributeError);
      }
      var b := new Browser(variant, project, cwd);
      return Ok(b);
    }

    // ---- what the browser shows ----

    /** `browser.groups`: every position a browser holds answers `list_groups()` without raising;
        a wrapper around an object without groups shows none. */
    function GroupList(): (r: seq<string>)
      reads this
      requires Valid()
      ensures Groups(project) == Ok(r)
      ensures project.Wrapped? && project.wrapped.listing.None? ==> r == []
    {
      Groups(project).value
    }

    /** `browser.nodes`. */
    function NodeList(): (r: seq<string>)
      reads this
      requires Valid()
      ensures showAll ==> r == Nodes(project).value
      ensures !showAll ==> forall x :: x in r <==> x in Nodes(project).value && x !in nodeFilter
    {
      ListNodes(Nodes(project).value, showAll, nodeFilter)
    }

    /** `browser.files`: only files of the current position; a file with a filtered extension only
        under "show all", and outside "show all" files only for a Project with files shown. */
    function FileList(): (r: seq<string>)
      reads this
      ensures forall f :: f in r ==> Files(project).Ok? && f in Files(project).value
      ensures !showAll ==> forall f :: f in r ==> !EndsWithAny(f, fileExtFilter)
      ensures !showAll && !(IsProject(project) && showFiles) ==> r == []
      ensures Files(project).Ok? && showAll ==> r == Files(project).value
    {
      ListFiles(project, showAll, showFiles, fileExtFilter)
    }

    /** The `data` property: the selected value; a `ProjectBrowser` standing on a wrapper with
        nothing selected answers with the wrapped object. */
    function Data(): (r: Option<Obj>)
      reads this
      ensures data.Some? ==> r == data
      ensures variant != ProjectBrowser ==> r == data
      ensures variant == ProjectBrowser && data.None? ==>
        r == (if project.Wrapped? then Some(Plain(project.wrapped)) else None)
    {
      if data.Some? then data
      else if variant == ProjectBrowser && project.Wrapped? then Some(Plain(project.wrapped))
      else None
    }

    /** The `path_list` property of the breadcrumb variants. */
    function PathListView(): (r: seq<string>)
      reads this
      requires HasBreadcrumb(variant)
      ensures r == PathView(pathList, idx)
      ensures |pathList| > idx ==> |r| == idx + 1
    {
      Take(pathList, idx + 1)
    }

    // ---- navigation ----

    /** The `project` setter. It raises RuntimeError while the position is fixed and TypeError for
        a value that is not a HasGroups; otherwise it enters the new position. */
    method SetProject(p: Obj) returns (err: Option<Exc>)
      requires Valid()
      modifies this
      ensures Valid()
      ensures old(fixPosition) ==> err == Some(RuntimeError) && St() == old(St())
      ensures !old(fixPosition) && !IsHasGroups(p) ==> err == Some(TypeError) && St() == old(St())
      ensures !old(fixPosition) && IsHasGroups(p) ==> err == None && Entered(old(St()), p)
    {
      if fixPosition {
        return Some(RuntimeError);
      }
      if !IsHasGroups(p) {
        return Some(TypeError);
      }
      EnterPosition(p);
      return None;
    }

    /** How the setter changes everything but the breadcrumb when it accepts `p`: the cursor moves
        on, forward history is dropped and `p` appended, the settings and `_clickedFiles` stay, and
        the plain setter clears the selection while the breadcrumb variants keep it. */
    ghost predicate Advanced(before: State, p: Obj)
      reads this
      requires before.idx < |before.history|
    {
      project == p && Hist() == Enter(Cursor(before.history, before.idx), p) &&
      Settings() == SettingsOf(before) &&
      clickedFiles == before.clickedFiles &&
      clicked == (if HasBreadcrumb(variant) then before.clicked else []) &&
      data == (if HasBreadcrumb(variant) then before.data else None)
    }

    /** How the setter changes the state when it accepts `p`: `Advanced`, and the breadcrumb
        variants cut `_path_list` to the new cursor (`_path_list[:idx]`). */
    ghost predicate Entered(before: State, p: Obj)
      reads this
      requires before.idx < |before.history|
    {
      Advanced(before, p) &&
      pathList == (if HasBreadcrumb(variant) then Take(before.pathList, idx) else before.pathList)
    }

    ghost function Settings(): Config
      reads this
    {
      Config(fixPosition, showAll, showFiles, nodeFilter, fileExtFilter, hidePath)
    }

    method EnterPosition(p: Obj)
      requires Valid() && IsHasGroups(p)
      modifies this
      ensures Valid() && Entered(old(St()), p)
    {
      PushHistory(p);
      if !HasBreadcrumb(variant) {
        data := None;
        clicked := [];
      }
      if HasBreadcrumb(variant) {
        pathList := Take(pathList, idx);
      }
    }

    /** The cursor step of the setter: the history is cut after the cursor and `p` appended. */
    method PushHistory(p: Obj)
      requires Valid() && IsHasGroups(p)
      modifies this
      ensures Valid() && project == p && Hist() == Enter(old(Hist()), p)
      ensures Settings() == old(Settings()) && clicked == old(clicked) && data == old(data)
      ensures pathList == old(pathList) && clickedFiles == old(clickedFiles)
    {
      ghost var next := Enter(Hist(), p);
      EnterKeepsGroups(Hist(), p);
      project := p;
      idx := idx + 1;
      history := history[..idx] + [project];
      assert Hist() == next;
    }

    /** The error of the `refresh()` that follows a move: a `ProjectBrowser` rebuilds its path
        buttons from `path`, which raises AttributeError at a position without one. */
    function RefreshError(p: Obj): (err: Option<Exc>)
      ensures err.Some? <==> variant == ProjectBrowser && PathAttr(p).Err?
      ensures err.Some? ==> err.value == AttributeError
    {
      if variant == ProjectBrowser && PathAttr(p).Err? then Some(AttributeError) else None
    }

    /** `_load_history(k)`: jump to the k-th recorded position and clear the selection; the
        refresh that follows raises at a `ProjectBrowser` position without `path`, after the move. */
    method LoadHistory(k: nat) returns (err: Option<Exc>)
      requires Valid() && k < |history|
      modifies this
      ensures Valid()
      ensures Hist() == Load(old(Hist()), k)
      ensures St() == old(St()).(project := history[k], idx := k, clicked := [], data := None)
      ensures err == RefreshError(history[k])
    {
      idx := k;
      project := history[idx];
      data := None;
      clicked := [];
      err := RefreshError(project);
    }

    /** `_go_back`; the back button is disabled on the first entry, which makes that a precondition. */
    method GoBack() returns (err: Option<Exc>)
      requires Valid() && idx > 0
      modifies this
      ensures Valid()
      ensures Hist() == Back(old(Hist()))
      ensures St() == old(St()).(project := history[idx], idx := idx, clicked := [], data := None)
      ensures err == RefreshError(project)
    {
      err := LoadHistory(idx - 1);
    }

    /** `_go_forward`; the forward button is disabled on the last entry. */
    method GoForward() returns (err: Option<Exc>)
      requires Valid() && idx + 1 < |history|
      modifies this
      ensures Valid()
      ensures Hist() == Forward(old(Hist()))
      ensures St() == old(St()).(project := history[idx], idx := idx, clicked := [], data := None)
      ensures err == RefreshError(project)
    {
      err := LoadHistory(idx + 1);
    }

    /** `_update_project(name)` of every variant except `ProjectBrowser`: look `name` up in the
        current position (through the output worker where there is one) and enter the result;
        the breadcrumb variants then append `name` to `_path_list`. Errors propagate. */
    method UpdateProject(name: string) returns (err: Option<Exc>)
      requires Valid() && variant != ProjectBrowser
      modifies this
      ensures Valid()
      ensures var target := if HasOutput(variant) then Resolve(old(project), name, cwd) else GetItem(old(project), name, cwd);
        (target.Err? ==> err == Some(target.exc) && St() == old(St())) &&
        (target.Ok? && old(fixPosition) ==> err == Some(RuntimeError) && St() == old(St())) &&
        (target.Ok? && !old(fixPosition) && !IsHasGroups(target.value) ==> err == Some(TypeError) && St() == old(St())) &&
        (target.Ok? && !old(fixPosition) && IsHasGroups(target.value) ==>
          err == None && Advanced(old(St()), target.value) &&
          pathList == (if HasBreadcrumb(variant) then PathEnter(old(pathList), old(idx), name) else old(pathList)))
    {
      var target := if HasOutput(variant) then Resolve(project, name, cwd) else GetItem(project, name, cwd);
      if target.Err? {
        return Some(target.exc);
      }
      err := SetProject(target.value);
      if err == None && HasBreadcrumb(variant) {
        pathList := pathList + [name];
      }
    }

    /** `_select_node(node)`: clicking the selected node deselects it; clicking another selects it
        and fetches `position[node]`, dropping the selection again when the fetch raises KeyError,
        IOError or ValueError. Other errors propagate with the node left selected. */
    method SelectNode(node: string) returns (err: Option<Exc>)
      requires Valid()
      modifies this
      ensures Valid()
      ensures node in old(clicked) ==> err == None && St() == old(St()).(clicked := [], data := None)
      ensures node !in old(clicked) ==> match GetItem(project, node, cwd)
        case Ok(v) => err == None && St() == old(St()).(clicked := [node], data := Some(v))
        case Err(e) =>
          if e == KeyError || e == IOError || e == ValueError then
            err == None && St() == old(St()).(clicked := [], data := None)
          else
            err == Some(e) && St() == old(St()).(clicked := [node])
    {
      if node in clicked {
        clicked := [];
        data := None;
        return None;
      }
      clicked := [node];
      var r := GetItem(project, node, cwd);
      match r
      case Ok(v) =>
        data := Some(v);
        return None;
      case Err(e) =>
        if e == KeyError || e == IOError || e == ValueError {
          clicked := [];
          data := None;
          return None;
        }
        return Some(e);
    }

    /** The `data` setter of `DataContainerGUI`: writes the value under the selected node into the
        current container, then selects the node afresh, which reads the value back. ValueError when
        no listed node is selected; other variants have no setter. */
    method SetData(val: Obj) returns (err: Option<Exc>)
      requires Valid()
      modifies this
      ensures Valid()
      ensures variant != DataContainerGUI ==> err == Some(AttributeError) && St() == old(St())
      ensures variant == DataContainerGUI && !(|old(clicked)| > 0 && old(clicked)[0] in Nodes(old(project)).value) ==>
        err == Some(ValueError) && St() == old(St())
      ensures (variant == DataContainerGUI && |old(clicked)| > 0 && old(clicked)[0] in Nodes(old(project)).value &&
               SetItem(old(project), old(clicked)[0], val).Ok?) ==>
          var written := SetItem(old(project), old(clicked)[0], val).value;
          err == None && GetItem(written, old(clicked)[0], cwd) == Ok(val) && Nodes(written) == Nodes(old(project)) &&
          St() == old(St()).(project := written, history := old(history)[old(idx) := written], data := Some(val))
      ensures (variant == DataContainerGUI && |old(clicked)| > 0 && old(clicked)[0] in Nodes(old(project)).value &&
               SetItem(old(project), old(clicked)[0], val).Err?) ==>
          err == Some(SetItem(old(project), old(clicked)[0], val).exc) && St() == old(St())
    {
      if variant != DataContainerGUI {
        return Some(AttributeError);
      }
      if !(|clicked| > 0 && clicked[0] in Nodes(project).value) {
        return Some(ValueError);
      }
      err := WriteSelected(val);
    }

    /** The `data` setter once a node is selected: `project[node] = val`, whose error propagates
        with nothing changed; then the selection is cleared and the node selected afresh. */
    method WriteSelected(val: Obj) returns (err: Option<Exc>)
      requires Valid() && |clicked| > 0
      modifies this
      ensures Valid()
      ensures SetItem(old(project), old(clicked)[0], val).Err? ==>
        err == Some(SetItem(old(project), old(clicked)[0], val).exc) && St() == old(St())
      ensures SetItem(old(project), old(clicked)[0], val).Ok? ==>
        var written := SetItem(old(project), old(clicked)[0], val).value;
        err == None && GetItem(written, old(clicked)[0], cwd) == Ok(val) && Nodes(written) == Nodes(old(project)) &&
        St() == old(St()).(project := written, history := old(history)[old(idx) := written], data := Some(val))
    {
      var node := clicked[0];
      var written := SetItem(project, node, val);
      if written.Err? {
        return Some(written.exc);
      }
      assert GetItem(written.value, node, cwd) == Ok(val);
      project := written.value;
      history := history[idx := project];
      clicked := [];
      err := SelectNode(node);
    }

    // ---- ProjectBrowser ----

    /** `ProjectBrowser._update_project(path)` for a string: an absolute path is first made relative
        to the current position's path; "." stays put and refreshes, which raises AttributeError
        at a position without `path`; otherwise the output worker runs. A ValueError or
        AttributeError from it is reported as "No valid path": with nothing changed when the
        target cannot be resolved, and after the move when the refresh the setter runs finds no
        path on the new position. */
    method UpdateProjectPath(path: string) returns (out: Outcome)
      requires Valid() && variant == ProjectBrowser
      modifies this
      ensures Valid()
      ensures IsAbs(path) && PathAttr(old(project)).Err? ==> out == Raised(AttributeError) && St() == old(St())
      ensures path == "." ==>
        St() == old(St()) && out == (if PathAttr(old(project)).Ok? then Stayed else Raised(AttributeError))
      ensures IsAbs(path) && PathAttr(old(project)).Ok? && AbsParts(path, cwd) == AbsParts(PathAttr(old(project)).value, cwd) ==>
        out == Stayed && St() == old(St())
      ensures WorkerPath(path, old(project), cwd) == Some(".") ==>
        St() == old(St()) && out == (if RefreshError(old(project)).Some? then Raised(AttributeError) else Stayed)
      ensures WorkerPath(path, old(project), cwd).Some? && WorkerPath(path, old(project), cwd).value != "." ==>
        var target := Resolve(old(project), WorkerPath(path, old(project), cwd).value, cwd);
        out == WorkerOutcome(target, old(fixPosition)) &&
        if target.Ok? && !old(fixPosition) then project == target.value && Entered(old(St()), target.value)
        else St() == old(St())
      ensures out.Moved? ==> PathAttr(project).Ok? && Entered(old(St()), project) && clicked == [] && data == None
      ensures out.Stayed? || out.Raised? ==> St() == old(St())
      ensures out.Printed? ==> out.message == "No valid path"
    {
      var rel := path;
      if IsAbs(path) {
        var here := PathAttr(project);
        if here.Err? {
          return Raised(here.exc);
        }
        RelPathSame(path, here.value, cwd);
        var r := RelPath(path, here.value, cwd);
        rel := r.value;
      }
      if rel == "." {
        var refreshed := RefreshError(project);
        if refreshed.Some? {
          return Raised(refreshed.value);
        }
        return Stayed;
      }
      var target := Resolve(project, rel, cwd);
      if target.Err? {
        if target.exc == ValueError || target.exc == AttributeError {
          return Printed("No valid path");
        }
        return Raised(target.exc);
      }
      var err := SetProject(target.value);
      if err.Some? {
        return Raised(err.value);
      }
      if PathAttr(project).Err? {
        return Printed("No valid path");
      }
      return Moved;
    }

    /** The "Set Path" button: nothing while the position is fixed, "No path given" for an empty
        text, else the text is entered as a path. */
    method SetPathboxPath(text: string) returns (out: Outcome)
      requires Valid() && variant == ProjectBrowser
      modifies this
      ensures Valid()
      ensures old(fixPosition) ==> out == Stayed && St() == old(St())
      ensures !old(fixPosition) && text == "" ==> out == Printed("No path given") && St() == old(St())
    {
      if fixPosition {
        return Stayed;
      }
      if text == "" {
        return Printed("No path given");
      }
      out := UpdateProjectPath(text);
    }

    /** `_reset_data`: clears `_clickedFiles` and the data but not the selected nodes. */
    method ResetData()
      requires Valid() && variant == ProjectBrowser
      modifies this
      ensures Valid()
      ensures St() == old(St()).(clickedFiles := [], data := None)
    {
      clickedFiles := [];
      data := None;
    }

    /** The `_initial_project` setter: records `p` as the first history entry. */
    method SetInitialProject(p: Obj) returns (err: Option<Exc>)
      requires Valid()
      modifies this
      ensures Valid()
      ensures !IsHasGroups(p) ==> err == Some(TypeError) && St() == old(St())
      ensures IsHasGroups(p) ==> err == None && St() == old(St()).(history := [p] + old(history), idx := old(idx) + 1)
    {
      if !IsHasGroups(p) {
        return Some(TypeError);
      }
      history := [p] + history;
      idx := idx + 1;
      return None;
    }

    /** `_gen_pathbox_path_list` of `ProjectBrowser`: every ancestor of the normalised current path,
        from "/" down to the path itself; at the root the list is [""]. */
    method PathboxPathList() returns (r: Result<seq<string>>)
      requires variant == ProjectBrowser
      ensures PathAttr(project).Err? ==> r == Err(AttributeError)
      ensures PathAttr(project).Ok? ==>
        var here := PathAttr(project).value;
        r == Ok(Ancestors(RootOf(here, cwd), AbsParts(here, cwd)))
    {
      var here := PathAttr(project);
      if here.Err? {
        return Err(AttributeError);
      }
      var tmppath := AbsPath(here.value, cwd);
      var list := AncestorList(tmppath);
      AncestorsOfAbsPath(here.value, cwd);
      return Ok(list);
    }

    // ---- copies ----

    /** `copy()`. Every variant but `ProjectBrowser` builds a fresh browser on the current position
        and copies the filters, the lock, the history and the cursor; the breadcrumb starts over.
        `ProjectBrowser` builds one with the same lock and `_show_files` and seeds its history with
        the first entry and the current position; building it reads the position's `path`. */
    method Copy() returns (r: Result<Browser>)
      requires Valid()
      ensures variant == ProjectBrowser && PathAttr(project).Err? ==> r == Err(AttributeError)
      ensures variant != ProjectBrowser || PathAttr(project).Ok? ==> r.Ok?
      ensures r.Ok? ==>
        fresh(r.value) && r.value.Valid() && r.value.variant == variant &&
        r.value.project == project && r.value.clicked == [] && r.value.data == None
      ensures r.Ok? && variant != ProjectBrowser ==>
        r.value.Hist() == Hist() && r.value.Settings() == Settings().(hidePath := false) &&
        r.value.pathList == (if HasBreadcrumb(variant) then ["/"] else [])
      ensures r.Ok? && variant == ProjectBrowser ==>
        r.value.Hist() == Cursor([history[0], project], 1) &&
        r.value.Settings() == Config(fixPosition, false, showFiles, DefaultNodeFilter, DefaultFileExtFilter, hidePath)
    {
      if variant == ProjectBrowser {
        if PathAttr(project).Err? {
          return Err(AttributeError);
        }
        var b := CopyProjectBrowser();
        return Ok(b);
      }
      var b := new Browser.CopyOf(this);
      return Ok(b);
    }

    /** `HasGroupsBrowser.__copy__`, which every variant but `ProjectBrowser` inherits: a new
        browser of the same class on the same position, given the filters, the lock and a copy of
        the history and cursor; the breadcrumb and the selection start over. */
    constructor CopyOf(other: Browser)
      requires other.Valid() && other.variant != ProjectBrowser
      ensures Valid() && variant == other.variant && cwd == other.cwd
      ensures project == other.project && clicked == [] && data == None && clickedFiles == []
      ensures Hist() == other.Hist() && Settings() == other.Settings().(hidePath := false)
      ensures pathList == (if HasBreadcrumb(variant) then ["/"] else [])
    {
      variant := other.variant;
      cwd := other.cwd;
      project := other.project;
      data := None;
      history := other.history;
      idx := other.idx;
      clicked := [];
      fileExtFilter := other.fileExtFilter;
      nodeFilter := other.nodeFilter;
      showAll := other.showAll;
      showFiles := other.showFiles;
      fixPosition := other.fixPosition;
      pathList := if HasBreadcrumb(other.variant) then ["/"] else [];
      clickedFiles := [];
      hidePath := false;
    }

    /** `ProjectBrowser.__copy__` once the position's path could be read. */
    method CopyProjectBrowser() returns (b: Browser)
      requires Valid() && variant == ProjectBrowser
      ensures fresh(b) && b.Valid() && b.variant == variant
      ensures b.project == project && b.clicked == [] && b.data == None
      ensures b.Hist() == Cursor([history[0], project], 1)
      ensures b.Settings() == Config(fixPosition, false, showFiles, DefaultNodeFilter, DefaultFileExtFilter, hidePath)
    {
      b := new Browser.Configured(project, cwd, fixPosition, showFiles);
      b.hidePath := hidePath;
      var _ := b.SetInitialProject(history[0]);
    }

    /** `copy()` as it was evidently meant for the breadcrumb variants: the breadcrumb is copied
        along with the history it describes. */
    method CopyWithBreadcrumb() returns (r: Browser)
      requires Valid() && HasBreadcrumb(variant)
      ensures fresh(r) && r.Valid() && r.variant == variant
      ensures r.project == project && r.Hist() == Hist() && r.pathList == pathList
      ensures r.Settings() == Settings().(hidePath := false)
      ensures r.PathListView() == PathListView()
    {
      r := new Browser.CopyOf(this);
      r.pathList := pathList;
    }

    /** `copy()` as written on a breadcrumb browser that has moved on from its first position: the
        copy has the original's history and cursor, but its `path_list` shows the single entry "/"
        for `idx + 1` positions, and entering `name` next shows `["/", name]` whatever trail led
        there. */
    method CopiedBreadcrumbOutOfStep(name: string) returns (r: Browser)
      requires Valid() && HasBreadcrumb(variant) && idx >= 1
      ensures r.Valid() && r.variant == variant && r.Hist() == Hist()
      ensures r.PathListView() == ["/"] && |r.PathListView()| < r.idx + 1
      ensures PathView(PathEnter(r.pathList, r.idx, name), r.idx + 1) == ["/", name]
    {
      r := new Browser.CopyOf(this);
    }
  }
}
