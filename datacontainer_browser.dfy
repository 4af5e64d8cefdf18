/** The older path-string browser of pyiron_gui/datacontainer/browser.py. Positions are addressed by
    a path string below a root container, and the selection records a path rather than a value. */
module ContainerBrowser {
  import opened Store
  import opened PosixPath
  import opened Wrapper

  /** What a button press ended with: a move or nothing, a printed message, or an exception. */
  datatype Step = Done | Printed(message: string) | Raised(exc: Exc)

  /** Where a breadcrumb button leads: the root container itself (the home button) or a path. */
  datatype Target = ToContainer(container: Obj) | ToPath(path: string)

  /** A fetch error `_on_click_file` does not catch: anything but KeyError and IOError. */
  predicate Propagates(fetched: Result<Obj>)
  {
    fetched.Err? && fetched.exc != KeyError && fetched.exc != IOError
  }

  /** The value `_on_click_file` shows: the fetched one, or nothing after a caught error. */
  function Shown(fetched: Result<Obj>): Option<Obj>
  {
    if fetched.Ok? then Some(fetched.value) else None
  }

  /** The selection toggle: clicking the selected path deselects it, any other path replaces the
      selection. */
  predicate Toggled(before: seq<string>, filepath: string, clicked: seq<string>, data: Option<string>)
  {
    (filepath in before ==> clicked == [] && data == None) &&
    (filepath !in before ==> clicked == [filepath] && data == Some(filepath))
  }

  class DataContainerBrowser {
    /** `_data_container`: the root, which the `data` setter writes into. */
    var root: Obj
    /** `_current_data_container`. */
    var current: Obj
    /** `_path`, relative to the root and without a leading '/'. */
    var path: string
    var busy: bool
    /** `_clicked_data`. */
    var clickedData: seq<string>
    /** `_data`: the path of the selected file, relative to the root. */
    var data: Option<string>
    /** The process's working directory, which `os.path.relpath` consults for relative paths. */
    const cwd: string

    /** At most one file is selected, and a selected file is the one `_data` names. The converse
        fails after the `data` setter, which clears `_clicked_data` but keeps `_data`. */
    ghost predicate Valid()
      reads this
    {
      |clickedData| <= 1 && (clickedData != [] ==> data == Some(clickedData[0]))
    }

    constructor(root: Obj, cwd: string)
      ensures Valid()
      ensures this.root == root && current == root && path == "" && !busy
      ensures clickedData == [] && data == None && this.cwd == cwd
    {
      this.root := root;
      current := root;
      path := "";
      busy := false;
      clickedData := [];
      data := None;
      this.cwd := cwd;
    }

    /** `abs_path`. */
    function AbsPathStr(): (r: string)
      reads this
      ensures IsAbs(r) && r[1..] == path
    {
      "/" + path
    }

    /** `_busy_check(flag)`: reports True and changes nothing when busy and asked to take the flag;
        otherwise sets the flag to `flag` and reports a falsy value. */
    method BusyCheck(flag: bool) returns (blocked: bool)
      modifies this
      ensures blocked <==> old(busy) && flag
      ensures busy == (if blocked then old(busy) else flag)
      ensures root == old(root) && current == old(current) && path == old(path)
      ensures clickedData == old(clickedData) && data == old(data)
    {
      if busy && flag {
        return true;
      }
      busy := flag;
      return false;
    }

    /** What `_update_project_worker(p)` does to the position, from `path0` and `current0`. */
    ghost predicate Worked(p: string, step: Step, path0: string, current0: Obj)
      reads this
    {
      (p == "/" || p == "" ==> step == Done && path == "" && current == root) &&
      (p != "/" && p != "" ==>
        var key := if p[0] == '/' then p[1..] else p;
        match GetItem(root, key, cwd)
        case Ok(c) =>
          if IsHasGroups(c) then step == Done && path == key && current == c
          else step == Printed("No valid path") && path == path0 && current == current0
        case Err(e) =>
          (if e == ValueError || e == AttributeError || e == KeyError then step == Printed("No valid path")
           else step == Raised(e)) &&
          path == path0 && current == current0)
    }

    /** `_update_project_worker(p)`: "/" and "" return to the root; otherwise one leading '/' is
        removed and the path is looked up in the root container (not the current one). A lookup
        failing with ValueError, AttributeError or KeyError, or a result without `list_nodes`,
        prints "No valid path" and changes nothing; other errors propagate. */
    method Worker(p: string) returns (step: Step)
      requires Valid()
      modifies this
      ensures Valid()
      ensures root == old(root) && busy == old(busy) && clickedData == old(clickedData) && data == old(data)
      ensures Worked(p, step, old(path), old(current))
    {
      if p == "/" || p == "" {
        path := "";
        current := root;
        return Done;
      }
      var key := p;
      if key[0] == '/' {
        key := key[1..];
      }
      var found := GetItem(root, key, cwd);
      if found.Err? {
        if found.exc == ValueError || found.exc == AttributeError || found.exc == KeyError {
          return Printed("No valid path");
        }
        return Raised(found.exc);
      }
      if !IsHasGroups(found.value) {
        return Printed("No valid path");
      }
      path := key;
      current := found.value;
      return Done;
    }

    /** `_update_project(p)` for a string: a path naming the current position is a refresh;
        otherwise the worker runs. `os.path.relpath` raises ValueError for an empty path. */
    method UpdateProject(p: string) returns (step: Step)
      requires Valid()
      modifies this
      ensures Valid()
      ensures root == old(root) && busy == old(busy) && clickedData == old(clickedData) && data == old(data)
      ensures p == "" ==> step == Raised(ValueError) && path == old(path) && current == old(current)
      ensures p != "" && AbsParts(p, cwd) == AbsParts(old(AbsPathStr()), cwd) ==>
        step == Done && path == old(path) && current == old(current)
      ensures p != "" && AbsParts(p, cwd) != AbsParts(old(AbsPathStr()), cwd) ==>
        Worked(p, step, old(path), old(current))
    {
      var rel := RelPath(p, AbsPathStr(), cwd);
      if rel.Err? {
        return Raised(rel.exc);
      }
      RelPathSame(p, AbsPathStr(), cwd);
      if rel.value == "." {
        return Done;
      }
      step := Worker(p);
    }

    /** `_update_project(container)` for a container object: it becomes the position, at path "". */
    method UpdateProjectTo(container: Obj)
      requires Valid()
      modifies this
      ensures Valid()
      ensures current == container && path == ""
      ensures root == old(root) && busy == old(busy) && clickedData == old(clickedData) && data == old(data)
    {
      current := container;
      path := "";
    }

    /** What the "Set Path" action does to the position for `text`, from `path0` and `current0`:
        "No path given" for an empty text, otherwise `_update_project` of the path it builds. */
    ghost predicate SetPathDone(text: string, step: Step, path0: string, current0: Obj)
      reads this
    {
      var here := "/" + path0;
      var target := if IsAbs(text) then text else here + "/" + text;
      (text == "" ==> step == Printed("No path given") && path == path0 && current == current0) &&
      (text != "" && AbsParts(target, cwd) == AbsParts(here, cwd) ==>
        step == Done && path == path0 && current == current0) &&
      (text != "" && AbsParts(target, cwd) != AbsParts(here, cwd) ==> Worked(target, step, path0, current0))
    }

    /** The "Set Path" button: an empty text prints "No path given"; a relative text is appended to
        `abs_path` with a '/'; an absolute text is used as it is. `target` is the path handed on to
        `_update_project`. */
    method SetPath(text: string) returns (step: Step, target: string)
      requires Valid()
      modifies this
      ensures Valid()
      ensures root == old(root) && busy == old(busy) && clickedData == old(clickedData) && data == old(data)
      ensures text == "" ==> step == Printed("No path given") && path == old(path) && current == old(current)
      ensures text != "" && IsAbs(text) ==> target == text
      ensures text != "" && !IsAbs(text) ==> target == old(AbsPathStr()) + "/" + text
      ensures text != "" && AbsParts(target, cwd) == AbsParts(old(AbsPathStr()), cwd) ==>
        step == Done && path == old(path) && current == old(current)
      ensures text != "" && AbsParts(target, cwd) != AbsParts(old(AbsPathStr()), cwd) ==>
        Worked(target, step, old(path), old(current))
    {
      if |text| == 0 {
        return Printed("No path given"), "";
      }
      target := if !IsAbs(text) then AbsPathStr() + "/" + text else text;
      step := UpdateProject(target);
    }

    /** The "Reset selection" button. */
    method ResetSelection()
      requires Valid()
      modifies this
      ensures Valid()
      ensures clickedData == [] && data == None
      ensures root == old(root) && current == old(current) && path == old(path) && busy == old(busy)
    {
      clickedData := [];
      data := None;
    }

    /** `click_option_button`: skipped while busy; otherwise the flag is taken, the button's action
        runs, and the flag is released, but only when the action returned normally. */
    method OptionButton(description: string, text: string) returns (step: Step)
      requires Valid()
      modifies this
      ensures Valid()
      ensures old(busy) ==>
        step == Done && root == old(root) && current == old(current) && path == old(path) &&
        clickedData == old(clickedData) && data == old(data) && busy
      ensures !old(busy) ==> (busy <==> step.Raised?)
      ensures !old(busy) && description == "Reset selection" ==>
        step == Done && clickedData == [] && data == None &&
        root == old(root) && current == old(current) && path == old(path)
      ensures !old(busy) && description == "Set Path" ==>
        root == old(root) && clickedData == old(clickedData) && data == old(data) &&
        SetPathDone(text, step, old(path), old(current))
      ensures !old(busy) && description != "Set Path" && description != "Reset selection" ==>
        step == Done && root == old(root) && current == old(current) && path == old(path) &&
        clickedData == old(clickedData) && data == old(data)
    {
      var blocked := BusyCheck(true);
      if blocked {
        return Done;
      }
      step := Done;
      if description == "Set Path" {
        var target;
        step, target := SetPath(text);
        if step.Raised? {
          return step;
        }
      }
      if description == "Reset selection" {
        ResetSelection();
      }
      var _ := BusyCheck(false);
    }

    /** The `on_click` of a breadcrumb button, with the same busy handling. */
    method PathButton(target: Target) returns (step: Step)
      requires Valid()
      modifies this
      ensures Valid()
      ensures old(busy) ==> step == Done && current == old(current) && path == old(path) && busy
      ensures !old(busy) ==> (busy <==> step.Raised?)
      ensures !old(busy) && target == ToPath("") ==> step == Raised(ValueError) && busy
      ensures root == old(root) && clickedData == old(clickedData) && data == old(data)
      ensures !old(busy) && target.ToContainer? ==> step == Done && !busy && current == target.container && path == ""
      ensures !old(busy) && target.ToPath? && target.path != "" ==>
        (AbsParts(target.path, cwd) == AbsParts(old(AbsPathStr()), cwd) ==>
          step == Done && !busy && path == old(path) && current == old(current)) &&
        (AbsParts(target.path, cwd) != AbsParts(old(AbsPathStr()), cwd) ==> Worked(target.path, step, old(path), old(current)))
    {
      var blocked := BusyCheck(true);
      if blocked {
        return Done;
      }
      if target.ToContainer? {
        UpdateProjectTo(target.container);
        step := Done;
      } else {
        step := UpdateProject(target.path);
        if step.Raised? {
          return step;
        }
      }
      var _ := BusyCheck(false);
    }

    /** `_on_click_file(filename)`: shows `current[filename]` (nothing after a KeyError or IOError;
        other errors propagate before the selection changes), then toggles the selection of the
        file's path `join(path, filename)`, which is recorded even when the fetch failed. */
    method OnClickFile(filename: string) returns (shown: Option<Obj>, err: Option<Exc>)
      requires Valid()
      modifies this
      ensures Valid()
      ensures root == old(root) && current == old(current) && path == old(path) && busy == old(busy)
      ensures Propagates(GetItem(current, filename, cwd)) ==>
        err == Some(GetItem(current, filename, cwd).exc) && clickedData == old(clickedData) && data == old(data)
      ensures !Propagates(GetItem(current, filename, cwd)) ==>
        err == None && shown == Shown(GetItem(current, filename, cwd)) &&
        Toggled(old(clickedData), Join(path, filename), clickedData, data)
    {
      var filepath := Join(path, filename);
      var fetched := GetItem(current, filename, cwd);
      if Propagates(fetched) {
        return None, Some(fetched.exc);
      }
      shown := Shown(fetched);
      err := None;
      ToggleSelection(filepath);
    }

    /** The toggle at the end of `_on_click_file`. */
    method ToggleSelection(filepath: string)
      requires Valid()
      modifies this
      ensures Valid() && Toggled(old(clickedData), filepath, clickedData, data)
      ensures root == old(root) && current == old(current) && path == old(path) && busy == old(busy)
    {
      if filepath in clickedData {
        data := None;
        clickedData := [];
      } else {
        data := Some(filepath);
        clickedData := [filepath];
      }
    }

    /** The `data` property: the root's entry at the selected path, or nothing. */
    function Data(): (r: Result<Option<Obj>>)
      reads this
      ensures data.None? ==> r == Ok(None)
      ensures data.Some? && GetItem(root, data.value, cwd).Ok? ==> r == Ok(Some(GetItem(root, data.value, cwd).value))
      ensures data.Some? && GetItem(root, data.value, cwd).Err? ==> r == Err(GetItem(root, data.value, cwd).exc)
    {
      match data
      case None => Ok(None)
      case Some(p) =>
        match GetItem(root, p, cwd)
        case Ok(v) => Ok(Some(v))
        case Err(e) => Err(e)
    }

    /** The `data` setter: writes into the root at the selected path and clears `_clicked_data`,
        keeping `_data`, so reading `data` back gives the value; RuntimeError when nothing is
        selected, and the error of the write, with nothing changed, when it raises. */
    method SetData(value: Obj) returns (err: Option<Exc>)
      requires Valid()
      modifies this
      ensures Valid()
      ensures current == old(current) && path == old(path) && busy == old(busy) && data == old(data)
      ensures old(data).None? ==> err == Some(RuntimeError) && root == old(root) && clickedData == old(clickedData)
      ensures old(data).Some? && SetItem(old(root), old(data).value, value).Err? ==>
        err == Some(SetItem(old(root), old(data).value, value).exc) && root == old(root) && clickedData == old(clickedData)
      ensures old(data).Some? && SetItem(old(root), old(data).value, value).Ok? ==>
        err == None && root == SetItem(old(root), old(data).value, value).value && clickedData == [] &&
        Data() == Ok(Some(value))
    {
      if data.None? {
        return Some(RuntimeError);
      }
      var written := SetItem(root, data.value, value);
      if written.Err? {
        return Some(written.exc);
      }
      root := written.value;
      clickedData := [];
      return None;
    }

    /** `_gen_pathbox_path_list`: the ancestor loop run on `abs_path` as it is. */
    method PathboxPathList() returns (r: seq<string>)
      ensures r == Chain(if path == "" then "" else if path[|path| - 1] == '/' then "/" + path[..|path| - 1] else "/" + path)
    {
      var a := AbsPathStr();
      if path != "" && path[|path| - 1] == '/' {
        assert a[..|a| - 1] == "/" + path[..|path| - 1];
      }
      r := AncestorList(a);
    }

    /** `copy()`: a new browser on the same root, at the root, with nothing selected. */
    method Copy() returns (b: DataContainerBrowser)
      ensures fresh(b) && b.Valid()
      ensures b.root == root && b.current == root && b.path == "" && !b.busy
      ensures b.clickedData == [] && b.data == None && b.cwd == cwd
    {
      b := new DataContainerBrowser(root, cwd);
    }
  }

  /** The breadcrumb of a browser at `path = '/'.join(cs)`: "/" and then each leading run of
      components, and at the root the single entry "". */
  lemma BreadcrumbOfPath(cs: seq<string>)
    requires forall i :: 0 <= i < |cs| ==> IsName(cs[i])
    ensures Chain("/" + JoinAll(cs)) == Prefixes("/", cs) || cs == []
    ensures cs == [] ==> Chain("") == [""]
  {
    if cs != [] {
      ChainOfAbsolute("/", cs);
    } else {
      ChainOfRoot();
    }
  }

  /** At the root the breadcrumb holds the single path "", and following it makes `relpath` raise
      ValueError, which the button handler does not catch, so `_busy` is never released. */
  lemma RootBreadcrumbRaises(cwd: string)
    ensures Chain("") == [""]
    ensures RelPath("", "/", cwd) == Err(ValueError)
  {
    ChainOfRoot();
  }

  /** The breadcrumb evidently intended: the root entry is "/", never "". */
  function RootedBreadcrumb(cs: seq<string>): (r: seq<string>)
    requires forall i :: 0 <= i < |cs| ==> IsName(cs[i])
    ensures |r| == |cs| + 1 && r[0] == "/"
  {
    PrefixesAt("/", cs);
    assert cs[..0] == [];
    Prefixes("/", cs)
  }

  /** Every entry of the intended breadcrumb is an absolute path, so following it never makes
      `relpath` raise, and the last entry is the browser's own `abs_path`. */
  lemma RootedBreadcrumbSafe(cs: seq<string>, cwd: string)
    requires forall i :: 0 <= i < |cs| ==> IsName(cs[i])
    ensures forall k :: 0 <= k < |RootedBreadcrumb(cs)| ==>
      IsAbs(RootedBreadcrumb(cs)[k]) && RelPath(RootedBreadcrumb(cs)[k], "/" + JoinAll(cs), cwd).Ok?
    ensures RootedBreadcrumb(cs)[|cs|] == "/" + JoinAll(cs)
  {
    PrefixesAt("/", cs);
    assert cs[..|cs|] == cs;
  }
}
