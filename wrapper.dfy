/** pyiron_gui/wrapper/wrapper.py: the `PyironWrapper` dispatch and the attribute fallbacks of
    `BaseWrapper` (shared by `AtomsWrapper` and `MurnaghanWrapper`), together with the HasGroups
    listing interface every browser position offers. */
module Wrapper {
  import opened Store
  import opened PosixPath

  /** `PyironWrapper(py_obj, project, rel_path)`: a closed single dispatch on the run-time class. */
  function PyironWrapper(obj: Item, project: Option<Obj>, relPath: string): (w: Obj)
    ensures w.Wrapped? && w.wrapped == obj && w.proj == project && w.relPath == relPath
    ensures w.flavour == AtomsFlavour <==> obj.kind == AtomsKind
    ensures w.flavour == MurnaghanFlavour <==> obj.kind == MurnaghanKind
  {
    var flavour := match obj.kind
      case AtomsKind => AtomsFlavour
      case MurnaghanKind => MurnaghanFlavour
      case _ => BaseFlavour;
    Wrapped(flavour, obj, project, relPath)
  }

  /** The `name` property of a wrapper: unset by `BaseWrapper`, fixed by the two subclasses. */
  function Name(w: Obj): Option<string>
    requires w.Wrapped?
  {
    match w.flavour
    case BaseFlavour => None
    case AtomsFlavour => Some("structure")
    case MurnaghanFlavour => Some("murnaghan")
  }

  /** The name of a freshly dispatched wrapper depends only on the wrapped object's class. */
  lemma NameOfDispatch(obj: Item, project: Option<Obj>, relPath: string)
    ensures Name(PyironWrapper(obj, project, relPath)) ==
      (if obj.kind == AtomsKind then Some("structure")
       else if obj.kind == MurnaghanKind then Some("murnaghan")
       else None)
  {
  }

  /** The `project` property: the wrapped object's own project when it has one, else `_project`. */
  function WrapperProject(w: Obj): (r: Option<Obj>)
    requires w.Wrapped?
    ensures w.wrapped.project.Some? ==> r == w.wrapped.project
    ensures w.wrapped.project.None? ==> r == w.proj
  {
    if w.wrapped.project.Some? then w.wrapped.project else w.proj
  }

  /** The `path` attribute of any position. A wrapper prefers the wrapped object's path, then joins
      its `project`'s path with `_rel_path`, and raises AttributeError when neither exists. */
  function PathAttr(o: Obj): (r: Result<string>)
    ensures r.Err? ==> r.exc == AttributeError
    ensures o.Plain? ==> (r.Ok? <==> o.item.path.Some?)
    ensures o.Wrapped? && o.wrapped.path.Some? ==> r == Ok(o.wrapped.path.value)
    ensures o.Wrapped? && o.wrapped.path.None? && WrapperProject(o).Some? && PathAttr(WrapperProject(o).value).Ok? ==>
      r == Ok(Join(PathAttr(WrapperProject(o).value).value, o.relPath))
    ensures o.Wrapped? && o.wrapped.path.None? && (WrapperProject(o).None? || PathAttr(WrapperProject(o).value).Err?) ==>
      r == Err(AttributeError)
    decreases o
  {
    match o
    case Plain(it) => if it.path.Some? then Ok(it.path.value) else Err(AttributeError)
    case Wrapped(_, it, proj, rel) =>
      if it.path.Some? then Ok(it.path.value)
      else if it.project.Some? then
        (match PathAttr(it.project.value)
         case Ok(p) => Ok(Join(p, rel))
         case Err(_) => Err(AttributeError))
      else if proj.Some? then
        (match PathAttr(proj.value)
         case Ok(p) => Ok(Join(p, rel))
         case Err(_) => Err(AttributeError))
      else Err(AttributeError)
  }

  /** The exceptions after which `BaseWrapper.__getitem__` retries the item as a path. */
  predicate FallsBack(e: Exc) {
    e == IndexError || e == KeyError || e == TypeError
  }

  /** `position[key]`. A wrapper first indexes the wrapped object; after an IndexError, KeyError or
      TypeError it joins `key` to its own path, takes that relative to `_project`'s path, and returns
      `_project` itself for "." or `_project[rel]` otherwise. Other errors propagate. `cwd` is the
      process's working directory, which `os.path.relpath` consults for relative paths. */
  function GetItem(o: Obj, key: string, cwd: string): (r: Result<Obj>)
    ensures o.Plain? ==> r == ItemGet(o.item, key)
    ensures o.Wrapped? && !(ItemGet(o.wrapped, key).Err? && FallsBack(ItemGet(o.wrapped, key).exc)) ==>
      r == ItemGet(o.wrapped, key)
    ensures o.Wrapped? && ItemGet(o.wrapped, key).Err? && FallsBack(ItemGet(o.wrapped, key).exc) && o.proj.None? ==>
      r == Err(AttributeError)
    decreases o
  {
    match o
    case Plain(it) => ItemGet(it, key)
    case Wrapped(_, it, proj, rel) =>
      var first := ItemGet(it, key);
      if first.Ok? || !FallsBack(first.exc) then first
      else
        match PathAttr(o)
        case Err(e) => Err(e)
        case Ok(selfPath) =>
          if proj.None? then Err(AttributeError)
          else
            match PathAttr(proj.value)
            case Err(e) => Err(e)
            case Ok(projPath) =>
              match RelPath(Join(selfPath, key), projPath, cwd)
              case Err(e) => Err(e)
              case Ok(relPath) =>
                if relPath == "." then Ok(proj.value) else GetItem(proj.value, relPath, cwd)
  }

  /** `list_groups()` of a position: a plain object without a listing has no such attribute; a
      wrapper forwards to the wrapped object and answers [] when it has none. */
  function Groups(o: Obj): (r: Result<seq<string>>)
    ensures r.Ok? <==> IsHasGroups(o)
    ensures o.Wrapped? ==> r == Ok(if o.wrapped.listing.Some? then o.wrapped.listing.value.groups else [])
  {
    match o
    case Plain(it) => if it.listing.Some? then Ok(it.listing.value.groups) else Err(AttributeError)
    case Wrapped(_, it, _, _) => Ok(if it.listing.Some? then it.listing.value.groups else [])
  }

  /** `list_nodes()` of a position, with the same fallback as `Groups`. */
  function Nodes(o: Obj): (r: Result<seq<string>>)
    ensures r.Ok? <==> IsHasGroups(o)
    ensures o.Wrapped? ==> r == Ok(if o.wrapped.listing.Some? then o.wrapped.listing.value.nodes else [])
  {
    match o
    case Plain(it) => if it.listing.Some? then Ok(it.listing.value.nodes) else Err(AttributeError)
    case Wrapped(_, it, _, _) => Ok(if it.listing.Some? then it.listing.value.nodes else [])
  }

  /** `list_files()` of a position; a wrapper forwards the attribute lookup to the wrapped object. */
  function Files(o: Obj): (r: Result<seq<string>>)
    ensures r.Ok? <==> (if o.Plain? then o.item.files.Some? else o.wrapped.files.Some?)
  {
    var it := if o.Plain? then o.item else o.wrapped;
    if it.files.Some? then Ok(it.files.value) else Err(AttributeError)
  }

  // ---- "." names the project itself ----

  lemma SegmentsSlashHead(x: string)
    ensures Segments("/" + x) == [""] + Segments(x)
  {
    assert ("/" + x)[1..] == x;
  }

  lemma SlashJoinSlashCase(x: string, b: string)
    requires Segments(x + "/" + b) == Segments(x) + Segments(b)
    ensures Segments("/" + x + "/" + b) == Segments("/" + x) + Segments(b)
  {
    assert "/" + x + "/" + b == "/" + (x + "/" + b);
    SegmentsSlashHead(x + "/" + b);
    SegmentsSlashHead(x);
    PrependAssoc([""], Segments(x), Segments(b));
  }

  lemma PrependAssoc<T>(u: seq<T>, v: seq<T>, w: seq<T>)
    ensures u + (v + w) == (u + v) + w
  {
  }

  /** Gluing a character to the first segment commutes with appending more segments. */
  lemma GlueFirst(c: char, sa: seq<string>, sb: seq<string>)
    requires |sa| >= 1
    ensures [[c] + (sa + sb)[0]] + (sa + sb)[1..] == ([[c] + sa[0]] + sa[1..]) + sb
  {
    assert (sa + sb)[0] == sa[0];
    assert (sa + sb)[1..] == sa[1..] + sb;
  }

  lemma SlashJoinCharCase(c: char, a: string, b: string)
    requires c != '/'
    requires Segments(a + "/" + b) == Segments(a) + Segments(b)
    ensures Segments([c] + (a + "/" + b)) == Segments([c] + a) + Segments(b)
  {
    SegmentsPrepend(c, a + "/" + b);
    SegmentsPrepend(c, a);
    GlueFirst(c, Segments(a), Segments(b));
  }

  lemma {:induction false} SegmentsOfSlashJoin(a: string, b: string)
    ensures Segments(a + "/" + b) == Segments(a) + Segments(b)
    decreases |a|
  {
    if a == [] {
      assert a + "/" + b == "/" + b;
      SegmentsSlashHead(b);
    } else {
      SegmentsOfSlashJoin(a[1..], b);
      if a[0] == '/' {
        SlashJoinSlashCase(a[1..], b);
        assert "/" + a[1..] == a;
      } else {
        SlashJoinCharCase(a[0], a[1..], b);
        assert [a[0]] + (a[1..] + "/" + b) == a + "/" + b;
        assert [a[0]] + a[1..] == a;
      }
    }
  }

  lemma {:induction false} CollapseAppend(stack: seq<string>, xs: seq<string>, ys: seq<string>)
    ensures Collapse(stack, xs + ys) == Collapse(Collapse(stack, xs), ys)
    decreases |xs|
  {
    if xs != [] {
      assert (xs + ys)[1..] == xs[1..] + ys;
      var x := xs[0];
      if x == "" || x == "." {
        CollapseAppend(stack, xs[1..], ys);
      } else if x == ".." {
        CollapseAppend(if stack == [] then [] else stack[..|stack| - 1], xs[1..], ys);
      } else {
        CollapseAppend(stack + [x], xs[1..], ys);
      }
    } else {
      assert xs + ys == ys;
    }
  }

  /** Appending "." to an absolute path does not change the directory it names. */
  lemma DotNamesSameDirectory(p: string, cwd: string)
    requires IsAbs(p)
    ensures AbsParts(Join(p, "."), cwd) == AbsParts(p, cwd)
  {
    var q := if p[|p| - 1] == '/' then p[..|p| - 1] else p;
    assert Segments(".") == ["."] by {
      SegmentsPrepend('.', "");
      assert ['.'] + "" == ".";
      assert Segments("") == [""];
    }
    if p[|p| - 1] == '/' {
      assert p == q + "/" + "";
      assert Join(p, ".") == q + "/" + ".";
      SegmentsOfSlashJoin(q, "");
      SegmentsOfSlashJoin(q, ".");
      CollapseAppend([], Segments(q), [""]);
      CollapseAppend([], Segments(q), ["."]);
    } else {
      assert Join(p, ".") == p + "/" + ".";
      SegmentsOfSlashJoin(p, ".");
      CollapseAppend([], Segments(p), ["."]);
    }
  }

  /** Joining the empty `rel_path` to an absolute project path, as a wrapper made with the default
      `rel_path` does, names the project's directory: "/p/" and "/p" are the same place. */
  lemma EmptyNamesSameDirectory(p: string, cwd: string)
    requires IsAbs(p)
    ensures AbsParts(Join(p, ""), cwd) == AbsParts(p, cwd)
  {
    if p[|p| - 1] != '/' {
      assert Join(p, "") == p + "/" + "";
      SegmentsOfSlashJoin(p, "");
      CollapseAppend([], Segments(p), [""]);
    } else {
      assert Join(p, "") == p + "";
      assert p + "" == p;
    }
  }

  /** A single name without separators splits to itself. */
  lemma SegmentsOfName(k: string)
    requires '/' !in k
    ensures Segments(k) == [k]
  {
    SegmentsAppendName(k, "");
    assert k + "" == k;
    assert k + Segments("")[0] == k;
  }

  /** Joining one component `k` to an absolute path normalises like pushing `k` on its components:
      a name is appended, ".." drops the last component, "." changes nothing. */
  lemma JoinComponentParts(p: string, k: string, cwd: string)
    requires IsAbs(p) && k != "" && '/' !in k
    ensures AbsParts(Join(p, k), cwd) == Collapse(AbsParts(p, cwd), [k])
  {
    SegmentsOfName(k);
    assert FullPath(p, cwd) == p;
    assert FullPath(Join(p, k), cwd) == Join(p, k);
    if p[|p| - 1] == '/' {
      var q := p[..|p| - 1];
      assert p == q + "/" + "";
      assert Join(p, k) == q + "/" + k;
      SegmentsOfSlashJoin(q, "");
      SegmentsOfSlashJoin(q, k);
      CollapseAppend([], Segments(q), [""]);
      CollapseAppend([], Segments(q), [k]);
    } else {
      assert Join(p, k) == p + "/" + k;
      SegmentsOfSlashJoin(p, k);
      CollapseAppend([], Segments(p), [k]);
    }
  }

  /** `relpath(join(p, ".."), q)` for `q` naming the directory of an absolute `p`: ".." below the
      file-system root, "." at the root. */
  lemma ParentRelPath(p: string, q: string, cwd: string)
    requires IsAbs(p) && AbsParts(q, cwd) == AbsParts(p, cwd)
    ensures RelPath(Join(p, ".."), q, cwd) == Ok(if AbsParts(p, cwd) == [] then "." else "..")
  {
    var s := AbsParts(p, cwd);
    var up := Join(p, "..");
    JoinComponentParts(p, "..", cwd);
    assert Collapse(s, [".."]) == Collapse(if s == [] then [] else s[..|s| - 1], []);
    if s != [] {
      RelPathToParent(up, q, cwd);
    } else {
      RelPathSame(up, q, cwd);
    }
  }

  /** The path fallback of `wrapper[k]` for a component name `k` the wrapped object cannot index,
      when the wrapper's path names its project's directory: the key is looked up in `_project`. */
  lemma GetItemName(w: Obj, k: string, cwd: string)
    requires w.Wrapped? && w.proj.Some?
    requires ItemGet(w.wrapped, k).Err? && FallsBack(ItemGet(w.wrapped, k).exc)
    requires PathAttr(w).Ok? && IsAbs(PathAttr(w).value)
    requires PathAttr(w.proj.value).Ok?
    requires AbsParts(PathAttr(w.proj.value).value, cwd) == AbsParts(PathAttr(w).value, cwd)
    requires IsName(k)
    ensures GetItem(w, k, cwd) == GetItem(w.proj.value, k, cwd)
  {
    var p := PathAttr(w).value;
    JoinComponentParts(p, k, cwd);
    assert AbsParts(Join(p, k), cwd) == AbsParts(p, cwd) + [k];
    RelPathBelow(Join(p, k), PathAttr(w.proj.value).value, cwd, [k]);
  }

  /** `wrapper[".."]` under the same conditions: below the file-system root the project's own
      `[".."]`, its parent; at the root the project itself. */
  lemma GetItemParent(w: Obj, cwd: string)
    requires w.Wrapped? && w.proj.Some?
    requires ItemGet(w.wrapped, "..").Err? && FallsBack(ItemGet(w.wrapped, "..").exc)
    requires PathAttr(w).Ok? && IsAbs(PathAttr(w).value)
    requires PathAttr(w.proj.value).Ok?
    requires AbsParts(PathAttr(w.proj.value).value, cwd) == AbsParts(PathAttr(w).value, cwd)
    ensures AbsParts(PathAttr(w).value, cwd) != [] ==> GetItem(w, "..", cwd) == GetItem(w.proj.value, "..", cwd)
    ensures AbsParts(PathAttr(w).value, cwd) == [] ==> GetItem(w, "..", cwd) == Ok(w.proj.value)
  {
    ParentRelPath(PathAttr(w).value, PathAttr(w.proj.value).value, cwd);
  }

  /** `wrapper["."]` returns the wrapper's `_project` when the wrapped object cannot be indexed by
      "." and the wrapper's path names the same directory as that project's path. */
  lemma GetItemDot(w: Obj, cwd: string)
    requires w.Wrapped? && w.proj.Some?
    requires ItemGet(w.wrapped, ".").Err? && FallsBack(ItemGet(w.wrapped, ".").exc)
    requires PathAttr(w).Ok? && IsAbs(PathAttr(w).value)
    requires PathAttr(w.proj.value).Ok?
    requires AbsParts(PathAttr(w.proj.value).value, cwd) == AbsParts(PathAttr(w).value, cwd)
    ensures GetItem(w, ".", cwd) == Ok(w.proj.value)
  {
    var p := PathAttr(w).value;
    DotNamesSameDirectory(p, cwd);
    RelPathSame(Join(p, "."), PathAttr(w.proj.value).value, cwd);
  }
}
