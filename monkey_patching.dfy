/** `safe_monkey_patch` of pyiron_gui/monkey_patching.py: a guarded update of a class's attribute
    table, and the cached browser accessors it installs. */
module MonkeyPatching {
  import opened Store

  /** A function as the guard sees it: its `__module__` and `__name__`. */
  datatype Fn = Fn(moduleName: string, name: string)

  /** A class attribute: a function, a property (through its getter), or any other value, named by
      its type. `None` is `Data("NoneType")`. */
  datatype Attr = Function(fn: Fn) | Property(fget: Fn) | Data(typeName: string)

  /** `type(x)`, as far as the guard compares it. */
  datatype Kind = FunctionKind | PropertyKind | DataKind(typeName: string)

  function TypeOf(a: Attr): (r: Kind)
    ensures r.FunctionKind? <==> a.Function?
    ensures r.PropertyKind? <==> a.Property?
    ensures a.Data? ==> r == DataKind(a.typeName)
  {
    match a
    case Function(_) => FunctionKind
    case Property(_) => PropertyKind
    case Data(t) => DataKind(t)
  }

  const NoneAttr := Data("NoneType")

  /** How a patch ends. */
  datatype Outcome =
    | Installed     // the attribute is set, and the companion attribute with it
    | KindClash     // the class has the attribute with a value of another type: warning
    | NameClash     // a function or property of another module or name is there: warning
    | NotPatchable  // the value is neither callable nor a property: warning

  /** The decision of `safe_monkey_patch` and its two helpers for patching `name` with `value` on a
      class whose attributes are `attrs`. */
  function PatchOutcome(attrs: map<string, Attr>, name: string, value: Attr): (r: Outcome)
    ensures name !in attrs ==> (r == Installed <==> !value.Data?)
    ensures r == KindClash <==> name in attrs && TypeOf(attrs[name]) != TypeOf(value)
  {
    if name in attrs && TypeOf(value) != TypeOf(attrs[name]) then KindClash
    else match value
      case Function(f) =>
        if name in attrs && (attrs[name].fn.moduleName != f.moduleName || attrs[name].fn.name != f.name) then NameClash
        else Installed
      case Property(g) =>
        if name in attrs && (attrs[name].fget.moduleName != g.moduleName || attrs[name].fget.name != g.name) then NameClash
        else Installed
      case Data(_) => NotPatchable
  }

  /** A function or property is installed exactly when the class lacks the name or holds one of
      the same kind, module and name there. */
  lemma InstalledIff(attrs: map<string, Attr>, name: string, value: Attr)
    requires !value.Data?
    ensures PatchOutcome(attrs, name, value) == Installed <==>
      name !in attrs || attrs[name] == value
  {
  }

  /** The attribute table after a patch: only an installed patch changes it, and then it also
      writes the companion attribute when one is given. */
  function Patched(attrs: map<string, Attr>, name: string, value: Attr, companion: Option<(string, Attr)>): (r: map<string, Attr>)
    ensures PatchOutcome(attrs, name, value) != Installed ==> r == attrs
    ensures PatchOutcome(attrs, name, value) == Installed ==>
      name in r && (companion.Some? ==> companion.value.0 in r && r[companion.value.0] == companion.value.1) &&
      (companion.None? || companion.value.0 != name ==> r[name] == value) &&
      forall k :: k in attrs && k != name && (companion.None? || k != companion.value.0) ==> k in r && r[k] == attrs[k]
  {
    if PatchOutcome(attrs, name, value) != Installed then attrs
    else
      var withValue := attrs[name := value];
      if companion.Some? then withValue[companion.value.0 := companion.value.1] else withValue
  }

  /** Patching again with the same function or property and companion is silent and changes
      nothing further. */
  lemma {:induction false} RepatchIsIdempotent(attrs: map<string, Attr>, name: string, value: Attr, companion: Option<(string, Attr)>)
    requires PatchOutcome(attrs, name, value) == Installed
    requires companion.Some? ==> companion.value.0 != name
    ensures PatchOutcome(Patched(attrs, name, value, companion), name, value) == Installed
    ensures Patched(Patched(attrs, name, value, companion), name, value, companion) == Patched(attrs, name, value, companion)
  {
    var once := Patched(attrs, name, value, companion);
    assert once[name] == value;
    InstalledIff(once, name, value);
    var twice := Patched(once, name, value, companion);
    assert twice == once;
  }

  /** A class whose attribute table the patch updates. */
  class PatchedClass {
    var attrs: map<string, Attr>

    constructor(attrs: map<string, Attr>)
      ensures this.attrs == attrs
    {
      this.attrs := attrs;
    }

    /** `_safe_monkey_patch_method` and `_safe_monkey_patch_property`: install unless a function
        (or a property's getter) of another module or name is there. */
    method PatchFunction(name: string, value: Attr) returns (success: bool)
      requires !value.Data?
      requires name in attrs ==> TypeOf(attrs[name]) == TypeOf(value)
      modifies this
      ensures success <==> PatchOutcome(old(attrs), name, value) == Installed
      ensures attrs == (if success then old(attrs)[name := value] else old(attrs))
    {
      var existing := if name in attrs then Some(attrs[name]) else None;
      var clash := false;
      if existing.Some? {
        if value.Function? {
          clash := existing.value.fn.moduleName != value.fn.moduleName || existing.value.fn.name != value.fn.name;
        } else {
          clash := existing.value.fget.moduleName != value.fget.moduleName || existing.value.fget.name != value.fget.name;
        }
      }
      if clash {
        return false;
      }
      attrs := attrs[name := value];
      return true;
    }

    /** `safe_monkey_patch(cls, name, value, attr_name, attr_val)`: the table becomes `Patched`
        and a warning is issued exactly when the patch is not installed. */
    method SafeMonkeyPatch(name: string, value: Attr, companion: Option<(string, Attr)>) returns (warned: bool)
      modifies this
      ensures attrs == Patched(old(attrs), name, value, companion)
      ensures warned <==> PatchOutcome(old(attrs), name, value) != Installed
    {
      if name in attrs && TypeOf(value) != TypeOf(attrs[name]) {
        return true;
      }
      if value.Data? {
        return true;
      }
      var success := PatchFunction(name, value);
      if success && companion.Some? {
        attrs := attrs[companion.value.0 := companion.value.1];
      }
      warned := !success;
    }
  }

  /** The cached browser of `_datacontainer_gui`, `_has_groups_gui` and the `browser` property. */
  class LazyGui<T> {
    var cache: Option<T>

    constructor()
      ensures cache == None
    {
      cache := None;
    }

    /** Returns the cached browser unless there is none or `refresh` asks for a new one, in which
        case `built`, the browser the accessor constructs, is stored and returned. */
    method Gui(refresh: bool, built: T) returns (r: T)
      modifies this
      ensures r == (if old(cache).None? || refresh then built else old(cache).value)
      ensures cache == Some(r)
    {
      if cache.None? || refresh {
        cache := Some(built);
      }
      r := cache.value;
    }
  }
}
