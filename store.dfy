/** The data sources the browsers walk over (pyiron's HasGroups, Project, DataContainer, the
    objects stored in them, and the wrapper objects of pyiron_gui/wrapper/wrapper.py), abstracted
    as values. Python object identity is modelled by structural equality. */
module Store {

  datatype Option<+T> = None | Some(value: T)

  /** The Python exceptions the modelled code raises or catches. */
  datatype Exc = KeyError | IndexError | TypeError | ValueError | AttributeError | IOError | RuntimeError

  datatype Result<+T> = Ok(value: T) | Err(exc: Exc)

  /** The run-time class of a stored object, as far as the browsers and the wrapper dispatch look at it. */
  datatype Kind = ProjectKind | ContainerKind | AtomsKind | MurnaghanKind | OtherKind

  /** What `list_groups()` and `list_nodes()` of a HasGroups object return, in order. */
  datatype Listing = Listing(groups: seq<string>, nodes: seq<string>)

  /** A plain (unwrapped) object of the data layer.
      - `tag` tells apart leaf values (think of it as the value's repr);
      - `listing` is present exactly for HasGroups objects;
      - `files` is present when the object has `list_files()`;
      - `entries` is present when the object can be indexed by a name, and maps each name to what
        `obj[name]` returns or raises (an absent name raises KeyError);
      - `path` and `project` are present when the object has those attributes;
      - `toObject` is what `to_object()` returns or raises. */
  datatype Item = Item(
    kind: Kind,
    tag: string,
    listing: Option<Listing>,
    files: Option<seq<string>>,
    entries: Option<map<string, Result<Obj>>>,
    path: Option<string>,
    project: Option<Obj>,
    toObject: Result<Item>)

  /** The wrapper classes of pyiron_gui/wrapper/wrapper.py: BaseWrapper, AtomsWrapper, MurnaghanWrapper. */
  datatype Flavour = BaseFlavour | AtomsFlavour | MurnaghanFlavour

  /** Anything a browser can hold as its position or its data: a plain object, or a wrapper around one
      together with the project it was created in (`_project`) and its relative path (`_rel_path`). */
  datatype Obj =
    | Plain(item: Item)
    | Wrapped(flavour: Flavour, wrapped: Item, proj: Option<Obj>, relPath: string)

  /** `isinstance(o, HasGroups)`: wrappers derive from HasGroups; plain objects do when they list children. */
  predicate IsHasGroups(o: Obj) {
    o.Wrapped? || o.item.listing.Some?
  }

  /** `isinstance(o, pyiron_base.Project)`, the `_node_as_group` test. */
  predicate IsProject(o: Obj) {
    o.Plain? && o.item.kind == ProjectKind
  }

  /** `item[key]` on a plain object: TypeError when it cannot be indexed, KeyError for an absent name. */
  function ItemGet(it: Item, key: string): (r: Result<Obj>)
    ensures it.entries.None? ==> r == Err(TypeError)
    ensures it.entries.Some? && key !in it.entries.value ==> r == Err(KeyError)
    ensures it.entries.Some? && key in it.entries.value ==> r == it.entries.value[key]
  {
    match it.entries
    case None => Err(TypeError)
    case Some(m) => if key in m then m[key] else Err(KeyError)
  }

  /** `obj[key] = value` on a position: only indexable plain objects accept it. */
  function SetItem(o: Obj, key: string, value: Obj): (r: Result<Obj>)
    ensures r.Ok? <==> o.Plain? && o.item.entries.Some?
    ensures r.Ok? ==> r.value.Plain? && ItemGet(r.value.item, key) == Ok(value)
    ensures r.Ok? ==> forall k :: k != key ==> ItemGet(r.value.item, k) == ItemGet(o.item, k)
    ensures r.Ok? ==> r.value.item.listing == o.item.listing && r.value.item.kind == o.item.kind
  {
    if o.Plain? && o.item.entries.Some? then
      Ok(Plain(o.item.(entries := Some(o.item.entries.value[key := Ok(value)]))))
    else
      Err(TypeError)
  }
}
