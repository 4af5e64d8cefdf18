/** `ColorScheme` of pyiron_gui/project/project_browser.py: a table from identifier keys to colour
    strings that keeps its keys in insertion order. Whether a string is a colour is decided by
    ipywidgets' Color trait, which is an opaque predicate `accepts` here. */
module Colors {
  import opened Store

  predicate IsLetter(c: char) {
    ('a' <= c <= 'z') || ('A' <= c <= 'Z') || c == '_'
  }

  predicate IsIdentChar(c: char) {
    IsLetter(c) || ('0' <= c <= '9')
  }

  /** `str.isidentifier()` on ASCII strings: a letter or '_' followed by letters, digits or '_'. */
  predicate IsIdentifier(s: string) {
    |s| > 0 && IsLetter(s[0]) && forall i :: 1 <= i < |s| ==> IsIdentChar(s[i])
  }

  /** The contents of a scheme: the keys in insertion order and the colour of each. */
  datatype Table = Table(keys: seq<string>, colors: map<string, string>) {
    ghost predicate Valid() {
      (forall i, j :: 0 <= i < j < |keys| ==> keys[i] != keys[j]) &&
      (forall k :: k in colors <==> k in keys)
    }
  }

  /** `_color_dict[key] = value` on a dict: a new key goes to the end, an existing key keeps its place. */
  function Put(t: Table, key: string, value: string): (r: Table)
    requires t.Valid()
    ensures r.Valid()
    ensures r.colors == t.colors[key := value]
    ensures key in t.colors ==> r.keys == t.keys
    ensures key !in t.colors ==> r.keys == t.keys + [key]
  {
    Table(if key in t.colors then t.keys else t.keys + [key], t.colors[key := value])
  }

  /** An item `add_colors` accepts: an identifier key and a colour the trait accepts. */
  predicate Acceptable(item: (string, string), accepts: string -> bool) {
    IsIdentifier(item.0) && accepts(item.1)
  }

  /** How many leading items `add_colors` stores before it raises (all of them when none is bad). */
  function Accepted(items: seq<(string, string)>, accepts: string -> bool): (n: nat)
    ensures n <= |items|
    ensures forall i :: 0 <= i < n ==> Acceptable(items[i], accepts)
    ensures n < |items| ==> !Acceptable(items[n], accepts)
  {
    if items == [] then 0
    else if !Acceptable(items[0], accepts) then 0
    else 1 + Accepted(items[1..], accepts)
  }

  /** Storing the items one after the other. */
  function PutAll(t: Table, items: seq<(string, string)>): (r: Table)
    requires t.Valid()
    ensures r.Valid()
    decreases |items|
  {
    if items == [] then t
    else
      var last := items[|items| - 1];
      Put(PutAll(t, items[..|items| - 1]), last.0, last.1)
  }

  /** After storing items with distinct keys, each key has its item's colour. */
  lemma {:induction false} PutAllLookup(t: Table, items: seq<(string, string)>)
    requires t.Valid()
    requires forall i, j :: 0 <= i < j < |items| ==> items[i].0 != items[j].0
    ensures forall i :: 0 <= i < |items| ==>
      items[i].0 in PutAll(t, items).colors && PutAll(t, items).colors[items[i].0] == items[i].1
    decreases |items|
  {
    if items != [] {
      var init := items[..|items| - 1];
      PutAllLookup(t, init);
      forall i | 0 <= i < |items| - 1
        ensures items[i].0 in PutAll(t, items).colors && PutAll(t, items).colors[items[i].0] == items[i].1
      {
        assert items[i] == init[i];
      }
    }
  }

  /** Keys not among the stored items keep their colour. */
  lemma {:induction false} PutAllKeepsOthers(t: Table, items: seq<(string, string)>, k: string)
    requires t.Valid() && k in t.colors
    requires forall i :: 0 <= i < |items| ==> items[i].0 != k
    ensures k in PutAll(t, items).colors && PutAll(t, items).colors[k] == t.colors[k]
    decreases |items|
  {
    if items != [] {
      PutAllKeepsOthers(t, items[..|items| - 1], k);
    }
  }

  /** Stored keys keep the order they were first added in: the old keys come first, unchanged. */
  lemma {:induction false} PutAllKeepsOrder(t: Table, items: seq<(string, string)>)
    requires t.Valid()
    ensures |PutAll(t, items).keys| >= |t.keys|
    ensures PutAll(t, items).keys[..|t.keys|] == t.keys
    decreases |items|
  {
    if items != [] {
      var u := PutAll(t, items[..|items| - 1]);
      PutAllKeepsOrder(t, items[..|items| - 1]);
      assert (u.keys + [items[|items| - 1].0])[..|t.keys|] == u.keys[..|t.keys|];
    }
  }

  /** Each key paired with its colour, in the order of `keys`. */
  function Pairs(keys: seq<string>, colors: map<string, string>): (r: seq<(string, string)>)
    requires forall i :: 0 <= i < |keys| ==> keys[i] in colors
    ensures |r| == |keys|
    ensures forall i :: 0 <= i < |r| ==> r[i] == (keys[i], colors[keys[i]])
  {
    if keys == [] then [] else Pairs(keys[..|keys| - 1], colors) + [(keys[|keys| - 1], colors[keys[|keys| - 1]])]
  }

  class ColorScheme {
    var table: Table
    const accepts: string -> bool

    ghost predicate Valid()
      reads this
    {
      table.Valid()
    }

    /** `ColorScheme()`: an empty table. A constructor argument is the same as a later `AddColors`. */
    constructor(accepts: string -> bool)
      ensures Valid() && table == Table([], map[]) && this.accepts == accepts
    {
      table := Table([], map[]);
      this.accepts := accepts;
    }

    /** `scheme[key]`: KeyError for a key that was never added. */
    function Get(key: string): (r: Result<string>)
      reads this
      requires Valid()
      ensures r.Ok? <==> key in table.keys
      ensures r.Ok? ==> r.value == table.colors[key]
      ensures r.Err? ==> r.exc == KeyError
    {
      if key in table.colors then Ok(table.colors[key]) else Err(KeyError)
    }

    /** `scheme[key] = value`: only keys already present may be changed, and only to a colour. */
    method Set(key: string, value: string) returns (err: Option<Exc>)
      requires Valid()
      modifies this
      ensures Valid()
      ensures key !in old(table.colors) || !accepts(value) ==> err == Some(ValueError) && table == old(table)
      ensures key in old(table.colors) && accepts(value) ==>
        err == None && table.keys == old(table.keys) && table.colors == old(table.colors)[key := value]
    {
      if key !in table.colors {
        return Some(ValueError);
      }
      if !accepts(value) {
        return Some(ValueError);
      }
      table := Put(table, key, value);
      return None;
    }

    /** `add_colors(color_dict)`: stores the items in order and raises ValueError at the first key
        that is not an identifier or the first colour that is rejected, keeping what was stored
        before it. */
    method AddColors(items: seq<(string, string)>) returns (err: Option<Exc>)
      requires Valid()
      modifies this
      ensures Valid()
      ensures table == PutAll(old(table), items[..Accepted(items, accepts)])
      ensures err == (if Accepted(items, accepts) < |items| then Some(ValueError) else None)
    {
      var i := 0;
      while i < |items|
        invariant 0 <= i <= Accepted(items, accepts)
        invariant Valid()
        invariant table == PutAll(old(table), items[..i])
      {
        var (key, value) := items[i];
        if !IsIdentifier(key) {
          return Some(ValueError);
        }
        if !accepts(value) {
          return Some(ValueError);
        }
        assert items[..i + 1][..i] == items[..i];
        table := Put(table, key, value);
        i := i + 1;
      }
      assert items[..i] == items;
      return None;
    }

    /** `items()`: the pairs in insertion order. */
    function Items(): (r: seq<(string, string)>)
      reads this
      requires Valid()
      ensures |r| == |table.keys|
      ensures forall i :: 0 <= i < |r| ==> r[i].0 == table.keys[i] && Get(r[i].0) == Ok(r[i].1)
    {
      Pairs(table.keys, table.colors)
    }
  }

  /** The colours every group browser starts with, and the two the breadcrumb browsers add. */
  const BrowserColors: seq<(string, string)> :=
    [("control", "#FF0000"), ("group", "#9999FF"), ("file_chosen", "#FFBBBB"), ("file", "#DDDDDD")]
  const PathColors: seq<(string, string)> := [("path", "#DDDDAA"), ("home", "#999999")]

  /** Given a trait that accepts their colour strings, the default tables are stored whole: every
      key is an identifier. */
  lemma DefaultColorsAccepted(accepts: string -> bool)
    requires forall i :: 0 <= i < |BrowserColors| ==> accepts(BrowserColors[i].1)
    requires forall i :: 0 <= i < |PathColors| ==> accepts(PathColors[i].1)
    ensures Accepted(BrowserColors, accepts) == |BrowserColors|
    ensures Accepted(PathColors, accepts) == |PathColors|
  {
    assert IsIdentifier("control") && IsIdentifier("group") && IsIdentifier("file_chosen") && IsIdentifier("file");
    assert IsIdentifier("path") && IsIdentifier("home");
    assert BrowserColors[1..][1..][1..][1..] == [];
    assert PathColors[1..][1..] == [];
  }
}
