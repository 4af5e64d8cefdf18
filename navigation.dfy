/** The history of a group browser (pyiron_gui/project/project_browser.py, `HasGroupsBrowser`):
    the visited positions `_history`, the cursor `_history_idx`, and the breadcrumb `_path_list` of
    `HasGroupsBrowserWithHistoryPath`, as values. The browser class is proved against these. */
module Navigation {

  /** `_history` together with `_history_idx`. */
  datatype Cursor<T> = Cursor(history: seq<T>, idx: nat) {
    predicate Valid() {
      idx < |history|
    }

    function Current(): T
      requires Valid()
    {
      history[idx]
    }
  }

  /** Python's `s[:k]`: a `k` beyond the end takes the whole list. */
  function Take<T>(s: seq<T>, k: nat): (r: seq<T>)
    ensures |r| == if k <= |s| then k else |s|
    ensures forall i :: 0 <= i < |r| ==> r[i] == s[i]
  {
    if k <= |s| then s[..k] else s
  }

  /** Entering a new position: the cursor moves one step on, everything after the old cursor is
      discarded, and the new position is appended. */
  function Enter<T>(c: Cursor<T>, p: T): (r: Cursor<T>)
    requires c.Valid()
    ensures r.Valid() && r.Current() == p
    ensures r.idx == c.idx + 1 && |r.history| == r.idx + 1
    ensures r.history[..r.idx] == c.history[..c.idx + 1]
  {
    Cursor(Take(c.history, c.idx + 1) + [p], c.idx + 1)
  }

  function Back<T>(c: Cursor<T>): (r: Cursor<T>)
    requires c.Valid() && c.idx > 0
    ensures r.Valid() && r.history == c.history && r.idx == c.idx - 1
  {
    c.(idx := c.idx - 1)
  }

  function Forward<T>(c: Cursor<T>): (r: Cursor<T>)
    requires c.Valid() && c.idx + 1 < |c.history|
    ensures r.Valid() && r.history == c.history && r.idx == c.idx + 1
  {
    c.(idx := c.idx + 1)
  }

  /** `_load_history(k)`: jump to any recorded position. */
  function Load<T>(c: Cursor<T>, k: nat): (r: Cursor<T>)
    requires k < |c.history|
    ensures r.Valid() && r.history == c.history && r.Current() == c.history[k]
  {
    c.(idx := k)
  }

  /** Going back then forward returns to the same place, and vice versa. */
  lemma BackForward<T>(c: Cursor<T>)
    requires c.Valid()
    ensures c.idx > 0 ==> Forward(Back(c)) == c
    ensures c.idx + 1 < |c.history| ==> Back(Forward(c)) == c
  {
  }

  /** Entering a new position and going back lands on the position entered from, and going forward
      again reaches the new one. */
  lemma EnterBackForward<T>(c: Cursor<T>, p: T)
    requires c.Valid()
    ensures Back(Enter(c, p)).Current() == c.Current()
    ensures Forward(Back(Enter(c, p))) == Enter(c, p)
  {
    assert Enter(c, p).history[c.idx] == c.history[..c.idx + 1][c.idx];
  }

  function EnterAll<T>(c: Cursor<T>, ps: seq<T>): (r: Cursor<T>)
    requires c.Valid()
    ensures r.Valid() && r.idx == c.idx + |ps|
    decreases |ps|
  {
    if ps == [] then c else EnterAll(Enter(c, ps[0]), ps[1..])
  }

  function BackN<T>(c: Cursor<T>, n: nat): (r: Cursor<T>)
    requires c.Valid() && n <= c.idx
    ensures r.Valid() && r.history == c.history && r.idx == c.idx - n
    decreases n
  {
    if n == 0 then c else BackN(Back(c), n - 1)
  }

  /** Entering positions keeps every entry up to the starting cursor. */
  lemma {:induction false} EnterAllKeepsPrefix<T>(c: Cursor<T>, ps: seq<T>)
    requires c.Valid()
    ensures |EnterAll(c, ps).history| > c.idx
    ensures EnterAll(c, ps).history[..c.idx + 1] == c.history[..c.idx + 1]
    decreases |ps|
  {
    if ps != [] {
      var d := Enter(c, ps[0]);
      EnterAllKeepsPrefix(d, ps[1..]);
      assert d.history[..c.idx + 1] == d.history[..d.idx][..c.idx + 1];
    }
  }

  /** Entering any number of groups and then going back as many times returns to the position one
      started from, whatever was visited in between. */
  lemma EnterAllThenBack<T>(c: Cursor<T>, ps: seq<T>)
    requires c.Valid()
    ensures BackN(EnterAll(c, ps), |ps|).Current() == c.Current()
  {
    var e := EnterAll(c, ps);
    EnterAllKeepsPrefix(c, ps);
    assert e.history[c.idx] == e.history[..c.idx + 1][c.idx];
  }

  // ---- the breadcrumb of HasGroupsBrowserWithHistoryPath ----

  /** `_update_project(name)` of the breadcrumb variant: the setter's cut of `_path_list` to the
      new cursor, then `name` appended. */
  function PathEnter(pathList: seq<string>, idx: nat, name: string): (r: seq<string>)
    ensures |pathList| > idx ==> |r| == idx + 2
    ensures 1 <= |r| <= |pathList| + 1
    ensures r[|r| - 1] == name
    ensures forall i :: 0 <= i < |r| - 1 ==> i <= idx && r[i] == pathList[i]
  {
    Take(pathList, idx + 1) + [name]
  }

  /** The `path_list` property: the breadcrumb up to and including the cursor. */
  function PathView(pathList: seq<string>, idx: nat): (r: seq<string>)
    ensures |pathList| > idx ==> |r| == idx + 1
    ensures |r| <= |pathList|
    ensures forall i :: 0 <= i < |r| ==> r[i] == pathList[i]
  {
    Take(pathList, idx + 1)
  }

  /** Entering groups by name keeps the breadcrumb one entry per history entry. */
  lemma PathEnterInStep<T>(c: Cursor<T>, pathList: seq<string>, p: T, name: string)
    requires c.Valid() && |pathList| == |c.history|
    ensures |PathEnter(pathList, c.idx, name)| == |Enter(c, p).history|
    ensures PathView(PathEnter(pathList, c.idx, name), Enter(c, p).idx) == PathView(pathList, c.idx) + [name]
  {
    var r := PathEnter(pathList, c.idx, name);
    assert Take(pathList, c.idx + 1) == PathView(pathList, c.idx);
    assert PathView(r, c.idx + 1) == r;
  }

  /** The navigation trace of the breadcrumb variant: enter "B" and "B1" from the root, go back,
      enter "B2". */
  lemma BreadcrumbTrace()
    ensures PathView(PathEnter(PathEnter(["/"], 0, "B"), 1, "B1"), 2) == ["/", "B", "B1"]
    ensures PathView(PathEnter(PathEnter(["/"], 0, "B"), 1, "B1"), 1) == ["/", "B"]
    ensures PathView(PathEnter(PathEnter(PathEnter(["/"], 0, "B"), 1, "B1"), 1, "B2"), 2) == ["/", "B", "B2"]
  {
    var p1 := PathEnter(["/"], 0, "B");
    assert p1 == ["/", "B"];
    var p2 := PathEnter(p1, 1, "B1");
    assert p2 == ["/", "B", "B1"];
    assert PathView(p2, 1) == ["/", "B"];
    var p3 := PathEnter(p2, 1, "B2");
    assert p3 == ["/", "B", "B2"];
  }
}
