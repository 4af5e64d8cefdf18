/** The re-entrancy guard `_BusyCheck` of pyiron_gui/utils/decorators.py (pyiron_gui/utils/busy_check.py
    holds the same class) and the `clickable` signature check. The global ipywidgets registry is a
    map from widget ids to the two facts the guard reads: whether the widget is a Button and
    whether it is disabled. */
module BusyGuard {
  import opened Store

  datatype Widget = Widget(isButton: bool, disabled: bool)

  /** The registry after `busy = True`: every Button disabled, every other widget as it was. */
  function DisableButtons(registry: map<string, Widget>): (r: map<string, Widget>)
    ensures r.Keys == registry.Keys
    ensures forall k :: k in r ==> r[k].isButton == registry[k].isButton
    ensures forall k :: k in r && r[k].isButton ==> r[k].disabled
    ensures forall k :: k in r && !r[k].isButton ==> r[k] == registry[k]
  {
    map k | k in registry :: if registry[k].isButton then registry[k].(disabled := true) else registry[k]
  }

  /** The `disabled` flags `busy = True` records: one per Button. */
  function SavedFlags(registry: map<string, Widget>): (r: map<string, bool>)
    ensures forall k :: k in r <==> k in registry && registry[k].isButton
    ensures forall k :: k in r ==> r[k] == registry[k].disabled
  {
    map k | k in registry && registry[k].isButton :: registry[k].disabled
  }

  /** The registry after `busy = False`: each recorded flag written back, or KeyError when a
      recorded widget is no longer registered. */
  function Restore(registry: map<string, Widget>, saved: map<string, bool>): (r: Result<map<string, Widget>>)
    ensures r.Ok? <==> saved.Keys <= registry.Keys
    ensures r.Err? ==> r.exc == KeyError
    ensures r.Ok? ==>
      r.value.Keys == registry.Keys &&
      (forall k :: k in registry && k in saved ==> r.value[k] == registry[k].(disabled := saved[k])) &&
      (forall k :: k in registry && k !in saved ==> r.value[k] == registry[k])
  {
    if saved.Keys <= registry.Keys then
      Ok(map k | k in registry :: if k in saved then registry[k].(disabled := saved[k]) else registry[k])
    else Err(KeyError)
  }

  /** Whether a Guard's record names only registered Buttons: the condition under which taking and
      releasing the guard is the identity on the registry. */
  ghost predicate RecordsButtons(registry: map<string, Widget>, record: map<string, bool>)
  {
    forall k :: k in record ==> k in registry && registry[k].isButton
  }

  /** `busy = True` followed by `busy = False` on an unchanged registry gives every widget back
      its `disabled` flag, provided earlier records name Buttons still registered. */
  lemma {:induction false} DisableRestoreRoundTrip(registry: map<string, Widget>, earlier: map<string, bool>)
    requires RecordsButtons(registry, earlier)
    ensures Restore(DisableButtons(registry), earlier + SavedFlags(registry)) == Ok(registry)
  {
    var saved := earlier + SavedFlags(registry);
    var disabled := DisableButtons(registry);
    assert saved.Keys <= disabled.Keys;
    var back := Restore(disabled, saved).value;
    forall k | k in registry
      ensures back[k] == registry[k]
    {
      if k in saved {
        assert registry[k].isButton;
        assert saved[k] == registry[k].disabled;
      }
    }
    assert back == registry;
  }

  /** Every Button outside `todo` is disabled in `after`; everything else is as in `before`. */
  ghost predicate DisabledOutside(before: map<string, Widget>, after: map<string, Widget>, todo: set<string>)
    requires after.Keys == before.Keys
  {
    forall k :: k in after ==>
      after[k] == (if k in todo || !before[k].isButton then before[k] else before[k].(disabled := true))
  }

  /** `record` holds `earlier` overwritten by the flag of every Button outside `todo`. */
  ghost predicate RecordedOutside(registry: map<string, Widget>, earlier: map<string, bool>, record: map<string, bool>, todo: set<string>)
  {
    (forall k :: k in record <==> k in earlier || (k in registry && k !in todo && registry[k].isButton)) &&
    (forall k :: k in record ==>
      record[k] == (if k in registry && k !in todo && registry[k].isButton then registry[k].disabled else earlier[k]))
  }

  /** A registry that agrees key by key with `DisableButtons(before)` is that registry. */
  lemma DisabledByKey(before: map<string, Widget>, after: map<string, Widget>)
    requires after.Keys == before.Keys && DisabledOutside(before, after, {})
    ensures after == DisableButtons(before)
  {
  }

  /** A record that agrees key by key with `earlier + SavedFlags(registry)` is that record. */
  lemma RecordedByKey(registry: map<string, Widget>, earlier: map<string, bool>, record: map<string, bool>)
    requires RecordedOutside(registry, earlier, record, {})
    ensures record == earlier + SavedFlags(registry)
  {
  }

  class Guard {
    var busy: bool
    /** `_widget_state`: the `disabled` flags recorded when the guard was taken. */
    var widgetState: map<string, bool>
    /** The global widget registry. */
    var registry: map<string, Widget>

    constructor(registry: map<string, Widget>)
      ensures !busy && widgetState == map[] && this.registry == registry
    {
      busy := false;
      widgetState := map[];
      this.registry := registry;
    }

    /** The `busy` setter. True records and disables every Button; False writes the recorded
        flags back, raising KeyError for a recorded widget that is gone, in which case `busy` is
        not assigned and only some flags may have been written back. The record is never cleared. */
    method SetBusy(value: bool) returns (err: Option<Exc>)
      modifies this
      ensures widgetState == (if value then old(widgetState) + SavedFlags(old(registry)) else old(widgetState))
      ensures value ==> err == None && busy && registry == DisableButtons(old(registry))
      ensures !value && Restore(old(registry), old(widgetState)).Ok? ==>
        err == None && !busy && registry == Restore(old(registry), old(widgetState)).value
      ensures !value && Restore(old(registry), old(widgetState)).Err? ==>
        err == Some(KeyError) && busy == old(busy) && registry.Keys == old(registry).Keys &&
        forall k :: k in registry ==>
          registry[k] == old(registry)[k] || (k in widgetState && registry[k] == old(registry)[k].(disabled := widgetState[k]))
    {
      if value {
        DisableAll();
      } else {
        err := RestoreAll();
        if err.Some? {
          return;
        }
      }
      busy := value;
      err := None;
    }

    /** The loop over the registry in the setter's True branch. */
    method DisableAll()
      modifies this
      ensures registry == DisableButtons(old(registry))
      ensures widgetState == old(widgetState) + SavedFlags(old(registry))
      ensures busy == old(busy)
    {
      var todo := registry.Keys;
      var reg := registry;
      var state := widgetState;
      while todo != {}
        invariant todo <= reg.Keys && reg.Keys == registry.Keys
        invariant DisabledOutside(registry, reg, todo)
        invariant RecordedOutside(registry, widgetState, state, todo)
        decreases todo
      {
        var k :| k in todo;
        if reg[k].isButton {
          state := state[k := reg[k].disabled];
          reg := reg[k := reg[k].(disabled := true)];
        }
        todo := todo - {k};
      }
      DisabledByKey(registry, reg);
      RecordedByKey(registry, widgetState, state);
      registry := reg;
      widgetState := state;
    }

    /** The loop over the record in the setter's False branch. */
    method RestoreAll() returns (err: Option<Exc>)
      modifies this
      ensures widgetState == old(widgetState) && busy == old(busy)
      ensures Restore(old(registry), widgetState).Ok? ==> err == None && registry == Restore(old(registry), widgetState).value
      ensures Restore(old(registry), widgetState).Err? ==>
        err == Some(KeyError) && registry.Keys == old(registry).Keys &&
        forall k :: k in registry ==>
          registry[k] == old(registry)[k] || (k in widgetState && registry[k] == old(registry)[k].(disabled := widgetState[k]))
    {
      var todo := widgetState.Keys;
      while todo != {}
        invariant todo <= widgetState.Keys && registry.Keys == old(registry).Keys
        invariant widgetState.Keys - todo <= registry.Keys
        invariant widgetState == old(widgetState) && busy == old(busy)
        invariant forall k :: k in registry ==>
          registry[k] == (if k in widgetState && k !in todo then old(registry)[k].(disabled := widgetState[k]) else old(registry)[k])
        decreases todo
      {
        var k :| k in todo;
        if k !in registry {
          return Some(KeyError);
        }
        registry := registry[k := registry[k].(disabled := widgetState[k])];
        todo := todo - {k};
      }
      return None;
    }

    /** `_busy_check(flag)`: when busy and asked to take the guard, reports True and changes
        nothing; otherwise assigns the setter with `flag`. */
    method Check(flag: bool) returns (blocked: bool, err: Option<Exc>)
      modifies this
      ensures blocked <==> old(busy) && flag
      ensures blocked ==> err == None && busy && registry == old(registry) && widgetState == old(widgetState)
      ensures !blocked ==> widgetState == (if flag then old(widgetState) + SavedFlags(old(registry)) else old(widgetState))
      ensures !blocked && flag ==> err == None && busy && registry == DisableButtons(old(registry))
      ensures !blocked && !flag && Restore(old(registry), old(widgetState)).Ok? ==>
        err == None && !busy && registry == Restore(old(registry), old(widgetState)).value
      ensures !blocked && !flag && Restore(old(registry), old(widgetState)).Err? ==> err == Some(KeyError) && busy == old(busy)
    {
      if busy && flag {
        return true, None;
      }
      blocked := false;
      err := SetBusy(flag);
    }

    /** A call through `_decorator_function`. The decorated function's own effect is the
        exception it raises, `raised`, or none. A call made while busy is skipped; otherwise the
        function runs with the guard taken (`busyDuring`), and the guard is released in `finally`,
        whose KeyError, if the release raises one, replaces the function's exception. */
    method Guarded(raised: Option<Exc>) returns (ran: bool, busyDuring: bool, err: Option<Exc>)
      modifies this
      ensures ran <==> !old(busy)
      ensures !ran ==> err == None && busy && registry == old(registry) && widgetState == old(widgetState)
      ensures ran ==> busyDuring && widgetState == old(widgetState) + SavedFlags(old(registry))
      ensures ran && widgetState.Keys <= old(registry).Keys ==>
        err == raised && !busy && registry == Restore(DisableButtons(old(registry)), widgetState).value
      ensures ran && !(widgetState.Keys <= old(registry).Keys) ==> err == Some(KeyError) && busy
    {
      var blocked, e := Check(true);
      if blocked {
        return false, false, None;
      }
      ran := true;
      busyDuring := busy;
      var _, released := Check(false);
      err := if released.Some? then released else raised;
    }
  }

  // ------------------------------------------------------------------ clickable

  /** What `inspect.getfullargspec` reports of a function. */
  datatype Signature = Signature(args: seq<string>, varargs: bool, varkw: bool, defaults: bool)

  /** The wrapper `clickable` returns: with `self` for a one-argument function, without otherwise. */
  datatype Clickable = WithSelf | WithoutSelf

  /** `clickable(function)`: ValueError for more than one positional argument or for `*args`,
      `**kwargs` or defaults. */
  function MakeClickable(sig: Signature): (r: Result<Clickable>)
    ensures r.Ok? <==> |sig.args| <= 1 && !sig.varargs && !sig.varkw && !sig.defaults
    ensures r.Err? ==> r.exc == ValueError
    ensures r == Ok(WithSelf) <==> r.Ok? && |sig.args| == 1
  {
    if |sig.args| > 1 then Err(ValueError)
    else if sig.varargs || sig.varkw || sig.defaults then Err(ValueError)
    else if |sig.args| == 1 then Ok(WithSelf)
    else Ok(WithoutSelf)
  }

  /** Calling the wrapper with positional arguments `pos` and keyword arguments `kw`. The wrapper
      binds `self` (when it has one) and then `button`, each by position or by keyword, discards
      the button and forwards every other keyword to the function. A missing `self`, a positional
      argument too many, or a parameter given both ways is a TypeError of the wrapper itself.
      `f(args, kwargs)` stands for `function(*args, **kwargs)`, whatever that call does. */
  function CallClickable<V, R>(c: Clickable, f: (seq<V>, map<string, V>) -> R, pos: seq<V>, kw: map<string, V>): (r: Result<R>)
    ensures r.Err? ==> r.exc == TypeError
    ensures c == WithSelf ==>
      (r.Ok? <==> |pos| <= 2 && (|pos| == 0 <==> "self" in kw) && !(|pos| == 2 && "button" in kw))
    ensures c == WithoutSelf ==> (r.Ok? <==> |pos| <= 1 && !(|pos| == 1 && "button" in kw))
    ensures r.Ok? && c == WithSelf ==>
      r.value == f([if |pos| == 0 then kw["self"] else pos[0]], kw - {"self", "button"})
    ensures r.Ok? && c == WithoutSelf ==> r.value == f([], kw - {"button"})
  {
    match c
    case WithSelf =>
      if |pos| > 2 || (|pos| == 0) != ("self" in kw) || (|pos| == 2 && "button" in kw) then Err(TypeError)
      else Ok(f([if |pos| == 0 then kw["self"] else pos[0]], kw - {"self", "button"}))
    case WithoutSelf =>
      if |pos| > 1 || (|pos| == 1 && "button" in kw) then Err(TypeError)
      else Ok(f([], kw - {"button"}))
  }

  /** A clickable function gives the same result called by itself or by a button's `on_click`,
      which passes the button as one more positional argument, or with the button given by
      keyword; that result is the original function's on its own arguments, keywords included. */
  lemma ButtonIgnored<V, R>(sig: Signature, f: (seq<V>, map<string, V>) -> R, pos: seq<V>, kw: map<string, V>, button: V)
    requires MakeClickable(sig).Ok? && |pos| == |sig.args|
    requires "button" !in kw && (|sig.args| == 1 ==> "self" !in kw)
    ensures CallClickable(MakeClickable(sig).value, f, pos, kw) == Ok(f(pos, kw))
    ensures CallClickable(MakeClickable(sig).value, f, pos + [button], kw) == Ok(f(pos, kw))
    ensures CallClickable(MakeClickable(sig).value, f, pos, kw["button" := button]) == Ok(f(pos, kw))
  {
    var withButton := kw["button" := button];
    assert withButton - {"button"} == kw;
    if |pos| == 1 {
      assert kw - {"self", "button"} == kw;
      assert withButton - {"self", "button"} == kw;
      assert [pos[0]] == pos;
      assert (pos + [button])[0] == pos[0];
    } else {
      assert kw - {"button"} == kw;
    }
  }
}
