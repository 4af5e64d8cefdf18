/** The decision logic inside the object widgets of pyiron_gui/wrapper/widgets.py: which slice of a
    NumPy array is plotted, what the header shows, which Murnaghan fit is recomputed, and when the
    Atoms view keeps its camera orientation. Plotting and the fits themselves are not modelled. */
module Widgets {
  import opened Store

  /** A value held by an option widget or an options dictionary. */
  datatype Val = Flag(b: bool) | Int(i: int) | Real(x: real) | Text(s: string)

  /** `for key in self._options.keys(): self._options[key] = self._option_widgets[key].value`:
      every option takes its widget's value and no other option changes. */
  method ParseOptionWidgets(keys: seq<string>, options: map<string, Val>, values: map<string, Val>)
    returns (parsed: map<string, Val>)
    requires forall i :: 0 <= i < |keys| ==> keys[i] in values
    ensures parsed.Keys == options.Keys + set i | 0 <= i < |keys| :: keys[i]
    ensures forall i :: 0 <= i < |keys| ==> parsed[keys[i]] == values[keys[i]]
    ensures forall k :: k in keys ==> k in parsed && parsed[k] == values[k]
    ensures forall k :: k in options && k !in keys ==> parsed[k] == options[k]
  {
    parsed := options;
    var n := 0;
    while n < |keys|
      invariant 0 <= n <= |keys|
      invariant parsed.Keys == options.Keys + set i | 0 <= i < n :: keys[i]
      invariant forall i :: 0 <= i < n ==> parsed[keys[i]] == values[keys[i]]
      invariant forall k :: k in options && k !in keys[..n] ==> parsed[k] == options[k]
    {
      parsed := parsed[keys[n] := values[keys[n]]];
      n := n + 1;
    }
  }

  // ---------------------------------------------------------------- NumpyWidget

  /** One entry of the index tuple handed to the array: `slice(None)` or a fixed integer index. */
  datatype SliceEntry = Full | Fixed(index: int)

  /** The values of the "Plot-Dim" selection and of the "Fixed index" fields. */
  datatype PlotOptions = PlotOptions(dims: seq<nat>, idx: seq<int>)

  /** What `_plot_array` draws: the whole array, one row of it, or an indexed slice. */
  datatype Plot = NoPlot | Whole | Row(row: nat) | Slice(slc: seq<SliceEntry>)

  /** The outcome of `_plot_array`: a drawing, or the printed refusal. */
  datatype PlotChoice = Draw(plot: Plot) | Refused(message: string)

  /** The widgets a NumPy header holds. */
  datatype Item = ShowPlotButton | ShowDataButton | ReplotButton | OptionBox | HBox(items: seq<Item>) | VBox(items: seq<Item>)

  const DimsError := "Error: You need to select exactly two dimensions."

  /** `_init_plot_option_widgets`: nothing below rank 3; otherwise axes 0 and 1 are selected and
      each of the `ndim - 2` other axes is fixed at index 0. */
  function InitPlotOptions(ndim: nat): (r: Option<PlotOptions>)
    ensures ndim < 3 <==> r.None?
    ensures r.Some? ==>
      r.value.dims == [0, 1] && |r.value.idx| == ndim - 2 && forall j :: 0 <= j < |r.value.idx| ==> r.value.idx[j] == 0
  {
    if ndim < 3 then None else Some(PlotOptions([0, 1], seq(ndim - 2, _ => 0)))
  }

  /** The label of the replot button. */
  function ReplotLabel(ndim: nat): (r: string)
    ensures r == "Replot" <==> ndim < 3
    ensures r == "Apply" <==> ndim >= 3
  {
    if ndim < 3 then "Replot" else "Apply"
  }

  /** The number of axes below `k` that are not among the selected `dims`. */
  function Skipped(dims: seq<nat>, k: nat): (r: nat)
    ensures r <= k
  {
    if k == 0 then 0 else Skipped(dims, k - 1) + (if k - 1 in dims then 0 else 1)
  }

  /** With two distinct axes selected, `Skipped` is `k` less the selected axes below `k`. */
  lemma {:induction false} SkippedCount(dims: seq<nat>, k: nat)
    requires |dims| == 2 && dims[0] != dims[1]
    ensures Skipped(dims, k) == k - (if dims[0] < k then 1 else 0) - (if dims[1] < k then 1 else 0)
  {
    if k > 0 {
      SkippedCount(dims, k - 1);
    }
  }

  /** A well-formed selection: two distinct axes of the array and one fixed index per other axis. */
  predicate Selects(ndim: nat, dims: seq<nat>, idx: seq<int>)
  {
    |dims| == 2 && dims[0] != dims[1] && dims[0] < ndim && dims[1] < ndim && ndim >= 2 && |idx| == ndim - 2
  }

  /** Every axis that is not selected finds its fixed index in `idx`. */
  lemma SkippedInRange(ndim: nat, dims: seq<nat>, idx: seq<int>, k: nat)
    requires Selects(ndim, dims, idx) && k < ndim && k !in dims
    ensures Skipped(dims, k) < |idx|
  {
    assert k != dims[0] && k != dims[1] by {
      assert dims == [dims[0], dims[1]];
    }
    SkippedCount(dims, k);
  }

  /** The index tuple for the first `n` axes: a full slice for a selected axis, and for the j-th
      other axis, in increasing order, the fixed index `idx[j]`. */
  function SliceOf(ndim: nat, dims: seq<nat>, idx: seq<int>, n: nat): (r: seq<SliceEntry>)
    requires Selects(ndim, dims, idx) && n <= ndim
    ensures |r| == n
  {
    if n == 0 then []
    else
      SliceOf(ndim, dims, idx, n - 1) +
      [if n - 1 in dims then Full else SkippedInRange(ndim, dims, idx, n - 1); Fixed(idx[Skipped(dims, n - 1)])]
  }

  /** Each axis of `SliceOf` holds a full slice exactly when it is selected, and otherwise the
      fixed index of its rank among the unselected axes. */
  lemma {:induction false} SliceOfAt(ndim: nat, dims: seq<nat>, idx: seq<int>, n: nat, k: nat)
    requires Selects(ndim, dims, idx) && k < n <= ndim
    ensures SliceOf(ndim, dims, idx, n)[k] == Full <==> k in dims
    ensures k !in dims ==> Skipped(dims, k) < |idx| && SliceOf(ndim, dims, idx, n)[k] == Fixed(idx[Skipped(dims, k)])
  {
    var prev := SliceOf(ndim, dims, idx, n - 1);
    assert SliceOf(ndim, dims, idx, n)[..n - 1] == prev;
    if k !in dims {
      SkippedInRange(ndim, dims, idx, k);
    }
    if k < n - 1 {
      SliceOfAt(ndim, dims, idx, n - 1, k);
      assert SliceOf(ndim, dims, idx, n)[k] == prev[k];
    }
  }

  /** The slice loop of `_plot_array`, whose counter `i` runs over the unselected axes. */
  method SliceFor(ndim: nat, dims: seq<nat>, idx: seq<int>) returns (slc: seq<SliceEntry>)
    requires Selects(ndim, dims, idx)
    ensures slc == SliceOf(ndim, dims, idx, ndim)
  {
    slc := [];
    var i := 0;
    var index := 0;
    while index < ndim
      invariant 0 <= index <= ndim
      invariant i == Skipped(dims, index)
      invariant slc == SliceOf(ndim, dims, idx, index)
    {
      if index in dims {
        slc := slc + [Full];
      } else {
        SkippedInRange(ndim, dims, idx, index);
        slc := slc + [Fixed(idx[i])];
        i := i + 1;
      }
      index := index + 1;
    }
  }

  /** The number of full slices in an index tuple. */
  function CountFull(slc: seq<SliceEntry>): (r: nat)
    ensures r <= |slc|
  {
    if slc == [] then 0 else CountFull(slc[..|slc| - 1]) + (if slc[|slc| - 1] == Full then 1 else 0)
  }

  /** Extending the slice by one axis adds a full entry exactly when that axis is selected. */
  lemma CountFullStep(ndim: nat, dims: seq<nat>, idx: seq<int>, n: nat)
    requires Selects(ndim, dims, idx) && 0 < n <= ndim
    ensures CountFull(SliceOf(ndim, dims, idx, n)) ==
      CountFull(SliceOf(ndim, dims, idx, n - 1)) + (if n - 1 == dims[0] || n - 1 == dims[1] then 1 else 0)
  {
    var r := SliceOf(ndim, dims, idx, n);
    assert r[..n - 1] == SliceOf(ndim, dims, idx, n - 1);
    SliceOfAt(ndim, dims, idx, n, n - 1);
    assert n - 1 in dims <==> n - 1 == dims[0] || n - 1 == dims[1] by {
      assert dims == [dims[0], dims[1]];
    }
  }

  /** The slice for two distinct selected axes has exactly two full entries. */
  lemma {:induction false} TwoFullAxes(ndim: nat, dims: seq<nat>, idx: seq<int>, n: nat)
    requires Selects(ndim, dims, idx) && n <= ndim
    ensures CountFull(SliceOf(ndim, dims, idx, n)) == (if dims[0] < n then 1 else 0) + (if dims[1] < n then 1 else 0)
    ensures n == ndim ==> CountFull(SliceOf(ndim, dims, idx, n)) == 2
  {
    if n > 0 {
      TwoFullAxes(ndim, dims, idx, n - 1);
      CountFullStep(ndim, dims, idx, n);
    }
  }

  /** The slice used without plot options: `[:, :, 0, ..., 0]`. */
  function DefaultSlice(ndim: nat): (r: seq<SliceEntry>)
    requires ndim >= 2
    ensures |r| == ndim && r[0] == Full && r[1] == Full
    ensures forall k :: 2 <= k < ndim ==> r[k] == Fixed(0)
  {
    [Full, Full] + seq(ndim - 2, _ => Fixed(0))
  }

  /** The initial selection (axes 0 and 1, every fixed index 0) slices the array as
      `[:, :, 0, ..., 0]`, the slice used without plot options. */
  lemma InitialSelectionIsDefault(ndim: nat)
    requires ndim >= 3
    ensures Selects(ndim, [0, 1], seq(ndim - 2, _ => 0))
    ensures SliceOf(ndim, [0, 1], seq(ndim - 2, _ => 0), ndim) == DefaultSlice(ndim)
  {
    var idx: seq<int> := seq(ndim - 2, _ => 0);
    var r := SliceOf(ndim, [0, 1], idx, ndim);
    forall k | 0 <= k < ndim
      ensures r[k] == DefaultSlice(ndim)[k]
    {
      SliceOfAt(ndim, [0, 1], idx, ndim, k);
    }
  }

  /** NumPy's bounds for an index tuple over an array of `shape`: a fixed index on an axis of
      length `n` lies in `-n .. n-1` (negative indices count from the end); otherwise indexing
      raises IndexError. */
  predicate InBounds(shape: seq<nat>, slc: seq<SliceEntry>)
  {
    |slc| == |shape| &&
    forall k :: 0 <= k < |slc| && slc[k].Fixed? ==> -(shape[k] as int) <= slc[k].index < shape[k]
  }

  /** The first plot, `[:, :, 0, ..., 0]`, is in bounds exactly when no axis past the first two is
      empty. */
  lemma DefaultSliceInBounds(shape: seq<nat>)
    requires |shape| >= 2
    ensures InBounds(shape, DefaultSlice(|shape|)) <==> forall k :: 2 <= k < |shape| ==> shape[k] > 0
  {
    var slc := DefaultSlice(|shape|);
    if forall k :: 2 <= k < |shape| ==> shape[k] > 0 {
      assert InBounds(shape, slc);
    } else {
      var k :| 2 <= k < |shape| && shape[k] == 0;
      assert slc[k] == Fixed(0);
    }
  }

  /** The option widgets as `__init__` creates them select the first slice, and an array with no
      empty axis past the first two can take it. */
  lemma InitialPlotInBounds(shape: seq<nat>)
    requires |shape| >= 3 && forall k :: 2 <= k < |shape| ==> shape[k] > 0
    ensures var o := InitPlotOptions(|shape|).value;
      Selects(|shape|, o.dims, o.idx) && SliceOf(|shape|, o.dims, o.idx, |shape|) == DefaultSlice(|shape|) &&
      InBounds(shape, DefaultSlice(|shape|))
  {
    InitialSelectionIsDefault(|shape|);
    DefaultSliceInBounds(shape);
    assert InitPlotOptions(|shape|).value == PlotOptions([0, 1], seq(|shape| - 2, _ => 0));
  }

  /** Values the option widgets can hold: distinct axes of the array, as a multiple selection
      gives them, and one fixed index per axis beyond the first two. */
  predicate Fits(ndim: nat, o: PlotOptions)
  {
    ndim >= 2 && |o.idx| == ndim - 2 &&
    (forall j :: 0 <= j < |o.dims| ==> o.dims[j] < ndim) &&
    (forall i, j :: 0 <= i < j < |o.dims| ==> o.dims[i] != o.dims[j])
  }

  class NumpyWidget {
    /** The array's `shape`, its `ndim` and `len`, its number of rows. */
    const shape: seq<nat>
    const ndim: nat
    const rows: nat
    const replotLabel: string
    var plotOptions: Option<PlotOptions>
    var header: seq<Item>
    var plot: Plot
    var message: Option<string>

    /** The option widgets exist exactly from rank 3 on, with a fixed index per unselected axis. */
    ghost predicate Valid()
      reads this
    {
      ndim == |shape| && (ndim >= 1 ==> rows == shape[0]) &&
      (plotOptions.Some? <==> ndim >= 3) && (plotOptions.Some? ==> Fits(ndim, plotOptions.value))
    }

    /** The header shown with a plot: the two buttons in an HBox below rank 3, next to the option
        box from rank 3 on. */
    function PlotHeader(): (r: seq<Item>)
      ensures ndim < 3 ==> r == [HBox([ShowDataButton, ReplotButton])]
      ensures ndim >= 3 ==> r == [OptionBox, VBox([ShowDataButton, ReplotButton])]
    {
      if ndim >= 3 then [OptionBox, VBox([ShowDataButton, ReplotButton])] else [HBox([ShowDataButton, ReplotButton])]
    }

    /** `__init__` for an array of `shape`: option widgets and button label by rank, then a first
        plot and the plot header. A 0-d array makes `_plot_array` raise IndexError, and so does an
        empty axis past the first two for the first slice, so neither is constructed. */
    constructor(shape: seq<nat>)
      requires |shape| >= 1
      requires forall k :: 2 <= k < |shape| ==> shape[k] > 0
      ensures Valid() && this.shape == shape
      ensures plotOptions == InitPlotOptions(ndim) && replotLabel == ReplotLabel(ndim)
      ensures header == PlotHeader()
      ensures ndim == 1 ==> plot == Whole
      ensures ndim == 2 ==> plot == (if rows == 1 then Row(0) else Whole)
      ensures ndim >= 3 ==> plot == Slice(DefaultSlice(ndim))
    {
      this.shape := shape;
      ndim := |shape|;
      rows := shape[0];
      replotLabel := ReplotLabel(|shape|);
      plotOptions := InitPlotOptions(|shape|);
      header := [];
      plot := NoPlot;
      message := None;
      new;
      if ndim >= 3 {
        InitialPlotInBounds(shape);
      }
      var err := PlotArray();
      ShowPlot();
    }

    /** `_plot_array`: a 1-D array is plotted whole; a 2-D array by its row 0 when it has one row,
        otherwise whole; a higher rank by the selected slice, or not at all, printing the error,
        unless exactly two axes are selected. A fixed index outside its axis raises IndexError and
        nothing is drawn. */
    method PlotArray() returns (err: Option<Exc>)
      requires Valid() && ndim >= 1
      modifies this
      ensures Valid() && plotOptions == old(plotOptions) && header == old(header)
      ensures ndim == 1 ==> err == None && plot == Whole && message == old(message)
      ensures ndim == 2 ==> err == None && plot == (if rows == 1 then Row(0) else Whole) && message == old(message)
      ensures ndim >= 3 && |plotOptions.value.dims| != 2 ==> err == None && plot == old(plot) && message == Some(DimsError)
      ensures ndim >= 3 && |plotOptions.value.dims| == 2 ==>
        message == old(message) && Selects(ndim, plotOptions.value.dims, plotOptions.value.idx) &&
        var slc := SliceOf(ndim, plotOptions.value.dims, plotOptions.value.idx, ndim);
        if InBounds(shape, slc) then err == None && plot == Slice(slc) && CountFull(plot.slc) == 2
        else err == Some(IndexError) && plot == old(plot)
    {
      err := None;
      if ndim == 1 {
        plot := Whole;
      } else if ndim == 2 {
        plot := if rows == 1 then Row(0) else Whole;
      } else {
        var opts := plotOptions.value;
        if |opts.dims| != 2 {
          message := Some(DimsError);
          return;
        }
        var slc := SliceFor(ndim, opts.dims, opts.idx);
        if !InBounds(shape, slc) {
          return Some(IndexError);
        }
        TwoFullAxes(ndim, opts.dims, opts.idx, ndim);
        plot := Slice(slc);
      }
    }

    /** `_show_plot`. */
    method ShowPlot()
      modifies this
      ensures header == PlotHeader()
      ensures plotOptions == old(plotOptions) && plot == old(plot) && message == old(message)
    {
      header := PlotHeader();
    }

    /** `_show_data_only`: the header holds only the "Show plot" button. */
    method ShowDataOnly()
      modifies this
      ensures header == [ShowPlotButton]
      ensures plotOptions == old(plotOptions) && plot == old(plot) && message == old(message)
    {
      header := [ShowPlotButton];
    }

    /** `_click_replot_button` after the user has set the option widgets to `values`: the array is
        plotted again and the plot header restored; an IndexError of the plot propagates before
        the header is touched. */
    method ClickReplot(values: PlotOptions) returns (err: Option<Exc>)
      requires Valid() && ndim >= 1
      requires ndim >= 3 ==> Fits(ndim, values)
      modifies this
      ensures Valid() && header == (if err.Some? then old(header) else PlotHeader())
      ensures plotOptions == (if ndim >= 3 then Some(values) else old(plotOptions))
      ensures ndim == 1 ==> err == None && plot == Whole && message == old(message)
      ensures ndim == 2 ==> err == None && plot == (if rows == 1 then Row(0) else Whole) && message == old(message)
      ensures ndim >= 3 && |values.dims| != 2 ==> err == None && plot == old(plot) && message == Some(DimsError)
      ensures ndim >= 3 && |values.dims| == 2 ==>
        message == old(message) &&
        var slc := SliceOf(ndim, values.dims, values.idx, ndim);
        if InBounds(shape, slc) then err == None && plot == Slice(slc) && CountFull(plot.slc) == 2
        else err == Some(IndexError) && plot == old(plot)
    {
      if ndim >= 3 {
        plotOptions := Some(values);
      }
      err := PlotArray();
      if err.Some? {
        return;
      }
      ShowPlot();
    }
  }

  // ------------------------------------------------------------ MurnaghanWidget

  /** The fit `_update_box` recomputes before plotting. */
  datatype FitAction = NoFit | FitPolynomial(order: Val) | FitBirchMurnaghan | FitMurnaghan | FitVinet | FitGeneral(fitType: Val)

  const Polynomial := Text("polynomial")

  /** The refit chain of `MurnaghanWidget._update_box` for the requested fit type and order against
      the object's cached `input['fit_type']` and `input['fit_order']`. */
  function RefitDecision(fitType: Val, fitOrder: Val, cachedType: Val, cachedOrder: Val): (r: FitAction)
    ensures r.FitPolynomial? ==> fitType == Polynomial && r.order == fitOrder
    ensures r.FitGeneral? ==> r.fitType == fitType
    ensures r == NoFit <==> cachedType == fitType && (fitType == Polynomial ==> cachedOrder == fitOrder)
  {
    if fitType == Polynomial && (cachedType != Polynomial || cachedOrder != fitOrder) then FitPolynomial(fitOrder)
    else if fitType == Text("birchmurnaghan") && cachedType != fitType then FitBirchMurnaghan
    else if fitType == Text("murnaghan") && cachedType != fitType then FitMurnaghan
    else if fitType == Text("vinet") && cachedType != fitType then FitVinet
    else if cachedType != fitType then FitGeneral(fitType)
    else NoFit
  }

  /** A refit runs the routine named by the requested type, and the general routine for a type
      without one of its own. */
  lemma RefitMatchesRequest(fitType: Val, fitOrder: Val, cachedType: Val, cachedOrder: Val)
    ensures var r := RefitDecision(fitType, fitOrder, cachedType, cachedOrder);
      (r == FitBirchMurnaghan <==> fitType == Text("birchmurnaghan") && cachedType != fitType) &&
      (r == FitMurnaghan <==> fitType == Text("murnaghan") && cachedType != fitType) &&
      (r == FitVinet <==> fitType == Text("vinet") && cachedType != fitType) &&
      (r.FitGeneral? <==>
        cachedType != fitType && fitType !in [Polynomial, Text("birchmurnaghan"), Text("murnaghan"), Text("vinet")])
  {
  }

  class MurnaghanWidget {
    /** The Murnaghan object's `input['fit_type']` and `input['fit_order']`. */
    const cachedType: Val
    const cachedOrder: Val
    var options: map<string, Val>
    /** `disabled` and `layout.display == "none"` of the fit-order field. */
    var orderDisabled: bool
    var orderHidden: bool
    var lastFit: FitAction

    ghost predicate Valid()
      reads this
    {
      options.Keys == {"fit_type", "fit_order"}
    }

    /** `__init__`: the cached fit type and order 3, with the order field shown only for a
        polynomial fit. */
    constructor(cachedType: Val, cachedOrder: Val)
      ensures Valid() && this.cachedType == cachedType && this.cachedOrder == cachedOrder
      ensures options == map["fit_type" := cachedType, "fit_order" := Int(3)]
      ensures orderDisabled == orderHidden == (cachedType != Polynomial)
      ensures lastFit == NoFit
    {
      this.cachedType := cachedType;
      this.cachedOrder := cachedOrder;
      options := map["fit_type" := cachedType, "fit_order" := Int(3)];
      lastFit := NoFit;
      new;
      OnChangeFitType(cachedType);
    }

    /** `_on_change_fit_type`: the order field is disabled and hidden exactly for a fit type other
        than "polynomial". */
    method OnChangeFitType(fitType: Val)
      modifies this
      ensures orderDisabled <==> fitType != Polynomial
      ensures orderHidden <==> fitType != Polynomial
      ensures options == old(options) && lastFit == old(lastFit)
    {
      if fitType != Polynomial {
        orderDisabled := true;
        orderHidden := true;
      } else {
        orderDisabled := false;
        orderHidden := false;
      }
    }

    /** `_update_box` with the option widgets holding `values`: the options are parsed and the
        refit chain chooses the fit to run. */
    method UpdateBox(values: map<string, Val>)
      requires Valid() && "fit_type" in values && "fit_order" in values
      modifies this
      ensures Valid()
      ensures options == map["fit_type" := values["fit_type"], "fit_order" := values["fit_order"]]
      ensures lastFit == RefitDecision(values["fit_type"], values["fit_order"], cachedType, cachedOrder)
      ensures lastFit == NoFit <==>
        cachedType == values["fit_type"] && (values["fit_type"] == Polynomial ==> cachedOrder == values["fit_order"])
      ensures orderDisabled == old(orderDisabled) && orderHidden == old(orderHidden)
    {
      var keys := ["fit_type", "fit_order"];
      options := ParseOptionWidgets(keys, options, values);
      assert options["fit_type"] == values["fit_type"] by {
        assert keys[0] == "fit_type";
      }
      assert options["fit_order"] == values["fit_order"] by {
        assert keys[1] == "fit_order";
      }
      assert options.Keys == {"fit_type", "fit_order"} by {
        assert forall i :: 0 <= i < |keys| ==> keys[i] in {"fit_type", "fit_order"};
      }
      lastFit := RefitDecision(options["fit_type"], options["fit_order"], cachedType, cachedOrder);
    }
  }

  // ---------------------------------------------------------------- AtomsWidget

  const AtomsKeys := ["particle_size", "camera", "reset_view", "axes", "cell"]

  /** The options of a new Atoms widget. */
  const AtomsDefaults := map[
    "particle_size" := Real(1.0), "camera" := Text("orthographic"), "reset_view" := Flag(false),
    "axes" := Flag(true), "cell" := Flag(true)]

  /** The keys `_parse_option_widgets` walks are exactly the option keys. */
  lemma AtomsKeysCover()
    ensures forall k :: k in AtomsKeys <==> k in AtomsDefaults
    ensures (set i | 0 <= i < |AtomsKeys| :: AtomsKeys[i]) == AtomsDefaults.Keys
  {
    assert forall k :: k in AtomsKeys <==> k in AtomsDefaults;
  }

  /** The NGL view drawn last, with the camera orientation it was given when drawn. */
  datatype View = View(orientation: seq<real>)

  /** The orientation `_update_ngl_widget` leaves on the new view. `captured` is the
      `_camera_orientation` the old view reports at update time, which includes any rotation the
      user made since it was drawn; it is read only when there is an old view. The captured
      orientation is kept when "reset view" is unchecked and it has 16 entries, otherwise the new
      view keeps its own orientation `drawn`. */
  function Orientation(resetView: Val, hadView: bool, captured: seq<real>, drawn: seq<real>): (r: seq<real>)
    ensures r != drawn ==> hadView && r == captured && |captured| == 16
  {
    var orient := if hadView then captured else [];
    if resetView == Flag(false) && |orient| == 16 then orient else drawn
  }

  /** Each case of the rule: a reset or a first view shows the new view's own orientation, and with
      "reset view" off the camera the user left on the old view is carried over whenever it reported
      a full 16-entry orientation. */
  lemma OrientationRestored(resetView: Val, hadView: bool, captured: seq<real>, drawn: seq<real>)
    ensures resetView == Flag(true) || !hadView || |captured| != 16 ==>
      Orientation(resetView, hadView, captured, drawn) == drawn
    ensures resetView == Flag(false) && hadView && |captured| == 16 ==>
      Orientation(resetView, hadView, captured, drawn) == captured
  {
  }

  class AtomsWidget {
    var options: map<string, Val>
    var view: Option<View>

    ghost predicate Valid()
      reads this
    {
      options.Keys == AtomsDefaults.Keys
    }

    /** `__init__`: the default options and no view yet. */
    constructor()
      ensures Valid() && options == AtomsDefaults && view == None
    {
      options := AtomsDefaults;
      view := None;
    }

    /** `_update_ngl_widget` with the option widgets holding `values`, where `captured` is the
        orientation the old view reports (ignored without an old view) and `drawn` that of the newly
        drawn view: every option takes its widget's value, and the new view's orientation follows
        `Orientation`. */
    method UpdateView(values: map<string, Val>, captured: seq<real>, drawn: seq<real>)
      requires Valid() && forall k :: k in AtomsDefaults ==> k in values
      modifies this
      ensures Valid()
      ensures forall k :: k in options ==> options[k] == values[k]
      ensures view == Some(View(Orientation(values["reset_view"], old(view).Some?, captured, drawn)))
    {
      AtomsKeysCover();
      options := ParseOptionWidgets(AtomsKeys, options, values);
      var orient: seq<real> := if view.Some? then captured else [];
      var newView := View(drawn);
      if options["reset_view"] == Flag(false) && |orient| == 16 {
        newView := View(orient);
      }
      view := Some(newView);
    }
  }
}
