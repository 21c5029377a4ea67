/**
 * The per-plot configuration record and the narrow updates that the form's
 * controls send through the settings-update channel. Each control's callback
 * assigns exactly one field of the settings object it receives and returns
 * that same object.
 */
module Settings {
  import opened Optional

  datatype PlotType = Histogram | Bar

  datatype Scale = Linear | Log

  /** A plot's configuration; a numeric `undefined` is `None`, distinct from `Some(0.0)`. */
  datatype FilterSettings = FilterSettings(
    plotType: PlotType,
    field: string,
    groupBy: Option<string>,
    xAxisType: Option<Scale>,
    yAxisType: Option<Scale>,
    zoomMin: Option<real>,
    zoomMax: Option<real>,
    nBins: real,
    cutoffMin: Option<real>,
    cutoffMax: Option<real>)

  /** Bin count used when the bins control reports an empty or zero value. */
  const DefaultBins: real := 50.0

  /** The fields a control may change. */
  datatype Field =
    | ZoomMinField | ZoomMaxField | GroupByField | BinsField
    | XAxisField | YAxisField | CutoffMinField | CutoffMaxField

  /**
   * One update per control callback, carrying the value the control reported.
   * `SetGroupBy(None)` is the select reporting `null`.
   */
  datatype Update =
    | SetZoomMin(zoomMin: Option<real>)
    | SetZoomMax(zoomMax: Option<real>)
    | SetGroupBy(choice: Option<string>)
    | SetBins(bins: Option<real>)
    | SetXAxisType(xScale: Scale)
    | SetYAxisType(yScale: Scale)
    | SetCutoffMin(cutoffMin: Option<real>)
    | SetCutoffMax(cutoffMax: Option<real>)

  /** The single field an update is allowed to change. */
  function Target(u: Update): Field
  {
    match u
    case SetZoomMin(_) => ZoomMinField
    case SetZoomMax(_) => ZoomMaxField
    case SetGroupBy(_) => GroupByField
    case SetBins(_) => BinsField
    case SetXAxisType(_) => XAxisField
    case SetYAxisType(_) => YAxisField
    case SetCutoffMin(_) => CutoffMinField
    case SetCutoffMax(_) => CutoffMaxField
  }

  /** `t` agrees with `s` on every field except possibly `f` (and the untouched `plotType`/`field`). */
  predicate SameExcept(s: FilterSettings, t: FilterSettings, f: Field)
  {
    && t.plotType == s.plotType
    && t.field == s.field
    && (f != GroupByField ==> t.groupBy == s.groupBy)
    && (f != XAxisField ==> t.xAxisType == s.xAxisType)
    && (f != YAxisField ==> t.yAxisType == s.yAxisType)
    && (f != ZoomMinField ==> t.zoomMin == s.zoomMin)
    && (f != ZoomMaxField ==> t.zoomMax == s.zoomMax)
    && (f != BinsField ==> t.nBins == s.nBins)
    && (f != CutoffMinField ==> t.cutoffMin == s.cutoffMin)
    && (f != CutoffMaxField ==> t.cutoffMax == s.cutoffMax)
  }

  /** JavaScript's `value || 50` on an optional number (NaN is not modelled). */
  function BinsOrDefault(bins: Option<real>): (n: real)
    ensures n == DefaultBins <==> bins == None || bins == Some(0.0) || bins == Some(DefaultBins)
    ensures n != 0.0
    ensures bins.Some? && bins.value != 0.0 ==> n == bins.value
  {
    if bins == None || bins == Some(0.0) then DefaultBins else bins.value
  }

  /** The settings after one control's callback has run on `s`. */
  function Apply(u: Update, s: FilterSettings): (r: FilterSettings)
    ensures SameExcept(s, r, Target(u))
    ensures u.SetZoomMin? ==> r.zoomMin == u.zoomMin
    ensures u.SetZoomMax? ==> r.zoomMax == u.zoomMax
    ensures u.SetGroupBy? ==> r.groupBy == u.choice
    ensures u.SetBins? ==> r.nBins == BinsOrDefault(u.bins)
    ensures u.SetXAxisType? ==> r.xAxisType == Some(u.xScale)
    ensures u.SetYAxisType? ==> r.yAxisType == Some(u.yScale)
    ensures u.SetCutoffMin? ==> r.cutoffMin == u.cutoffMin
    ensures u.SetCutoffMax? ==> r.cutoffMax == u.cutoffMax
  {
    match u
    case SetZoomMin(v) => s.(zoomMin := v)
    case SetZoomMax(v) => s.(zoomMax := v)
    case SetGroupBy(v) => s.(groupBy := v)
    case SetBins(v) => s.(nBins := BinsOrDefault(v))
    case SetXAxisType(v) => s.(xAxisType := Some(v))
    case SetYAxisType(v) => s.(yAxisType := Some(v))
    case SetCutoffMin(v) => s.(cutoffMin := v)
    case SetCutoffMax(v) => s.(cutoffMax := v)
  }

  /** Running the same control's callback twice with the same value is the same as running it once. */
  lemma ApplyIdempotent(u: Update, s: FilterSettings)
    ensures Apply(u, Apply(u, s)) == Apply(u, s)
  {
  }

  /** Controls that own different fields do not interfere: their updates commute. */
  lemma ApplyCommutes(u: Update, v: Update, s: FilterSettings)
    requires Target(u) != Target(v)
    ensures Apply(u, Apply(v, s)) == Apply(v, Apply(u, s))
  {
  }

  /**
   * The settings object as the callbacks see it: a mutable record whose
   * fields are assigned in place.
   */
  class SettingsRecord {
    var plotType: PlotType
    var field: string
    var groupBy: Option<string>
    var xAxisType: Option<Scale>
    var yAxisType: Option<Scale>
    var zoomMin: Option<real>
    var zoomMax: Option<real>
    var nBins: real
    var cutoffMin: Option<real>
    var cutoffMax: Option<real>

    /** The current contents of the record as a value. */
    function Value(): FilterSettings
      reads this
    {
      FilterSettings(plotType, field, groupBy, xAxisType, yAxisType,
                     zoomMin, zoomMax, nBins, cutoffMin, cutoffMax)
    }

    constructor (s: FilterSettings)
      ensures Value() == s
    {
      plotType, field, groupBy := s.plotType, s.field, s.groupBy;
      xAxisType, yAxisType := s.xAxisType, s.yAxisType;
      zoomMin, zoomMax, nBins := s.zoomMin, s.zoomMax, s.nBins;
      cutoffMin, cutoffMax := s.cutoffMin, s.cutoffMax;
    }

    /** Runs one control's callback: assigns the one field the update targets. */
    method Assign(u: Update)
      modifies this
      ensures Value() == Apply(u, old(Value()))
      ensures SameExcept(old(Value()), Value(), Target(u))
    {
      match u
      case SetZoomMin(v) => zoomMin := v;
      case SetZoomMax(v) => zoomMax := v;
      case SetGroupBy(v) => groupBy := v;
      case SetBins(v) => nBins := BinsOrDefault(v);
      case SetXAxisType(v) => xAxisType := Some(v);
      case SetYAxisType(v) => yAxisType := Some(v);
      case SetCutoffMin(v) => cutoffMin := v;
      case SetCutoffMax(v) => cutoffMax := v;
    }
  }
}
