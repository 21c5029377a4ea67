/** Which of the form's controls apply to a plot, by plot type. */
module Visibility {
  import opened Settings

  datatype Control = ZoomRange | GroupBySelect | BinCount | XAxisScale | YAxisScale | CutoffThresholds

  /** Controls that only make sense for a histogram. */
  predicate HistogramOnly(c: Control)
  {
    c == ZoomRange || c == BinCount || c == YAxisScale || c == CutoffThresholds
  }

  /** The controls the form shows for a plot of type `t`. */
  function VisibleControls(t: PlotType): (r: set<Control>)
    ensures GroupBySelect in r && XAxisScale in r
    ensures t == Bar ==> forall c :: c in r ==> !HistogramOnly(c)
  {
    match t
    case Histogram => {ZoomRange, GroupBySelect, BinCount, XAxisScale, YAxisScale, CutoffThresholds}
    case Bar => {GroupBySelect, XAxisScale}
  }

  /** A control is shown exactly when the plot is a histogram or the control is not histogram-only. */
  lemma VisibleExactly(t: PlotType, c: Control)
    ensures c in VisibleControls(t) <==> (t == Histogram || !HistogramOnly(c))
  {
  }

  /** The heading of the collapsible section; bar plots have no threshold part. */
  function SectionTitle(t: PlotType): (title: string)
    ensures title == "Visualisation Settings & Filter Thresholds" <==> CutoffThresholds in VisibleControls(t)
    ensures t == Bar ==> title == "Visualisation Settings "
  {
    "Visualisation Settings " + (if t == Bar then "" else "& Filter Thresholds")
  }
}
