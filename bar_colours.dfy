/** Per-bar colour choices of the quality, data-quality and validation panels,
    and what those panels draw (the placeholder, or one bar per entry). */
module BarColours {
  import opened Entries

  /** The matplotlib colours the bar charts use: 'green', 'orange', 'red', 'gray'. */
  datatype Colour = Green | Orange | Red | Gray

  /** How bad a score colour is: green best, red worst. */
  function Severity(c: Colour): nat
  {
    match c
    case Green => 0
    case Orange => 1
    case Red => 2
    case Gray => 3
  }

  /** One named score of a metrics dictionary. */
  datatype Score = Score(name: string, value: real)

  /** What a bar panel shows: a placeholder text, or bars given by label, length and colour. */
  datatype Chart =
    | NoChart(message: string)
    | Bars(labels: seq<string>, lengths: seq<real>, colours: seq<Colour>)

  // ---------------------------------------------------------------------
  // Grid quality scores: strict thresholds 0.8 and 0.6.
  // ---------------------------------------------------------------------

  /** Colour of one grid quality score. */
  function QualityColour(v: real): Colour
  {
    if v > 0.8 then Green else if v > 0.6 then Orange else Red
  }

  /** The colour list of `_plot_quality_metrics_chart`: green above 0.8, orange
      above 0.6 up to and including 0.8, red at 0.6 and below. */
  function QualityColours(values: seq<real>): (colours: seq<Colour>)
    ensures |colours| == |values|
    ensures forall i :: 0 <= i < |values| ==>
              (colours[i] == Green <==> values[i] > 0.8) &&
              (colours[i] == Orange <==> 0.6 < values[i] <= 0.8) &&
              (colours[i] == Red <==> values[i] <= 0.6)
  {
    seq(|values|, i requires 0 <= i < |values| => QualityColour(values[i]))
  }

  /** `_plot_quality_metrics_chart`: a placeholder for no metrics, otherwise one
      horizontal bar per metric, in dictionary order. */
  function QualityMetricsChart(metrics: seq<Score>): (chart: Chart)
    ensures chart.NoChart? <==> metrics == []
    ensures chart.NoChart? ==> chart.message == "No quality metrics available"
    ensures chart.Bars? ==>
              |chart.labels| == |chart.lengths| == |chart.colours| == |metrics| &&
              forall i :: 0 <= i < |metrics| ==>
                chart.labels[i] == metrics[i].name && chart.lengths[i] == metrics[i].value &&
                (chart.colours[i] == Green <==> metrics[i].value > 0.8) &&
                (chart.colours[i] == Orange <==> 0.6 < metrics[i].value <= 0.8) &&
                (chart.colours[i] == Red <==> metrics[i].value <= 0.6)
  {
    if metrics == [] then NoChart("No quality metrics available")
    else
      var values := seq(|metrics|, i requires 0 <= i < |metrics| => metrics[i].value);
      Bars(seq(|metrics|, i requires 0 <= i < |metrics| => metrics[i].name), values, QualityColours(values))
  }

  // ---------------------------------------------------------------------
  // Data quality scores: non-strict thresholds 0.9 and 0.8.
  // ---------------------------------------------------------------------

  /** Colour of one data quality score. */
  function DataQualityColour(v: real): Colour
  {
    if v >= 0.9 then Green else if v >= 0.8 then Orange else Red
  }

  /** The colour list of `_plot_data_quality_metrics`: green from 0.9, orange from
      0.8 up to but excluding 0.9, red below 0.8. */
  function DataQualityColours(values: seq<real>): (colours: seq<Colour>)
    ensures |colours| == |values|
    ensures forall i :: 0 <= i < |values| ==>
              (colours[i] == Green <==> values[i] >= 0.9) &&
              (colours[i] == Orange <==> 0.8 <= values[i] < 0.9) &&
              (colours[i] == Red <==> values[i] < 0.8)
  {
    seq(|values|, i requires 0 <= i < |values| => DataQualityColour(values[i]))
  }

  /** `_plot_data_quality_metrics`: one vertical bar per metric; this panel has no
      empty-dictionary placeholder, so no metrics draw no bars. */
  function DataQualityChart(metrics: seq<Score>): (chart: Chart)
    ensures chart.Bars?
    ensures |chart.labels| == |chart.lengths| == |chart.colours| == |metrics|
    ensures forall i :: 0 <= i < |metrics| ==>
              chart.labels[i] == metrics[i].name && chart.lengths[i] == metrics[i].value &&
              (chart.colours[i] == Green <==> metrics[i].value >= 0.9) &&
              (chart.colours[i] == Orange <==> 0.8 <= metrics[i].value < 0.9) &&
              (chart.colours[i] == Red <==> metrics[i].value < 0.8)
  {
    var values := seq(|metrics|, i requires 0 <= i < |metrics| => metrics[i].value);
    Bars(seq(|metrics|, i requires 0 <= i < |metrics| => metrics[i].name), values, DataQualityColours(values))
  }

  // ---------------------------------------------------------------------
  // Validation statuses: a categorical map with a gray default.
  // ---------------------------------------------------------------------

  /** The `colors` dictionary of `_plot_validation_results`. */
  const StatusColours: map<string, Colour> := map["PASS" := Green, "WARNING" := Orange, "FAIL" := Red]

  /** `colors.get(status, 'gray')`. */
  function StatusColour(status: string): Colour
  {
    if status in StatusColours then StatusColours[status] else Gray
  }

  /** One colour per validation result, in order: PASS green, WARNING orange,
      FAIL red, any other status (matched exactly, case included) gray. */
  function ValidationColours(statuses: seq<string>): (colours: seq<Colour>)
    ensures |colours| == |statuses|
    ensures forall i :: 0 <= i < |statuses| ==>
              (colours[i] == Green <==> statuses[i] == "PASS") &&
              (colours[i] == Orange <==> statuses[i] == "WARNING") &&
              (colours[i] == Red <==> statuses[i] == "FAIL") &&
              (colours[i] == Gray <==> statuses[i] !in {"PASS", "WARNING", "FAIL"})
  {
    seq(|statuses|, i requires 0 <= i < |statuses| => StatusColour(statuses[i]))
  }

  /** `_plot_validation_results`: a placeholder for no results, otherwise one bar of
      length 1 per check, labelled with the check's name and coloured by its status. */
  function ValidationChart(results: seq<Pair>): (chart: Chart)
    ensures chart.NoChart? <==> results == []
    ensures chart.NoChart? ==> chart.message == "No validation results"
    ensures chart.Bars? ==>
              |chart.labels| == |chart.lengths| == |chart.colours| == |results| &&
              forall i :: 0 <= i < |results| ==>
                chart.labels[i] == results[i].key && chart.lengths[i] == 1.0 &&
                (chart.colours[i] == Green <==> results[i].value == "PASS") &&
                (chart.colours[i] == Orange <==> results[i].value == "WARNING") &&
                (chart.colours[i] == Red <==> results[i].value == "FAIL") &&
                (chart.colours[i] == Gray <==> results[i].value !in {"PASS", "WARNING", "FAIL"})
  {
    if results == [] then NoChart("No validation results")
    else
      var statuses := seq(|results|, i requires 0 <= i < |results| => results[i].value);
      Bars(seq(|results|, i requires 0 <= i < |results| => results[i].key),
           seq(|results|, _ => 1.0),
           ValidationColours(statuses))
  }

  // ---------------------------------------------------------------------
  // Properties relating the classifiers.
  // ---------------------------------------------------------------------

  /** A higher score never gets a worse colour, under either set of thresholds. */
  lemma ScoreColoursMonotone(a: real, b: real)
    requires a <= b
    ensures Severity(QualityColour(b)) <= Severity(QualityColour(a))
    ensures Severity(DataQualityColour(b)) <= Severity(DataQualityColour(a))
  {
  }

  /** The data-quality thresholds are the stricter ones: a data-quality green is a
      grid-quality green, and a grid-quality red is a data-quality red. */
  lemma DataQualityIsStricter(v: real)
    ensures DataQualityColour(v) == Green ==> QualityColour(v) == Green
    ensures QualityColour(v) == Red ==> DataQualityColour(v) == Red
    ensures Severity(QualityColour(v)) <= Severity(DataQualityColour(v))
  {
  }

  /** The boundaries: 0.8 and 0.6 are excluded from the better band for grid
      quality, 0.9 and 0.8 included for data quality; 0.85 differs between the two. */
  lemma ThresholdBoundaries()
    ensures QualityColour(0.8) == Orange && QualityColour(0.6) == Red
    ensures DataQualityColour(0.9) == Green && DataQualityColour(0.8) == Orange
    ensures QualityColour(0.85) == Green && DataQualityColour(0.85) == Orange
  {
  }

  /** Scores 0.95, 0.75, 0.5 colour green, orange, red; statuses PASS, WARNING,
      UNKNOWN colour green, orange, gray. */
  lemma ColourExamples()
    ensures QualityColours([0.95, 0.75, 0.5]) == [Green, Orange, Red]
    ensures ValidationColours(["PASS", "WARNING", "UNKNOWN"]) == [Green, Orange, Gray]
  {
  }

  /** The four fixed grid quality scores of `_calculate_quality_metrics`
      (0.85, 0.95, 0.92, 0.88) are all green. */
  lemma QualityFixture()
    ensures QualityColours([0.85, 0.95, 0.92, 0.88]) == [Green, Green, Green, Green]
  {
  }

  /** The five fixed statuses of `_run_validation_checks` are green but for the
      orange WARNING of the time-stepping check. */
  lemma ValidationFixture()
    ensures ValidationColours(["PASS", "PASS", "WARNING", "PASS", "PASS"]) == [Green, Green, Orange, Green, Green]
  {
  }

  /** The five fixed scores of `_plot_data_quality_metrics` (0.95, 0.88, 0.92,
      0.85, 0.90) alternate green and orange. */
  lemma DataQualityFixture()
    ensures DataQualityColours([0.95, 0.88, 0.92, 0.85, 0.90]) == [Green, Orange, Green, Orange, Green]
  {
  }
}
