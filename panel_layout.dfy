/** The panel dictionaries the three overview entry points return. Each entry
    point stores its panels one by one into `axes`, a dict from panel name to
    the axes placed on a GridSpec; here an axes is the rectangle of grid cells
    it spans and whether it carries a map projection. */
module PanelLayout {

  /** The panel names used as dict keys by the three entry points. */
  datatype Panel =
    | Grid | Boundaries | DataLocations | Quality | Validation | DataSummary | Timeseries | Info
    | DepthHist | SizeHist | Stats
    | Atmospheric | BoundaryLocations | Coverage | AtmTimeseries | BoundaryTs | DataQuality | DataStats

  /** The string key of each panel. */
  function Key(p: Panel): string
  {
    match p
    case Grid => "grid"
    case Boundaries => "boundaries"
    case DataLocations => "data_locations"
    case Quality => "quality"
    case Validation => "validation"
    case DataSummary => "data_summary"
    case Timeseries => "timeseries"
    case Info => "info"
    case DepthHist => "depth_hist"
    case SizeHist => "size_hist"
    case Stats => "stats"
    case Atmospheric => "atmospheric"
    case BoundaryLocations => "boundary_locations"
    case Coverage => "coverage"
    case AtmTimeseries => "atm_timeseries"
    case BoundaryTs => "boundary_ts"
    case DataQuality => "data_quality"
    case DataStats => "data_stats"
  }

  /** Half-open range `lo:hi` of GridSpec rows or columns. */
  datatype Span = Span(lo: nat, hi: nat)

  /** The GridSpec cells an axes spans; `geographic` when it is added with a map projection. */
  datatype Region = Region(rows: Span, cols: Span, geographic: bool)

  /** The dict of axes, keyed by panel. */
  type Axes = map<Panel, Region>

  /** `gs[i]` on one axis. */
  function At(i: nat): Span
  {
    Span(i, i + 1)
  }

  predicate Contains(r: Region, i: nat, j: nat)
  {
    r.rows.lo <= i < r.rows.hi && r.cols.lo <= j < r.cols.hi
  }

  /** The string keys of the dict. */
  function KeyStrings(axes: Axes): set<string>
  {
    set p | p in axes :: Key(p)
  }

  /** `r` is a rectangle inside an `nRows` by `nCols` grid covering exactly the
      cells `owner` gives to `key`. */
  ghost predicate Owns(r: Region, key: Panel, nRows: nat, nCols: nat, owner: (nat, nat) -> Panel)
  {
    && r.rows.lo < r.rows.hi <= nRows && r.cols.lo < r.cols.hi <= nCols
    && forall i: nat, j: nat :: i < nRows && j < nCols ==> (Contains(r, i, j) <==> owner(i, j) == key)
  }

  /** Every axes of the dict covers exactly the cells `owner` gives to its key. */
  ghost predicate Tiles(axes: Axes, nRows: nat, nCols: nat, owner: (nat, nat) -> Panel)
  {
    forall k :: k in axes ==> Owns(axes[k], k, nRows, nCols, owner)
  }

  /** Map projections on exactly the `mapPanels`. */
  ghost predicate ProjectedOn(axes: Axes, mapPanels: set<Panel>)
  {
    forall k :: k in axes ==> (axes[k].geographic <==> k in mapPanels)
  }

  /** No two axes of a tiled dict share a cell. */
  lemma TiledPanelsAreDisjoint(axes: Axes, nRows: nat, nCols: nat,
                               owner: (nat, nat) -> Panel, k1: Panel, k2: Panel, i: nat, j: nat)
    requires Tiles(axes, nRows, nCols, owner)
    requires k1 in axes && k2 in axes && k1 != k2
    ensures !(Contains(axes[k1], i, j) && Contains(axes[k2], i, j))
  {
    if Contains(axes[k1], i, j) {
      assert Owns(axes[k1], k1, nRows, nCols, owner);
      assert i < nRows && j < nCols;
      assert owner(i, j) == k1;
    }
  }

  /** In a tiled dict holding every owner, each grid cell lies in exactly one axes. */
  lemma FullTilingCoversOnce(axes: Axes, nRows: nat, nCols: nat, owner: (nat, nat) -> Panel, i: nat, j: nat)
    requires Tiles(axes, nRows, nCols, owner)
    requires i < nRows && j < nCols && owner(i, j) in axes
    ensures Contains(axes[owner(i, j)], i, j)
    ensures forall k :: k in axes && Contains(axes[k], i, j) ==> k == owner(i, j)
  {
    assert Owns(axes[owner(i, j)], owner(i, j), nRows, nCols, owner);
    forall k | k in axes && Contains(axes[k], i, j) ensures k == owner(i, j) {
      assert Owns(axes[k], k, nRows, nCols, owner);
    }
  }

  // ---------------------------------------------------------------------
  // plot_comprehensive_overview: a 4 x 4 GridSpec.
  // ---------------------------------------------------------------------

  /** The panels, with the three optional ones present exactly when their flag is set. */
  function ComprehensivePanels(includeValidation: bool, includeQualityMetrics: bool, includeDataSummary: bool): set<Panel>
  {
    {Grid, Boundaries, DataLocations, Timeseries, Info}
      + (if includeQualityMetrics then {Quality} else {})
      + (if includeValidation then {Validation} else {})
      + (if includeDataSummary then {DataSummary} else {})
  }

  /** Which panel each cell of the 4 x 4 grid belongs to: the grid map takes the
      top-left 2 x 2 block, boundaries and data locations the rest of the top two
      rows, the third row holds four small panels, and model info the last row. */
  function ComprehensiveOwner(i: nat, j: nat): Panel
  {
    if i < 2 then (if j < 2 then Grid else if j == 2 then Boundaries else DataLocations)
    else if i == 2 then
      (if j == 0 then Quality else if j == 1 then Validation else if j == 2 then DataSummary else Timeseries)
    else Info
  }

  /** The GridSpec slice each panel is added on: `gs[0:2, 0:2]` for the grid map and so on. */
  function ComprehensiveRegion(p: Panel): Region
    requires p in ComprehensivePanels(true, true, true)
  {
    match p
    case Grid => Region(Span(0, 2), Span(0, 2), true)
    case Boundaries => Region(Span(0, 2), At(2), true)
    case DataLocations => Region(Span(0, 2), At(3), true)
    case Quality => Region(At(2), At(0), false)
    case Validation => Region(At(2), At(1), false)
    case DataSummary => Region(At(2), At(2), false)
    case Timeseries => Region(At(2), At(3), false)
    case Info => Region(At(3), Span(0, 4), false)
  }

  /** Each slice covers exactly the cells its panel owns; the top three carry map projections. */
  lemma ComprehensiveRegionOwns(p: Panel)
    requires p in ComprehensivePanels(true, true, true)
    ensures Owns(ComprehensiveRegion(p), p, 4, 4, ComprehensiveOwner)
    ensures ComprehensiveRegion(p).geographic <==> p in {Grid, Boundaries, DataLocations}
  {
    var r := ComprehensiveRegion(p);
    forall i: nat, j: nat | i < 4 && j < 4 ensures Contains(r, i, j) <==> ComprehensiveOwner(i, j) == p {
      if i < 2 {
      } else if i == 2 {
      } else {
      }
    }
  }

  /** Any dict holding some of the panels on their slices tiles the 4 x 4 grid. */
  lemma ComprehensiveTiles(axes: Axes)
    requires forall k :: k in axes ==> k in ComprehensivePanels(true, true, true) && axes[k] == ComprehensiveRegion(k)
    ensures Tiles(axes, 4, 4, ComprehensiveOwner)
    ensures ProjectedOn(axes, {Grid, Boundaries, DataLocations})
  {
    forall k | k in axes
      ensures Owns(axes[k], k, 4, 4, ComprehensiveOwner)
      ensures axes[k].geographic <==> k in {Grid, Boundaries, DataLocations}
    {
      ComprehensiveRegionOwns(k);
    }
  }

  /** Stores the fixed panels and each optional panel whose flag is set, each on its
      slice; by `ComprehensiveTiles` the result tiles the grid without overlap. */
  method ComposeComprehensiveOverview(includeValidation: bool, includeQualityMetrics: bool, includeDataSummary: bool)
    returns (axes: Axes)
    ensures axes.Keys == ComprehensivePanels(includeValidation, includeQualityMetrics, includeDataSummary)
    ensures forall k :: k in axes ==> axes[k] == ComprehensiveRegion(k)
  {
    axes := map[];
    axes := axes[Grid := ComprehensiveRegion(Grid)];
    axes := axes[Boundaries := ComprehensiveRegion(Boundaries)];
    axes := axes[DataLocations := ComprehensiveRegion(DataLocations)];
    if includeQualityMetrics {
      axes := axes[Quality := ComprehensiveRegion(Quality)];
    }
    if includeValidation {
      axes := axes[Validation := ComprehensiveRegion(Validation)];
    }
    if includeDataSummary {
      axes := axes[DataSummary := ComprehensiveRegion(DataSummary)];
    }
    axes := axes[Timeseries := ComprehensiveRegion(Timeseries)];
    axes := axes[Info := ComprehensiveRegion(Info)];
  }

  /** `plot`: passes its keyword arguments on to the comprehensive overview, so the
      flags keep their meaning there (all set when the caller leaves them out). The
      panels tile the grid, and with every flag set they are the eight named panels
      and give every cell of the grid to exactly one panel. */
  method Plot(includeValidation: bool, includeQualityMetrics: bool, includeDataSummary: bool)
    returns (axes: Axes)
    ensures axes.Keys == ComprehensivePanels(includeValidation, includeQualityMetrics, includeDataSummary)
    ensures forall k :: k in axes ==> axes[k] == ComprehensiveRegion(k)
    ensures Tiles(axes, 4, 4, ComprehensiveOwner)
    ensures includeValidation && includeQualityMetrics && includeDataSummary ==>
              KeyStrings(axes) ==
                {"grid", "boundaries", "data_locations", "quality", "validation", "data_summary", "timeseries", "info"}
    ensures includeValidation && includeQualityMetrics && includeDataSummary ==>
              forall i: nat, j: nat :: i < 4 && j < 4 ==> ComprehensiveOwner(i, j) in axes
  {
    axes := ComposeComprehensiveOverview(includeValidation, includeQualityMetrics, includeDataSummary);
    ComprehensiveTiles(axes);
  }

  /** Turning one flag off removes exactly that flag's panel and nothing else. */
  lemma ToggleRemovesOnlyItsPanel(v: bool, q: bool, d: bool)
    ensures ComprehensivePanels(true, q, d) - ComprehensivePanels(false, q, d) == {Validation}
    ensures ComprehensivePanels(false, q, d) <= ComprehensivePanels(true, q, d)
    ensures ComprehensivePanels(v, true, d) - ComprehensivePanels(v, false, d) == {Quality}
    ensures ComprehensivePanels(v, false, d) <= ComprehensivePanels(v, true, d)
    ensures ComprehensivePanels(v, q, true) - ComprehensivePanels(v, q, false) == {DataSummary}
    ensures ComprehensivePanels(v, q, false) <= ComprehensivePanels(v, q, true)
  {
  }

  // ---------------------------------------------------------------------
  // plot_grid_analysis_overview: a 3 x 3 GridSpec.
  // ---------------------------------------------------------------------

  const GridAnalysisPanels := {Grid, Quality, Boundaries, DepthHist, SizeHist, Stats}

  /** Grid map across the top two cells, quality top right, boundaries and the two
      histograms in the middle row, statistics across the bottom row. */
  function GridAnalysisOwner(i: nat, j: nat): Panel
  {
    if i == 0 then (if j < 2 then Grid else Quality)
    else if i == 1 then (if j == 0 then Boundaries else if j == 1 then DepthHist else SizeHist)
    else Stats
  }

  function GridAnalysisRegion(p: Panel): Region
    requires p in GridAnalysisPanels
  {
    match p
    case Grid => Region(At(0), Span(0, 2), true)
    case Quality => Region(At(0), At(2), true)
    case Boundaries => Region(At(1), At(0), true)
    case DepthHist => Region(At(1), At(1), false)
    case SizeHist => Region(At(1), At(2), false)
    case Stats => Region(At(2), Span(0, 3), false)
  }

  /** Each slice covers exactly its panel's cells; the top row and boundaries carry map projections. */
  lemma GridAnalysisRegionOwns(p: Panel)
    requires p in GridAnalysisPanels
    ensures Owns(GridAnalysisRegion(p), p, 3, 3, GridAnalysisOwner)
    ensures GridAnalysisRegion(p).geographic <==> p in {Grid, Quality, Boundaries}
  {
    var r := GridAnalysisRegion(p);
    forall i: nat, j: nat | i < 3 && j < 3 ensures Contains(r, i, j) <==> GridAnalysisOwner(i, j) == p {
      if i == 0 {
      } else if i == 1 {
      } else {
      }
    }
  }

  /** Stores all six panels on their slices; every cell of the grid belongs to exactly one of them. */
  method ComposeGridAnalysisOverview() returns (axes: Axes)
    ensures axes.Keys == GridAnalysisPanels
    ensures forall k :: k in axes ==> axes[k] == GridAnalysisRegion(k)
    ensures Tiles(axes, 3, 3, GridAnalysisOwner)
    ensures ProjectedOn(axes, {Grid, Quality, Boundaries})
    ensures forall i: nat, j: nat :: i < 3 && j < 3 ==> GridAnalysisOwner(i, j) in axes
  {
    axes := map[];
    axes := axes[Grid := GridAnalysisRegion(Grid)];
    axes := axes[Quality := GridAnalysisRegion(Quality)];
    axes := axes[Boundaries := GridAnalysisRegion(Boundaries)];
    axes := axes[DepthHist := GridAnalysisRegion(DepthHist)];
    axes := axes[SizeHist := GridAnalysisRegion(SizeHist)];
    axes := axes[Stats := GridAnalysisRegion(Stats)];
    forall k | k in axes ensures Owns(axes[k], k, 3, 3, GridAnalysisOwner) {
      GridAnalysisRegionOwns(k);
    }
  }

  // ---------------------------------------------------------------------
  // plot_data_analysis_overview: a 3 x 3 GridSpec.
  // ---------------------------------------------------------------------

  const DataAnalysisPanels := {Atmospheric, BoundaryLocations, Coverage, AtmTimeseries, BoundaryTs, DataQuality, DataStats}

  /** Three small panels on top, the atmospheric time series across the middle
      row, three small panels at the bottom. */
  function DataAnalysisOwner(i: nat, j: nat): Panel
  {
    if i == 0 then (if j == 0 then Atmospheric else if j == 1 then BoundaryLocations else Coverage)
    else if i == 1 then AtmTimeseries
    else (if j == 0 then BoundaryTs else if j == 1 then DataQuality else DataStats)
  }

  function DataAnalysisRegion(p: Panel): Region
    requires p in DataAnalysisPanels
  {
    match p
    case Atmospheric => Region(At(0), At(0), true)
    case BoundaryLocations => Region(At(0), At(1), true)
    case Coverage => Region(At(0), At(2), false)
    case AtmTimeseries => Region(At(1), Span(0, 3), false)
    case BoundaryTs => Region(At(2), At(0), false)
    case DataQuality => Region(At(2), At(1), false)
    case DataStats => Region(At(2), At(2), false)
  }

  /** Each slice covers exactly its panel's cells; the two spatial panels carry map projections. */
  lemma DataAnalysisRegionOwns(p: Panel)
    requires p in DataAnalysisPanels
    ensures Owns(DataAnalysisRegion(p), p, 3, 3, DataAnalysisOwner)
    ensures DataAnalysisRegion(p).geographic <==> p in {Atmospheric, BoundaryLocations}
  {
    var r := DataAnalysisRegion(p);
    forall i: nat, j: nat | i < 3 && j < 3 ensures Contains(r, i, j) <==> DataAnalysisOwner(i, j) == p {
      if i == 0 {
      } else if i == 1 {
      } else {
      }
    }
  }

  /** Stores all seven panels on their slices; every cell of the grid belongs to exactly one of them. */
  method ComposeDataAnalysisOverview() returns (axes: Axes)
    ensures axes.Keys == DataAnalysisPanels
    ensures forall k :: k in axes ==> axes[k] == DataAnalysisRegion(k)
    ensures Tiles(axes, 3, 3, DataAnalysisOwner)
    ensures ProjectedOn(axes, {Atmospheric, BoundaryLocations})
    ensures forall i: nat, j: nat :: i < 3 && j < 3 ==> DataAnalysisOwner(i, j) in axes
  {
    axes := map[];
    axes := axes[Atmospheric := DataAnalysisRegion(Atmospheric)];
    axes := axes[BoundaryLocations := DataAnalysisRegion(BoundaryLocations)];
    axes := axes[Coverage := DataAnalysisRegion(Coverage)];
    axes := axes[AtmTimeseries := DataAnalysisRegion(AtmTimeseries)];
    axes := axes[BoundaryTs := DataAnalysisRegion(BoundaryTs)];
    axes := axes[DataQuality := DataAnalysisRegion(DataQuality)];
    axes := axes[DataStats := DataAnalysisRegion(DataStats)];
    forall k | k in axes ensures Owns(axes[k], k, 3, 3, DataAnalysisOwner) {
      DataAnalysisRegionOwns(k);
    }
  }
}
