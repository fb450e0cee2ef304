# Overview plotter: layout and classification logic

This project models the non-drawing logic of rompy's SCHISM `OverviewPlotter`
(`rompy/schism/plotting/overview.py`). That logic is:

- which panels each multi-panel overview figure creates, and where they sit on
  its GridSpec;
- how the generic statistics table wraps key/value pairs three to a row;
- how the model-information table shades its rows;
- how the quality, data-quality and validation bar charts pick a colour per bar.

Drawing itself is not modelled. Each matplotlib artist is reduced to the data
that decides it: a panel becomes the rectangle of grid cells it spans, a table
becomes its rows of cell strings, and a bar chart becomes its labels, lengths and
colour names.

Modules, one file each:

- `Entries` (`entries.dfy`): a `Dict[str, str]` as its sequence of items in
  insertion order, and ASCII `str.lower()`.
- `StatisticsTable` (`statistics_table.dfy`): `_create_statistics_table`.
  - The nested loops that build `table_data` are a method. The method is proved
    equal to `Layout`, an independent recursive definition that cuts the items
    into chunks of three and pads the last chunk.
  - Lemmas about `Layout` give:
    - the row count, `ceil(n / 3)`;
    - the content of every cell;
    - the round trip from the row-major cells back to the items;
    - that padding occurs only in the last row.
- `BarColours` (`bar_colours.dfy`): the colour rules of
  `_plot_quality_metrics_chart` (strict thresholds 0.8 and 0.6),
  `_plot_data_quality_metrics` (inclusive thresholds 0.9 and 0.8) and
  `_plot_validation_results` (a status-to-colour dict with a gray default). It
  also models what each panel shows, which is either its placeholder text or its
  bars.
- `ModelInfoTable` (`model_info_table.dfy`): `_plot_model_info_table`. It covers:
  - the two-column rows and the header labels;
  - the styling loop, where the header is dark with bold white text and body rows
    are `#f1f1f2` on even indices and white on odd ones;
  - the placeholder.
- `PanelLayout` (`panel_layout.dfy`): the panel dicts of
  `plot_comprehensive_overview`, `plot_grid_analysis_overview`,
  `plot_data_analysis_overview` and `plot`.
  - Each entry point stores its panels into the dict one by one, as
    `plot_comprehensive_overview` and the other two overview functions do.
  - Each layout has two independent descriptions of the same GridSpec:
    - a region table, which gives the slice each panel is added on;
    - an owner function, which gives the panel each grid cell belongs to.
  - Lemmas show that the region table covers exactly the owner's cells. From
    this it follows that the panels never overlap, and that the full layouts give
    every cell to exactly one panel.

## Model

| member | source | states |
|---|---|---|
| `Entries.Lower` | rompy/schism/plotting/overview.py:678 | `title.lower()` keeps the length, maps A-Z to a-z and leaves every other character unchanged |
| `StatisticsTable.BuildTableData` | rompy/schism/plotting/overview.py:684-698 | the nested row/column loops build exactly the chunk-by-three reference layout of the items |
| `StatisticsTable.CreateStatisticsTable` | rompy/schism/plotting/overview.py:675-698 | an empty dict gives the placeholder `No <lower-cased title> available` and nothing else does; otherwise the table rows are the reference layout |
| `StatisticsTable.LayoutShape` | rompy/schism/plotting/overview.py:685-686 | the table has `(n + n_cols - 1) // n_cols` rows with `n_cols = 3`, and every row has six cells |
| `StatisticsTable.LayoutRow` | rompy/schism/plotting/overview.py:689-698 | row `r` is the key/value cells of the slots at flat indices `3r`, `3r+1` and `3r+2` |
| `StatisticsTable.LayoutCell` | rompy/schism/plotting/overview.py:692-697 | cells `2c` and `2c+1` of row `r` hold the key and value of item `3r+c` when that index exists, and two empty strings otherwise |
| `StatisticsTable.CellsAt` | rompy/schism/plotting/overview.py:694-695 | `extend([key, value])` puts pair `c` at cells `2c` and `2c+1` |
| `StatisticsTable.PairsOfCells` | rompy/schism/plotting/overview.py:694-695 | reading the cells back two at a time gives the pairs again |
| `StatisticsTable.LayoutFlattens` | rompy/schism/plotting/overview.py:684-698 | the table read row-major is the items in order followed by fewer than three blank pairs; it has `6 * rows` cells |
| `StatisticsTable.StrippedLayoutIsItems` | rompy/schism/plotting/overview.py:684-698 | dropping the padding from the row-major table gives back exactly the items, when no item is itself an empty pair |
| `StatisticsTable.PaddingOnlyInLastRow` | rompy/schism/plotting/overview.py:689-697 | every row but the last holds three items; the last holds the remaining one to three items and then blanks |
| `StatisticsTable.RowBounds` | rompy/schism/plotting/overview.py:686 | a row followed by another lies wholly inside the items; the last row starts inside them and needs at most two blanks |
| `StatisticsTable.SevenPairs` | rompy/schism/plotting/overview.py:685-698 | seven pairs give three rows, and the last row is pair seven followed by four empty cells |
| `BarColours.QualityColours` | rompy/schism/plotting/overview.py:440 | one colour per score: green iff above 0.8, orange iff above 0.6 and at most 0.8, red iff at most 0.6 |
| `BarColours.QualityMetricsChart` | rompy/schism/plotting/overview.py:430-440 | the placeholder `No quality metrics available` iff there are no metrics; otherwise one bar per metric in dict order, with its name and its value as length, green iff above 0.8, orange iff above 0.6 and at most 0.8, red iff at most 0.6 |
| `BarColours.DataQualityColours` | rompy/schism/plotting/overview.py:870 | one colour per score: green iff at least 0.9, orange iff at least 0.8 and below 0.9, red iff below 0.8 |
| `BarColours.DataQualityChart` | rompy/schism/plotting/overview.py:868-872 | always bars, one per metric in dict order, labelled by category with the score as height, green iff at least 0.9, orange iff at least 0.8 and below 0.9, red iff below 0.8 |
| `BarColours.ValidationColours` | rompy/schism/plotting/overview.py:475-476 | PASS iff green, WARNING iff orange, FAIL iff red, and any other status iff gray |
| `BarColours.ValidationChart` | rompy/schism/plotting/overview.py:464-478 | the placeholder `No validation results` iff there are no results; otherwise one bar of length 1 per check, labelled by check name, green iff PASS, orange iff WARNING, red iff FAIL, gray iff any other status |
| `BarColours.ScoreColoursMonotone` | rompy/schism/plotting/overview.py:440 | a higher score never gets a worse colour, under either set of thresholds |
| `BarColours.DataQualityIsStricter` | rompy/schism/plotting/overview.py:870 | a data-quality green is a grid-quality green, and a grid-quality red is a data-quality red |
| `BarColours.ThresholdBoundaries` | rompy/schism/plotting/overview.py:440 | 0.8 is orange and 0.6 is red for grid quality; 0.9 is green and 0.8 orange for data quality; 0.85 differs between the two |
| `BarColours.ColourExamples` | rompy/schism/plotting/overview.py:475-476 | statuses PASS, WARNING, UNKNOWN colour green, orange, gray; scores 0.95, 0.75, 0.5 colour green, orange, red |
| `BarColours.QualityFixture` | rompy/schism/plotting/overview.py:415-428 | the four fixed grid quality scores are all green |
| `BarColours.ValidationFixture` | rompy/schism/plotting/overview.py:449-462 | the five fixed validation statuses give green bars but one orange, for the WARNING |
| `BarColours.DataQualityFixture` | rompy/schism/plotting/overview.py:858-870 | the five fixed data quality scores alternate green and orange |
| `ModelInfoTable.InfoRows` | rompy/schism/plotting/overview.py:567 | one two-cell row per entry |
| `ModelInfoTable.InfoRowsRoundTrip` | rompy/schism/plotting/overview.py:567 | the rows read back as key/value pairs are exactly the entries, in order |
| `ModelInfoTable.StyleCells` | rompy/schism/plotting/overview.py:581-588 | all `len(table_data) + 1` rows by 2 columns are styled; row 0 is `#40466e` with bold white text; body row `i` is `#f1f1f2` when `i` is even and white when odd, without bold white text |
| `ModelInfoTable.PlotModelInfoTable` | rompy/schism/plotting/overview.py:558-588 | the placeholder `No model info available` iff the dict is empty; otherwise header `Parameter`/`Value`, rows that read back as the entries, and every cell styled by its row |
| `ModelInfoTable.BodyRowsAlternate` | rompy/schism/plotting/overview.py:584-588 | body rows alternate faces starting with white, repeat every two rows, and never take the header's style |
| `ModelInfoTable.ShadedRowCount` | rompy/schism/plotting/overview.py:588 | of `n` body rows exactly `n // 2` are shaded |
| `PanelLayout.ComprehensiveRegionOwns` | rompy/schism/plotting/overview.py:112-145 | each slice of the 4 x 4 GridSpec covers exactly the cells of its panel, and only grid, boundaries and data locations carry a map projection |
| `PanelLayout.ComprehensiveTiles` | rompy/schism/plotting/overview.py:105-145 | any dict holding comprehensive panels on their slices tiles the 4 x 4 grid without overlap, with projections on the top three panels only |
| `PanelLayout.ComposeComprehensiveOverview` | rompy/schism/plotting/overview.py:105-145 | the dict holds grid, boundaries, data locations, time series and info, plus quality, validation and data summary exactly when their flags are set, each on its slice |
| `PanelLayout.ToggleRemovesOnlyItsPanel` | rompy/schism/plotting/overview.py:121-134 | clearing one flag removes exactly that flag's panel and keeps all others |
| `PanelLayout.Plot` | rompy/schism/plotting/overview.py:911-929 | passes the three flags on: the keys are the comprehensive panels for those flags, each on its slice, and they tile the 4 x 4 grid; with every flag set (the default) the keys are the eight panel names and every cell belongs to a panel |
| `PanelLayout.GridAnalysisRegionOwns` | rompy/schism/plotting/overview.py:188-217 | each slice of the 3 x 3 GridSpec covers exactly its panel's cells; grid, quality and boundaries carry map projections |
| `PanelLayout.ComposeGridAnalysisOverview` | rompy/schism/plotting/overview.py:188-217 | the six panels, each on its slice, tile the 3 x 3 grid, cover every cell, and carry projections exactly on the three map panels |
| `PanelLayout.DataAnalysisRegionOwns` | rompy/schism/plotting/overview.py:258-288 | each slice of the 3 x 3 GridSpec covers exactly its panel's cells; only the two spatial panels carry map projections |
| `PanelLayout.ComposeDataAnalysisOverview` | rompy/schism/plotting/overview.py:258-288 | the seven panels, each on its slice, tile the 3 x 3 grid, cover every cell, and carry projections exactly on the two spatial panels |
| `PanelLayout.TiledPanelsAreDisjoint` | rompy/schism/plotting/overview.py:105-145 | in a tiled dict no two panels share a grid cell |
| `PanelLayout.FullTilingCoversOnce` | rompy/schism/plotting/overview.py:105-145 | in a tiled dict holding every owner, each cell lies in exactly one panel |

## Left out

- Figure and axes creation, cartopy projections, titles, fonts, axis limits and
  `suptitle`. Only the GridSpec slice of each panel and whether it carries a map
  projection are kept.
- The per-panel plotting methods that draw into the panels, for example
  `GridPlotter` and `DataPlotter` calls, histograms, time series and the coverage
  timeline. The model assumes that these calls, and `setup_cartopy_axis()` in
  each `add_subplot(..., projection=...)`, return normally.
  - In `plot_grid_analysis_overview`, the calls `plot_bathymetry`,
    `plot_grid_quality` and `plot_boundaries` (overview.py:195, 200, 205) are not
    guarded by try/except. If one of them raises, no dict is returned at all,
    while `PanelLayout.ComposeGridAnalysisOverview` always returns its six panels.
  - The same holds for any overview whose cartopy set-up raises.
- Random and dummy data, depth statistics and NaN filtering, the try/except
  fallbacks with their logging, and `_save_plot`. These are I/O or numerical
  work outside the layout and classification logic.
- The statistics table's cell styling and font settings (overview.py:701-717).
  These cover drawing only.
- The value labels printed on bars, and their `:.2f` formatting.
- `Entries.Lower`: models `str.lower()` for ASCII only. Python's Unicode case
  mapping is not modelled.
- The data summary chart, including its `str.title()` formatting of keys
  (overview.py:503-518), is not part of this model. It is text formatting only.
- `PanelLayout.ComposeComprehensiveOverview`: states the keys and the slices. The
  tiling and projection properties come from `PanelLayout.ComprehensiveTiles`,
  stated for any dict of that shape, rather than being repeated in the method's
  own contract.
- Dict insertion order of the panel dicts is not modelled; an axes dict is a map
  from panel to region. Panel names are an enumeration, and `PanelLayout.Key`
  gives each one's string key.
- `PanelLayout.Plot`: of the keyword arguments `plot` passes on, only the three
  `include_*` flags are modelled. `figsize`, `save_path` and the drawing
  arguments do not affect the dict.
- Score values are exact reals. Floating-point rounding is not modelled, and
  neither is NaN. Every comparison with a NaN score is false, so the code colours
  a NaN score red under both rules (overview.py:440 and 870). The model has no
  such value.

Two facts about the code are worth stating:

- The grid-quality comparisons are strict, `v > 0.8` and `v > 0.6`
  (overview.py:440). So a score of exactly 0.8 is orange and 0.6 is red
  (`BarColours.ThresholdBoundaries`).
- Seven pairs end with pair seven and two blank pairs
  (`StatisticsTable.SevenPairs`).
