/** The two-column model-information table of `_plot_model_info_table`: a header
    row `Parameter | Value` and one row per entry, with the header in a dark
    face and bold white text and the body rows shaded by row parity. */
module ModelInfoTable {
  import opened Entries

  const HeaderFace: string := "#40466e"
  const ShadedFace: string := "#f1f1f2"
  const PlainFace: string := "white"

  /** Column labels of the header row. */
  const ColumnLabels: seq<string> := ["Parameter", "Value"]

  /** Face colour of a cell, and whether its text is set bold and white. */
  datatype CellStyle = CellStyle(face: string, boldWhiteText: bool)

  /** What the panel shows: a placeholder text, or the header and the body rows. */
  datatype InfoView = NoInfo(message: string) | InfoTable(header: seq<string>, rows: seq<seq<string>>)

  /** Style of every cell of table row `i`, where row 0 is the header. */
  function RowStyle(i: nat): CellStyle
  {
    if i == 0 then CellStyle(HeaderFace, true)
    else CellStyle(if i % 2 == 0 then ShadedFace else PlainFace, false)
  }

  /** `[[k, v] for k, v in info.items()]`. */
  function InfoRows(info: seq<Pair>): (rows: seq<seq<string>>)
    ensures |rows| == |info|
    ensures forall i :: 0 <= i < |rows| ==> |rows[i]| == 2
  {
    seq(|info|, i requires 0 <= i < |info| => [info[i].key, info[i].value])
  }

  /** Reads table rows back as entries. */
  function RowsToEntries(rows: seq<seq<string>>): seq<Pair>
    requires forall i :: 0 <= i < |rows| ==> |rows[i]| == 2
  {
    seq(|rows|, i requires 0 <= i < |rows| => Pair(rows[i][0], rows[i][1]))
  }

  /** The styling loop: every cell of the `len(table_data) + 1` rows and two
      columns gets the style of its row. */
  method StyleCells(entries: nat) returns (styles: seq<seq<CellStyle>>)
    ensures |styles| == entries + 1
    ensures forall i :: 0 <= i < |styles| ==> |styles[i]| == 2
    ensures forall i, j :: 0 <= i < |styles| && 0 <= j < 2 ==>
              styles[i][j].boldWhiteText == (i == 0) &&
              styles[i][j].face == (if i == 0 then HeaderFace else if i % 2 == 0 then ShadedFace else PlainFace)
  {
    styles := [];
    var i := 0;
    while i < entries + 1
      invariant 0 <= i <= entries + 1
      invariant |styles| == i
      invariant forall r :: 0 <= r < i ==> styles[r] == [RowStyle(r), RowStyle(r)]
    {
      var row: seq<CellStyle> := [];
      var j := 0;
      while j < 2
        invariant 0 <= j <= 2
        invariant row == seq(j, _ => RowStyle(i))
      {
        var cell: CellStyle;
        if i == 0 {
          cell := CellStyle(HeaderFace, true);
        } else {
          cell := CellStyle(if i % 2 == 0 then ShadedFace else PlainFace, false);
        }
        row := row + [cell];
        j := j + 1;
      }
      assert row == [RowStyle(i), RowStyle(i)];
      styles := styles + [row];
      i := i + 1;
    }
  }

  /** `_plot_model_info_table` without the drawing: the placeholder for an empty
      dictionary, otherwise the rows and their cell styles. */
  method PlotModelInfoTable(info: seq<Pair>) returns (view: InfoView, styles: seq<seq<CellStyle>>)
    ensures view.NoInfo? <==> info == []
    ensures view.NoInfo? ==> view.message == "No model info available" && styles == []
    ensures view.InfoTable? ==>
              view.header == ColumnLabels &&
              (forall i :: 0 <= i < |view.rows| ==> |view.rows[i]| == 2) &&
              RowsToEntries(view.rows) == info &&
              |styles| == |view.rows| + 1 &&
              (forall i :: 0 <= i < |styles| ==> |styles[i]| == 2) &&
              forall i, j :: 0 <= i < |styles| && 0 <= j < |styles[i]| ==> styles[i][j] == RowStyle(i)
  {
    if info == [] {
      view, styles := NoInfo("No model info available"), [];
      return;
    }
    var tableData := InfoRows(info);
    view := InfoTable(ColumnLabels, tableData);
    styles := StyleCells(|tableData|);
  }

  /** Number of shaded rows among body rows 1..n. */
  function ShadedRows(n: nat): nat
  {
    if n == 0 then 0 else ShadedRows(n - 1) + (if RowStyle(n).face == ShadedFace then 1 else 0)
  }

  /** Body rows alternate white, shaded, white, ... starting with white; the
      header's style is used by no body row. */
  lemma BodyRowsAlternate(i: nat)
    requires i >= 1
    ensures RowStyle(i).face != RowStyle(i + 1).face
    ensures RowStyle(i) == RowStyle(i + 2)
    ensures RowStyle(i) != RowStyle(0)
    ensures RowStyle(1).face == PlainFace
  {
  }

  /** Of n entries, exactly floor(n/2) rows are shaded. */
  lemma {:induction false} ShadedRowCount(n: nat)
    ensures ShadedRows(n) == n / 2
  {
    if n > 0 {
      ShadedRowCount(n - 1);
    }
  }

  /** The table rows are exactly the entries, in order. */
  lemma InfoRowsRoundTrip(info: seq<Pair>)
    ensures RowsToEntries(InfoRows(info)) == info
  {
  }
}
