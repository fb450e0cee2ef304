/** The grid-of-pairs statistics table of `_create_statistics_table`:
    key/value items are wrapped three pairs (six cells) to a row, filled
    left to right and then top to bottom, and the last row is padded with
    empty cells. An empty dictionary yields a placeholder message instead. */
module StatisticsTable {
  import opened Entries

  /** The pair that fills an unused slot: two empty cells. */
  const Blank: Pair := Pair("", "")

  /** What the panel shows: a placeholder text, or a table given by its rows of cells. */
  datatype TableView = Placeholder(message: string) | Table(rows: seq<seq<string>>)

  /** Number of rows, `(n + n_cols - 1) // n_cols` with `n_cols = 3` pairs per row,
      as `_create_statistics_table` computes it. Every row has `2 * n_cols = 6` cells. */
  function RowCount(n: nat): nat
  {
    (n + 3 - 1) / 3
  }

  /** `k` blank pairs. */
  function Blanks(k: nat): (r: seq<Pair>)
    ensures |r| == k
    ensures forall i :: 0 <= i < k ==> r[i] == Blank
  {
    seq(k, _ => Blank)
  }

  /** The cells of a run of pairs, each key followed by its value. */
  function Cells(ps: seq<Pair>): (cells: seq<string>)
    ensures |cells| == 2 * |ps|
    decreases |ps|
  {
    if ps == [] then [] else [ps[0].key, ps[0].value] + Cells(ps[1..])
  }

  /** Reads cells back as pairs, two cells at a time. */
  function PairsOf(cells: seq<string>): (ps: seq<Pair>)
    requires |cells| % 2 == 0
    ensures 2 * |ps| == |cells|
    decreases |cells|
  {
    if cells == [] then [] else [Pair(cells[0], cells[1])] + PairsOf(cells[2..])
  }

  /** Row-major concatenation of the rows of a table. */
  function Flatten(rows: seq<seq<string>>): seq<string>
    decreases |rows|
  {
    if rows == [] then [] else rows[0] + Flatten(rows[1..])
  }

  /** Drops every blank pair, as a reader ignoring the empty padding cells does. */
  function Strip(ps: seq<Pair>): seq<Pair>
    decreases |ps|
  {
    if ps == [] then [] else (if ps[0] == Blank then [] else [ps[0]]) + Strip(ps[1..])
  }

  /** Reference layout: cut the items into chunks of three and pad the last chunk with blanks. */
  function Layout(items: seq<Pair>): seq<seq<string>>
    decreases |items|
  {
    if |items| == 0 then []
    else if |items| <= 3 then [Cells(items + Blanks(3 - |items|))]
    else [Cells(items[..3])] + Layout(items[3..])
  }

  /** The item at flat index `idx`, or a blank pair past the end of the items. */
  function SlotAt(items: seq<Pair>, idx: nat): Pair
  {
    if idx < |items| then items[idx] else Blank
  }

  /** The three slots of row `r`. */
  function Slots(items: seq<Pair>, r: nat): (s: seq<Pair>)
    ensures |s| == 3
  {
    seq(3, c requires 0 <= c < 3 => SlotAt(items, r * 3 + c))
  }

  // ---------------------------------------------------------------------
  // The operation, as `_create_statistics_table` builds it: nested loops that extend a row
  // and append it to the table.
  // ---------------------------------------------------------------------

  /** Builds `table_data` row by row; the result is the reference layout. */
  method BuildTableData(items: seq<Pair>) returns (table: seq<seq<string>>)
    ensures table == Layout(items)
  {
    var nCols := 3;
    var nRows := (|items| + nCols - 1) / nCols;
    LayoutShape(items);
    table := [];
    var row := 0;
    while row < nRows
      invariant 0 <= row <= nRows
      invariant table == Layout(items)[..row]
    {
      var rowData: seq<string> := [];
      var col := 0;
      while col < nCols
        invariant 0 <= col <= nCols
        invariant rowData == Cells(Slots(items, row)[..col])
      {
        var idx := row * nCols + col;
        var slot := Slots(items, row)[col];
        assert slot == SlotAt(items, idx);
        CellsSnoc(Slots(items, row)[..col], slot);
        assert Slots(items, row)[..col + 1] == Slots(items, row)[..col] + [slot];
        if idx < |items| {
          rowData := rowData + [items[idx].key, items[idx].value];
        } else {
          rowData := rowData + ["", ""];
        }
        col := col + 1;
      }
      assert Slots(items, row)[..3] == Slots(items, row);
      LayoutRow(items, row);
      table := table + [rowData];
      row := row + 1;
    }
  }

  /** `_create_statistics_table` without the drawing: the placeholder for an
      empty dictionary, otherwise the wrapped table. */
  method CreateStatisticsTable(stats: seq<Pair>, title: string) returns (view: TableView)
    ensures view.Placeholder? <==> stats == []
    ensures view.Placeholder? ==> view.message == "No " + Lower(title) + " available"
    ensures view.Table? ==> view.rows == Layout(stats)
  {
    if stats == [] {
      view := Placeholder("No " + Lower(title) + " available");
      return;
    }
    var tableData := BuildTableData(stats);
    view := Table(tableData);
  }

  // ---------------------------------------------------------------------
  // Properties of the layout.
  // ---------------------------------------------------------------------

  /** Appending one pair appends its two cells. */
  lemma {:induction false} CellsSnoc(ps: seq<Pair>, p: Pair)
    ensures Cells(ps + [p]) == Cells(ps) + [p.key, p.value]
    decreases |ps|
  {
    if ps != [] {
      assert (ps + [p])[1..] == ps[1..] + [p];
      CellsSnoc(ps[1..], p);
    }
  }

  /** Cell `2c` of a run of pairs is the key of pair `c`, cell `2c + 1` its value. */
  lemma {:induction false} CellsAt(ps: seq<Pair>, c: nat)
    requires c < |ps|
    ensures Cells(ps)[2 * c] == ps[c].key && Cells(ps)[2 * c + 1] == ps[c].value
    decreases |ps|
  {
    if c > 0 {
      CellsAt(ps[1..], c - 1);
    }
  }

  /** Reading the cells back as pairs gives the pairs. */
  lemma {:induction false} PairsOfCells(ps: seq<Pair>)
    ensures PairsOf(Cells(ps)) == ps
    decreases |ps|
  {
    if ps != [] {
      var cells := Cells(ps);
      assert cells[2..] == Cells(ps[1..]);
      PairsOfCells(ps[1..]);
    }
  }

  /** Reading pairs distributes over concatenation at an even boundary. */
  lemma {:induction false} PairsOfAppend(a: seq<string>, b: seq<string>)
    requires |a| % 2 == 0 && |b| % 2 == 0
    ensures PairsOf(a + b) == PairsOf(a) + PairsOf(b)
    decreases |a|
  {
    if a != [] {
      assert (a + b)[0] == a[0] && (a + b)[1] == a[1];
      assert (a + b)[2..] == a[2..] + b;
      PairsOfAppend(a[2..], b);
    } else {
      assert a + b == b;
    }
  }

  /** Stripping blanks distributes over concatenation. */
  lemma {:induction false} StripAppend(a: seq<Pair>, b: seq<Pair>)
    ensures Strip(a + b) == Strip(a) + Strip(b)
    decreases |a|
  {
    if a != [] {
      assert (a + b)[0] == a[0];
      assert (a + b)[1..] == a[1..] + b;
      StripAppend(a[1..], b);
    } else {
      assert a + b == b;
    }
  }

  /** Stripping keeps a sequence without blanks and removes a run of blanks. */
  lemma {:induction false} StripKeeps(ps: seq<Pair>, k: nat)
    requires Blank !in ps
    ensures Strip(ps) == ps
    ensures Strip(Blanks(k)) == []
    decreases |ps| + k
  {
    if ps != [] {
      assert ps[0] != Blank;
      StripKeeps(ps[1..], 0);
    }
    if k > 0 {
      assert Blanks(k)[1..] == Blanks(k - 1);
      StripKeeps([], k - 1);
    }
  }

  /** The table has ceil(n/3) rows of six cells each. */
  lemma {:induction false} LayoutShape(items: seq<Pair>)
    ensures |Layout(items)| == RowCount(|items|)
    ensures forall r :: 0 <= r < |Layout(items)| ==> |Layout(items)[r]| == 6
    decreases |items|
  {
    if |items| > 3 {
      LayoutShape(items[3..]);
    }
  }

  /** Row `r` holds the three slots starting at flat index `3r`. */
  lemma {:induction false} LayoutRow(items: seq<Pair>, r: nat)
    requires r < RowCount(|items|)
    ensures |Layout(items)| == RowCount(|items|)
    ensures Layout(items)[r] == Cells(Slots(items, r))
    decreases |items|
  {
    LayoutShape(items);
    if |items| <= 3 {
      assert r == 0;
      var padded := items + Blanks(3 - |items|);
      forall c | 0 <= c < 3 ensures padded[c] == Slots(items, 0)[c] {
        assert Slots(items, 0)[c] == SlotAt(items, c);
      }
      assert padded == Slots(items, 0);
    } else if r == 0 {
      forall c | 0 <= c < 3 ensures items[c] == Slots(items, 0)[c] {
        assert Slots(items, 0)[c] == SlotAt(items, c);
      }
      assert items[..3] == Slots(items, 0);
    } else {
      var rest := items[3..];
      LayoutRow(rest, r - 1);
      forall c | 0 <= c < 3
        ensures Slots(rest, r - 1)[c] == Slots(items, r)[c]
      {
        var idx := (r - 1) * 3 + c;
        assert idx + 3 == r * 3 + c;
        assert Slots(rest, r - 1)[c] == SlotAt(rest, idx);
        assert Slots(items, r)[c] == SlotAt(items, idx + 3);
        if idx < |rest| {
          assert rest[idx] == items[idx + 3];
        }
      }
      assert Slots(rest, r - 1) == Slots(items, r);
    }
  }

  /** Cells 2c and 2c+1 of row r hold the key and value of item 3r + c,
      or two empty strings when that index is past the end. */
  lemma LayoutCell(items: seq<Pair>, r: nat, c: nat)
    requires r < RowCount(|items|) && c < 3
    ensures |Layout(items)| == RowCount(|items|) && |Layout(items)[r]| == 6
    ensures r * 3 + c < |items| ==>
              Layout(items)[r][2 * c] == items[r * 3 + c].key &&
              Layout(items)[r][2 * c + 1] == items[r * 3 + c].value
    ensures r * 3 + c >= |items| ==>
              Layout(items)[r][2 * c] == "" && Layout(items)[r][2 * c + 1] == ""
  {
    LayoutRow(items, r);
    var idx, slots := r * 3 + c, Slots(items, r);
    CellsAt(slots, c);
    assert Layout(items)[r] == Cells(slots);
    assert slots[c] == SlotAt(items, idx);
  }

  /** Flattening the table row-major and reading it as pairs gives back the
      items in order, followed by the padding, which is fewer than three blanks. */
  lemma {:induction false} LayoutFlattens(items: seq<Pair>)
    ensures |Flatten(Layout(items))| == 6 * RowCount(|items|)
    ensures |Flatten(Layout(items))| % 2 == 0
    ensures |items| <= RowCount(|items|) * 3 < |items| + 3
    ensures PairsOf(Flatten(Layout(items))) ==
              items + Blanks(RowCount(|items|) * 3 - |items|)
    decreases |items|
  {
    if |items| == 0 {
    } else if |items| <= 3 {
      var padded := items + Blanks(3 - |items|);
      assert RowCount(|items|) == 1;
      assert Flatten(Layout(items)) == Cells(padded);
      PairsOfCells(padded);
    } else {
      var head, rest := items[..3], items[3..];
      LayoutFlattens(rest);
      assert Layout(items)[1..] == Layout(rest);
      assert Flatten(Layout(items)) == Cells(head) + Flatten(Layout(rest));
      PairsOfAppend(Cells(head), Flatten(Layout(rest)));
      PairsOfCells(head);
      assert RowCount(|items|) == RowCount(|rest|) + 1;
      assert items == head + rest;
    }
  }

  /** Removing the empty padding from the flattened table gives back exactly the
      input items, in order, provided no item is itself an empty pair. */
  lemma StrippedLayoutIsItems(items: seq<Pair>)
    requires Blank !in items
    ensures |Flatten(Layout(items))| % 2 == 0
    ensures PairsOf(Flatten(Layout(items))) == items + Blanks(RowCount(|items|) * 3 - |items|)
    ensures Strip(PairsOf(Flatten(Layout(items)))) == items
  {
    var pad := RowCount(|items|) * 3 - |items|;
    LayoutFlattens(items);
    var flat := PairsOf(Flatten(Layout(items)));
    assert flat == items + Blanks(pad);
    StripAppend(items, Blanks(pad));
    StripKeeps(items, pad);
    assert Strip(flat) == Strip(items) + Strip(Blanks(pad));
  }

  /** Padding appears only in the last row: every earlier row is three items,
      and the last row is the remaining one to three items followed by blanks. */
  lemma PaddingOnlyInLastRow(items: seq<Pair>, r: nat)
    requires r < RowCount(|items|)
    ensures |Layout(items)| == RowCount(|items|)
    ensures r + 1 < RowCount(|items|) ==>
              r * 3 + 3 <= |items| && Layout(items)[r] == Cells(items[r * 3 .. r * 3 + 3])
    ensures r + 1 == RowCount(|items|) ==>
              r * 3 < |items| <= r * 3 + 3 &&
              Layout(items)[r] == Cells(items[r * 3..] + Blanks(r * 3 + 3 - |items|))
  {
    LayoutRow(items, r);
    RowBounds(|items|, r);
    if r + 1 < RowCount(|items|) {
      FullRowSlots(items, r);
    } else {
      LastRowSlots(items, r);
    }
  }

  /** The slots of a row that lies wholly inside the items are those three items. */
  lemma FullRowSlots(items: seq<Pair>, r: nat)
    requires r * 3 + 3 <= |items|
    ensures Slots(items, r) == items[r * 3 .. r * 3 + 3]
  {
    var base := r * 3;
    forall c | 0 <= c < 3 ensures Slots(items, r)[c] == items[base .. base + 3][c] {
      assert Slots(items, r)[c] == SlotAt(items, base + c);
    }
  }

  /** The slots of the row holding the last items are those items and then blanks. */
  lemma LastRowSlots(items: seq<Pair>, r: nat)
    requires r * 3 < |items| <= r * 3 + 3
    ensures Slots(items, r) == items[r * 3..] + Blanks(r * 3 + 3 - |items|)
  {
    var base := r * 3;
    var last := items[base..] + Blanks(base + 3 - |items|);
    forall c | 0 <= c < 3 ensures Slots(items, r)[c] == last[c] {
      assert Slots(items, r)[c] == SlotAt(items, base + c);
    }
  }

  /** Row `r` is full when a later row exists; the last row starts inside the items
      and ends at most two slots past them. */
  lemma RowBounds(n: nat, r: nat)
    requires r < RowCount(n)
    ensures r + 1 < RowCount(n) ==> r * 3 + 3 <= n
    ensures r + 1 == RowCount(n) ==> r * 3 < n <= r * 3 + 3 && RowCount(n) * 3 - n < 3
  {
  }

  /** Seven pairs give three rows; the last holds pair seven and two blank pairs. */
  lemma SevenPairs(items: seq<Pair>)
    requires |items| == 7
    ensures |Layout(items)| == 3
    ensures Layout(items)[2] == [items[6].key, items[6].value, "", "", "", ""]
  {
    assert RowCount(7) == 3;
    PaddingOnlyInLastRow(items, 2);
    var last := [items[6], Blank, Blank];
    assert items[6..] + Blanks(2) == last;
    assert last[1..][1..] == [Blank];
    assert Cells(last[1..]) == ["", ""] + Cells([Blank]);
  }
}
