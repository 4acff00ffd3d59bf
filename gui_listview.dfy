/**
 * The list view widget: a list of rows, each a list of items with optional
 * text, a growable NULL-terminated array of columns, and the scalars that
 * say which row is selected, which row is drawn first and whether the side
 * slider is shown.
 *
 * Widget-tree calls are replaced by counters: `invalidations` counts calls
 * that mark the widget for redraw, `events` counts SelectionChanged
 * notifications. Allocation outcomes are inputs of the operations.
 */
module GuiListview {
  import opened GuiPrivate

  type RowId = nat

  /** A row of the list; `id` stands for the row's address, which callers
      keep as the row handle. */
  datatype Row = Row(id: RowId, items: seq<Option<string>>)

  datatype Column = Column(text: string, width: int)

  /** What the base widget and its font provide: the widget's pixel width and
      height, the integer height of one list row, and whether a font is set. */
  datatype Metrics = Metrics(width: int, height: int, rowHeight: int, hasFont: bool)

  predicate SaneMetrics(m: Metrics) {
    m.hasFont ==> m.rowHeight > 0
  }

  datatype NavKey = KeyDown | KeyUp | OtherKey(code: nat)

  const DefaultColumnWidth: int := 100
  const MinColumnWidth: int := 4
  const DefaultSliderWidth: int := 30
  /** Distance in pixels within which a touch grabs a column border. */
  const EdgeGrab: int := 10

  function Abs(x: int): int {
    if x < 0 then -x else x
  }

  /** Division as C computes it: the quotient is truncated toward zero. */
  function TruncDiv(a: int, b: int): int
    requires b > 0
  {
    if a >= 0 then a / b else -((-a) / b)
  }

  /** Number of rows that fit on one page below the header row
      (`nr_entries_pp`). With a font, exactly that many full rows fit below
      the header row of a widget at least one row high; a lower widget gets
      0 rows, as C truncation gives, except the zero-height widget, which
      gets -1. Without a font the result is 0. */
  function ItemsPerPage(m: Metrics): (r: int)
    requires SaneMetrics(m)
    ensures !m.hasFont ==> r == 0
    ensures m.hasFont && m.height >= m.rowHeight ==>
      0 <= r && m.rowHeight + r * m.rowHeight <= m.height < m.rowHeight + r * m.rowHeight + m.rowHeight
    ensures m.hasFont && 0 < m.height < m.rowHeight ==> r == 0
    ensures m.hasFont && m.height == 0 ==> r == -1
  {
    if !m.hasFont then 0 else TruncDiv(m.height - m.rowHeight, m.rowHeight)
  }

  // ---------------------------------------------------------------------
  // Scalar clamps
  // ---------------------------------------------------------------------

  /** New first visible row after sliding by `dir` (`slide`). */
  function SlideStart(start: int, dir: int, count: int, perPage: int): (r: int)
    ensures dir < 0 ==> r >= 0 && r <= (if start + dir < 0 then 0 else start + dir)
    ensures dir < 0 && start + dir >= 0 ==> r == start + dir
    ensures dir > 0 ==> r <= count - perPage
    ensures dir > 0 && start + dir <= count - perPage - 1 ==> r == start + dir
    ensures dir < 0 && start + dir < 0 ==> r == 0
    ensures dir > 0 && start + dir > count - perPage - 1 ==> r == count - perPage
    ensures dir == 0 ==> r == start
  {
    if dir < 0 then
      if start + dir < 0 then 0 else start + dir
    else if dir > 0 then
      if start + dir > count - perPage - 1 then count - perPage else start + dir
    else start
  }

  /** New selection after moving it by `dir` (`inc_selection`). */
  function IncSelected(selected: int, dir: int, count: int): (r: int)
    ensures dir < 0 ==> r >= 0
    ensures dir < 0 && selected + dir >= 0 ==> r == selected + dir
    ensures dir > 0 ==> r <= count - 1
    ensures dir > 0 && selected + dir <= count - 1 ==> r == selected + dir
    ensures dir < 0 && selected + dir < 0 ==> r == 0
    ensures dir > 0 && selected + dir > count - 1 ==> r == count - 1
    ensures dir == 0 ==> r == selected
  {
    if dir < 0 then
      if selected + dir < 0 then 0 else selected + dir
    else if dir > 0 then
      if selected + dir > count - 1 then count - 1 else selected + dir
    else selected
  }

  /** Selection after the range check of `check_values`. */
  function CheckedSelection(selected: int, count: int): (r: int)
    ensures r >= 0 ==> r < count
    ensures selected >= 0 && count == 0 ==> r == -1
    ensures selected < count ==> r == selected
    ensures selected >= count && selected >= 0 ==> r == count - 1
  {
    if selected >= 0 && selected >= count then count - 1 else selected
  }

  /** First visible row after the range check of `check_values`. */
  function CheckedStart(start: int, count: int, perPage: int): (r: int)
    ensures r >= 0
    ensures count > perPage ==> r + perPage <= count
    ensures start >= 0 && (count <= perPage || start + perPage < count) ==> r == start
    ensures r <= (if start < 0 then 0 else start)
    ensures start > 0 && count > perPage && start + perPage >= count ==> r == count - perPage
  {
    if start < 0 then 0
    else if start > 0 && count > perPage && start + perPage >= count then count - perPage
    else start
  }

  /** Row band hit by a click at relative height `y` below the header row:
      the one whose band (rowHeight pixels each, after the header row)
      holds `y`. */
  function HitRow(y: int, rowHeight: int): (r: nat)
    requires rowHeight > 0 && y > rowHeight
    ensures rowHeight + r * rowHeight <= y < rowHeight + r * rowHeight + rowHeight
  {
    (y - rowHeight) / rowHeight
  }

  // ---------------------------------------------------------------------
  // The abstract state and what each internal step does to it
  // ---------------------------------------------------------------------

  /** Number of items held by all rows together. */
  function TotalItems(rows: seq<Row>): nat {
    if rows == [] then 0 else |rows[0].items| + TotalItems(rows[1..])
  }

  predicate HasRow(rows: seq<Row>, id: RowId) {
    exists i :: 0 <= i < |rows| && rows[i].id == id
  }

  predicate DistinctIds(rows: seq<Row>) {
    forall i, j :: 0 <= i < j < |rows| ==> rows[i].id != rows[j].id
  }

  /** Position of the row with handle `id` in the list. */
  function RowIndex(rows: seq<Row>, id: RowId): (k: nat)
    requires HasRow(rows, id)
    ensures k < |rows| && rows[k].id == id
    ensures forall j :: 0 <= j < k ==> rows[j].id != id
  {
    if rows[0].id == id then 0
    else
      var i :| 0 <= i < |rows| && rows[i].id == id;
      assert rows[1..][i - 1].id == id;
      RowIndex(rows[1..], id) + 1
  }

  /** The list without the row at position k; the others keep their order. */
  function Unlink(rows: seq<Row>, k: nat): (r: seq<Row>)
    requires k < |rows|
    ensures |r| == |rows| - 1
    ensures forall j :: 0 <= j < k ==> r[j] == rows[j]
    ensures forall j :: k <= j < |r| ==> r[j] == rows[j + 1]
  {
    rows[..k] + rows[k + 1..]
  }

  /** Once a row is unlinked from a list whose handles are distinct, its
      handle is no longer in the list and every other handle still is. */
  lemma UnlinkRemovesOnlyThatRow(rows: seq<Row>, id: RowId)
    requires DistinctIds(rows) && HasRow(rows, id)
    ensures var r := Unlink(rows, RowIndex(rows, id));
      !HasRow(r, id) && DistinctIds(r) &&
      forall other :: other != id ==> (HasRow(r, other) <==> HasRow(rows, other))
  {
    var k := RowIndex(rows, id);
    var r := Unlink(rows, k);
    forall i | 0 <= i < |r|
      ensures r[i].id != id
    {
      if i < k {
        assert r[i] == rows[i];
      } else {
        assert r[i] == rows[i + 1];
      }
    }
    forall other | other != id
      ensures HasRow(r, other) <==> HasRow(rows, other)
    {
      if HasRow(rows, other) {
        var i :| 0 <= i < |rows| && rows[i].id == other;
        if i < k {
          assert r[i].id == other;
        } else {
          assert i != k;
          assert r[i - 1].id == other;
        }
      }
      if HasRow(r, other) {
        var i :| 0 <= i < |r| && r[i].id == other;
        if i < k {
          assert rows[i].id == other;
        } else {
          assert rows[i + 1].id == other;
        }
      }
    }
  }

  /** `get_row`: the row at index r, if r is below the row count. */
  function GetRow(rows: seq<Row>, r: nat): (row: Option<Row>)
    ensures row.Some? <==> r < |rows|
    ensures row.Some? ==> row.value == rows[r]
  {
    if r >= |rows| then None else Some(rows[r])
  }

  /** `get_item_for_row` takes the column as an 8-bit value. */
  const ItemIndexRange: nat := 0x100

  /** `get_item_for_row`: the item at column c of a row; None for a NULL row
      or a column past the row's last item. */
  function ItemAt(row: Option<Row>, c: nat): (item: Option<Option<string>>)
    ensures item.Some? <==> row.Some? && c < |row.value.items|
    ensures item.Some? ==> item.value == row.value.items[c]
  {
    if row.None? || c >= |row.value.items| then None else Some(row.value.items[c])
  }

  /** The item list padded with empty (text-less) items up to length n. */
  function Pad(items: seq<Option<string>>, n: nat): (r: seq<Option<string>>)
    ensures |r| == (if n > |items| then n else |items|)
    ensures r[..|items|] == items
    ensures forall j :: |items| <= j < |r| ==> r[j] == None
  {
    if n > |items| then items + seq(n - |items|, _ => None) else items
  }

  /** Largest value of the 16-bit column parameter of `setitemstring`. */
  const MaxColumnParam: nat := 0xFFFF

  /** What `setitemstring` does to a row's items when at most `allocLimit`
      item allocations succeed: the new item list and whether the text was
      set. The walk runs col + 1 steps in 16 bits, so for col = 0xFFFF it
      does not move and stays on the first item, if there is one. */
  function SetItem(items: seq<Option<string>>, col: nat, text: string, allocLimit: nat): (r: (seq<Option<string>>, bool))
    requires col <= MaxColumnParam
    ensures col < MaxColumnParam ==> (r.1 <==> col < |items| + allocLimit)
    ensures col < MaxColumnParam && r.1 ==> |r.0| == (if col < |items| then |items| else col + 1) && r.0[col] == Some(text)
    ensures col < MaxColumnParam && r.1 ==> forall j :: 0 <= j < |items| && j != col ==> r.0[j] == items[j]
    ensures col < MaxColumnParam && r.1 ==> forall j :: |items| <= j < |r.0| && j != col ==> r.0[j] == None
    ensures col < MaxColumnParam && !r.1 ==> |r.0| == |items| + allocLimit && r.0[..|items|] == items
    ensures col < MaxColumnParam && !r.1 ==> forall j :: |items| <= j < |r.0| ==> r.0[j] == None
    ensures col == MaxColumnParam ==> (r.1 <==> items != []) && |r.0| == |items|
    ensures col == MaxColumnParam && r.1 ==> r.0 == items[0 := Some(text)]
    ensures col == MaxColumnParam && !r.1 ==> r.0 == items
  {
    if col == MaxColumnParam then
      if items == [] then (items, false) else (items[0 := Some(text)], true)
    else if col < |items| + allocLimit then (Pad(items, col + 1)[col := Some(text)], true)
    else (Pad(items, |items| + allocLimit), false)
  }

  /** Width of a column slot; an empty slot has none. */
  function SlotWidth(o: Option<Column>): int {
    if o.Some? then o.value.width else 0
  }

  /** Sum of the widths of the given column slots. */
  function SumWidths(slots: seq<Option<Column>>): int {
    if slots == [] then 0 else SumWidths(slots[..|slots| - 1]) + SlotWidth(slots[|slots| - 1])
  }

  lemma SumWidthsStep(slots: seq<Option<Column>>, i: nat)
    requires i < |slots|
    ensures SumWidths(slots[..i + 1]) == SumWidths(slots[..i]) + SlotWidth(slots[i])
  {
    assert slots[..i + 1][..i] == slots[..i];
  }

  /** The right border of column i lies within the grab distance of x. */
  predicate NearBorder(slots: seq<Option<Column>>, x: int, i: nat)
    requires i < |slots|
  {
    Abs(x - SumWidths(slots[..i + 1])) < EdgeGrab
  }

  /** First column, from position k on, whose right border is near x;
      |slots| when there is none. */
  function BorderFrom(slots: seq<Option<Column>>, x: int, k: nat): (i: nat)
    requires k <= |slots|
    decreases |slots| - k
    ensures k <= i <= |slots|
    ensures i < |slots| ==> NearBorder(slots, x, i)
    ensures forall j :: k <= j < i ==> !NearBorder(slots, x, j)
  {
    if k == |slots| then k
    else if NearBorder(slots, x, k) then k
    else BorderFrom(slots, x, k + 1)
  }

  /** First column whose right border is near x; |slots| when there is none. */
  function BorderIndex(slots: seq<Option<Column>>, x: int): (i: nat)
    ensures i <= |slots|
    ensures i < |slots| ==> NearBorder(slots, x, i)
    ensures forall j :: 0 <= j < i ==> !NearBorder(slots, x, j)
  {
    BorderFrom(slots, x, 0)
  }

  /** Drag the border of column i by d pixels to the left: its width shrinks
      by d unless that would leave it narrower than MinColumnWidth. */
  function Resized(slots: seq<Option<Column>>, i: nat, d: int): (r: seq<Option<Column>>)
    requires i < |slots| && slots[i].Some?
    ensures |r| == |slots| && r[i].Some? && r[i].value.text == slots[i].value.text
    ensures forall j :: 0 <= j < |slots| && j != i ==> r[j] == slots[j]
    ensures slots[i].value.width - d >= MinColumnWidth ==> r[i].value.width == slots[i].value.width - d
    ensures slots[i].value.width - d < MinColumnWidth ==> r[i] == slots[i]
  {
    var c := slots[i].value;
    if c.width - d >= MinColumnWidth then slots[i := Some(c.(width := c.width - d))] else slots
  }

  /** A column that was at least MinColumnWidth wide stays so after a drag. */
  lemma ResizeKeepsMinimumWidth(slots: seq<Option<Column>>, i: nat, d: int)
    requires i < |slots| && slots[i].Some? && slots[i].value.width >= MinColumnWidth
    ensures Resized(slots, i, d)[i].value.width >= MinColumnWidth
  {
  }

  /** The column array, when allocated, holds a column in each of its first
      n slots and nothing after them, with at most two slots past n. */
  ghost predicate ColumnsValid(a: array?<Option<Column>>, n: nat)
    reads a
  {
    && (a == null ==> n == 0)
    && (a != null ==>
          && n < a.Length <= n + 2
          && (forall i :: 0 <= i < n ==> a[i].Some?)
          && (forall i :: n <= i < a.Length ==> a[i] == None))
  }

  /** The used column slots of the column array. */
  ghost function SlotsOf(a: array?<Option<Column>>, n: nat): seq<Option<Column>>
    reads a
    requires ColumnsValid(a, n)
  {
    if a == null then [] else a[..n]
  }

  /** Outcome of a callback command besides the processed flag. */
  datatype CallbackResult = NoResult | TouchHandled | KeyHandled | U8(value: int)

  /** Commands of the widget callback protocol that a list view sees. */
  datatype Command =
    | PreInit
    | Draw
    | Remove
    | TouchStart(x: int, y: int)
    | TouchMove(x: int, y: int)
    | Click(x: int, y: int)
    | KeyPress(key: NavKey)
    | IncSelection(dir: int)
    | OtherCommand

  class Listview {
    var rows: seq<Row>
    var count: int
    var nextRowId: RowId
    var cols: array?<Option<Column>>
    var colCount: nat
    var selected: int
    var visibleStart: int
    var sliderAuto: bool
    var sliderOn: bool
    var sliderWidth: int
    var tx: int
    var ty: int
    var invalidations: nat
    var events: nat

    /** The row counter equals the number of rows, handles are distinct and
        below the next fresh handle, and the column array is well formed. */
    ghost predicate Valid()
      reads this`rows, this`count, this`nextRowId, this`cols, this`colCount, cols
    {
      && count == |rows|
      && DistinctIds(rows)
      && (forall i :: 0 <= i < |rows| ==> rows[i].id < nextRowId)
      && ColumnsValid(cols, colCount)
    }

    /** The columns in use, in order. */
    ghost function Columns(): seq<Option<Column>>
      reads this`cols, this`colCount, cols
      requires ColumnsValid(cols, colCount)
    {
      SlotsOf(cols, colCount)
    }

    /** A list view as the widget allocator leaves it (all zero) after its
        PreInit step. */
    constructor ()
      ensures Valid() && cols == null && Columns() == []
      ensures rows == [] && count == 0 && nextRowId == 0
      ensures selected == -1 && visibleStart == 0
      ensures sliderAuto && !sliderOn && sliderWidth == DefaultSliderWidth
      ensures tx == 0 && ty == 0 && invalidations == 0 && events == 0
    {
      rows, count, nextRowId := [], 0, 0;
      cols, colCount := null, 0;
      selected, visibleStart := 0, 0;
      sliderAuto, sliderOn, sliderWidth := false, false, 0;
      tx, ty := 0, 0;
      invalidations, events := 0, 0;
      new;
      OnPreInit();
    }

    /** PreInit step: no selection, slider width 30, automatic slider mode. */
    method OnPreInit()
      modifies this`selected, this`sliderWidth, this`sliderAuto
      ensures selected == -1 && sliderWidth == DefaultSliderWidth && sliderAuto
    {
      selected := -1;
      sliderWidth := DefaultSliderWidth;
      sliderAuto := true;
    }

    /** `slide`: move the first visible row by `dir`, clamped, and redraw
        unless dir is 0. */
    method Slide(dir: int, m: Metrics)
      requires SaneMetrics(m)
      modifies this`visibleStart, this`invalidations
      ensures visibleStart == SlideStart(old(visibleStart), dir, count, ItemsPerPage(m))
      ensures invalidations == old(invalidations) + (if dir != 0 then 1 else 0)
    {
      var perPage := ItemsPerPage(m);
      if dir < 0 {
        if visibleStart + dir < 0 {
          visibleStart := 0;
        } else {
          visibleStart := visibleStart + dir;
        }
        invalidations := invalidations + 1;
      } else if dir > 0 {
        if visibleStart + dir > count - perPage - 1 {
          visibleStart := count - perPage;
        } else {
          visibleStart := visibleStart + dir;
        }
        invalidations := invalidations + 1;
      }
    }

    /** `set_selection`: change the selection and raise SelectionChanged
        exactly when the new value differs from the old one. */
    method SetSelected(sel: int)
      modifies this`selected, this`events
      ensures selected == sel
      ensures events == old(events) + (if old(selected) != sel then 1 else 0)
    {
      if selected != sel {
        selected := sel;
        events := events + 1;
      }
    }

    /** `inc_selection`: move the selection by `dir`, clamped, and redraw
        unless dir is 0. */
    method IncSelection(dir: int)
      modifies this`selected, this`events, this`invalidations
      ensures selected == IncSelected(old(selected), dir, count)
      ensures events == old(events) + (if selected != old(selected) then 1 else 0)
      ensures invalidations == old(invalidations) + (if dir != 0 then 1 else 0)
    {
      if dir < 0 {
        if selected + dir < 0 {
          SetSelected(0);
        } else {
          SetSelected(selected + dir);
        }
        invalidations := invalidations + 1;
      } else if dir > 0 {
        if selected + dir > count - 1 {
          SetSelected(count - 1);
        } else {
          SetSelected(selected + dir);
        }
        invalidations := invalidations + 1;
      }
    }

    /** `check_values`: bring selection, first visible row and, in automatic
        slider mode, slider visibility in line with the row count. */
    method CheckValues(m: Metrics)
      requires SaneMetrics(m)
      modifies this`selected, this`events, this`visibleStart, this`sliderOn
      ensures selected == CheckedSelection(old(selected), count)
      ensures events == old(events) + (if selected != old(selected) then 1 else 0)
      ensures visibleStart == CheckedStart(old(visibleStart), count, ItemsPerPage(m))
      ensures sliderOn == (if sliderAuto then count > ItemsPerPage(m) else old(sliderOn))
    {
      var perPage := ItemsPerPage(m);
      if selected >= 0 {
        if selected >= count {
          SetSelected(count - 1);
        }
      }
      if visibleStart < 0 {
        visibleStart := 0;
      } else if visibleStart > 0 {
        if count > perPage {
          if visibleStart + perPage >= count {
            visibleStart := count - perPage;
          }
        }
      }
      if sliderAuto {
        sliderOn := count > perPage;
      }
    }

    /** `remove_row_items`: free the items of a row one by one from the front;
        the result is the number of blocks freed. */
    static method ReleaseRowItems(items: seq<Option<string>>) returns (released: nat)
      ensures released == |items|
    {
      var rest := items;
      released := 0;
      while rest != []
        invariant released + |rest| == |items|
      {
        rest := rest[1..];
        released := released + 1;
      }
    }

    /** `remove_rows`: unlink and free the first row, with its items, until
        none is left, then zero the row counter. */
    method ReleaseRows() returns (released: nat)
      requires Valid()
      modifies this`rows, this`count
      ensures Valid() && rows == [] && count == 0
      ensures released == |old(rows)| + TotalItems(old(rows))
    {
      released := 0;
      while rows != []
        invariant released + |rows| + TotalItems(rows) == |old(rows)| + TotalItems(old(rows))
      {
        var row := rows[0];
        rows := rows[1..];
        var n := ReleaseRowItems(row.items);
        released := released + n + 1;
      }
      count := 0;
    }

    /** Remove step: free all rows, then every column and the column array.
        The widget is gone afterwards, so the model leaves it empty. */
    method OnRemove() returns (released: nat)
      requires Valid()
      modifies this`rows, this`count, this`cols, this`colCount
      ensures Valid() && rows == [] && count == 0 && cols == null && Columns() == []
      ensures released == |old(rows)| + TotalItems(old(rows))
                          + (if old(cols) != null then old(colCount) + 1 else 0)
    {
      released := ReleaseRows();
      if cols != null {
        released := released + colCount + 1;
      }
      cols, colCount := null, 0;
    }

    /** Column-border scan of TouchMove: the first column whose right border
        lies within the grab distance of the saved touch x, or colCount. */
    method FindColumnBorder() returns (i: nat)
      requires ColumnsValid(cols, colCount)
      ensures i == BorderIndex(Columns(), tx)
    {
      ghost var slots := Columns();
      i := 0;
      var sum := 0;
      while i < colCount
        invariant i <= colCount
        invariant sum == SumWidths(slots[..i])
        invariant forall j :: 0 <= j < i ==> !NearBorder(slots, tx, j)
      {
        SumWidthsStep(slots, i);
        sum := sum + cols[i].value.width;
        if Abs(tx - sum) < EdgeGrab {
          assert NearBorder(slots, tx, i);
          BorderIsFirst(slots, tx, i);
          return;
        }
        i := i + 1;
      }
      BorderIsFirst(slots, tx, i);
    }

    /** TouchStart step: remember where the touch began. */
    method OnTouchStart(x: int, y: int)
      modifies this`tx, this`ty
      ensures tx == x && ty == y
    {
      tx, ty := x, y;
    }

    /** Header part of TouchMove: when a column's right border lies within
        the grab distance of the saved touch x, drag it to x (keeping the
        column at least MinColumnWidth wide), remember x and redraw. */
    method DragColumnBorder(x: int)
      requires ColumnsValid(cols, colCount)
      modifies this`tx, this`invalidations, cols
      ensures ColumnsValid(cols, colCount)
      ensures
        var b := BorderIndex(old(Columns()), old(tx));
        && tx == (if b < colCount then x else old(tx))
        && Columns() == (if b < colCount then Resized(old(Columns()), b, old(tx) - x) else old(Columns()))
        && invalidations == old(invalidations) + (if b < colCount then 1 else 0)
    {
      var diff := tx - x;
      var i := FindColumnBorder();
      if i != colCount {
        var c := cols[i].value;
        if c.width - diff >= MinColumnWidth {
          cols[i] := Some(c.(width := c.width - diff));
          assert cols[..colCount] == old(Columns())[i := cols[i]];
        }
        tx := x;
        invalidations := invalidations + 1;
      }
    }

    /** The effect of TouchMove: with a font, a vertical drag of more than one
        row height slides by one row toward the drag and saves y; in the
        header row a column border within reach of the saved x follows the
        finger. Without a font nothing changes. */
    twostate predicate TouchMoved(x: int, y: int, m: Metrics)
      requires SaneMetrics(m) && old(ColumnsValid(cols, colCount)) && ColumnsValid(cols, colCount)
      reads this, cols
    {
      if !m.hasFont then
        && visibleStart == old(visibleStart) && tx == old(tx) && ty == old(ty)
        && invalidations == old(invalidations) && Columns() == old(Columns())
      else
        var diff := old(ty) - y;
        var slid := Abs(diff) > m.rowHeight;
        var b := BorderIndex(old(Columns()), old(tx));
        var grabbed := ty < m.rowHeight && b < |old(Columns())| && old(Columns())[b].Some?;
        && ty == (if slid then y else old(ty))
        && visibleStart == (if slid then SlideStart(old(visibleStart), if diff > 0 then 1 else -1, count, ItemsPerPage(m))
                            else old(visibleStart))
        && tx == (if grabbed then x else old(tx))
        && Columns() == (if grabbed then Resized(old(Columns()), b, old(tx) - x) else old(Columns()))
        && invalidations == old(invalidations) + (if slid then 1 else 0) + (if grabbed then 1 else 0)
    }

    /** TouchMove step: a vertical drag of more than one row height slides the
        list by one row; a horizontal drag in the header row that grabbed a
        column border resizes that column. */
    method OnTouchMove(x: int, y: int, m: Metrics)
      requires Valid() && SaneMetrics(m)
      modifies this`visibleStart, this`invalidations, this`tx, this`ty, cols
      ensures Valid() && TouchMoved(x, y, m)
    {
      if m.hasFont {
        var height := m.rowHeight;
        var diff := ty - y;
        if Abs(diff) > height {
          Slide(if diff > 0 then 1 else -1, m);
          ty := y;
        }
        if ty < height {
          DragColumnBorder(x);
        }
      }
    }

    /** The effect of Click: inside the side slider, the top part slides up
        and the bottom part slides down; below the header row, the touched
        row becomes selected when it exists; a header click changes nothing. */
    twostate predicate Clicked(x: int, y: int, m: Metrics)
      requires m.hasFont && m.rowHeight > 0
      reads this
    {
      var inSlider := old(sliderOn) && x > m.width - old(sliderWidth);
      var hit := !inSlider && y > m.rowHeight && old(visibleStart) + HitRow(y, m.rowHeight) < count;
      && visibleStart == (if inSlider && y < old(sliderWidth) then SlideStart(old(visibleStart), -1, count, ItemsPerPage(m))
                          else if inSlider && y > m.height - old(sliderWidth) then SlideStart(old(visibleStart), 1, count, ItemsPerPage(m))
                          else old(visibleStart))
      && selected == (if hit then old(visibleStart) + HitRow(y, m.rowHeight) else old(selected))
      && events == old(events) + (if selected != old(selected) then 1 else 0)
      && invalidations == old(invalidations) +
           (if hit || (inSlider && (y < old(sliderWidth) || y > m.height - old(sliderWidth))) then 1 else 0)
    }

    /** Click step: inside the side slider, the top part slides up and the
        bottom part slides down; below the header row, the touched row
        becomes selected when it exists. A header click changes nothing. */
    method OnClick(x: int, y: int, m: Metrics)
      requires m.hasFont && m.rowHeight > 0
      modifies this`visibleStart, this`invalidations, this`selected, this`events
      ensures Clicked(x, y, m)
    {
      var itemHeight := m.rowHeight;
      var handled := false;
      if sliderOn {
        if x > m.width - sliderWidth {
          if y < sliderWidth {
            Slide(-1, m);
          } else if y > m.height - sliderWidth {
            Slide(1, m);
          }
          handled := true;
        }
      }
      if !handled {
        if y > itemHeight {
          var tmpSelected := (y - itemHeight) / itemHeight;
          if visibleStart + tmpSelected < count {
            SetSelected(visibleStart + tmpSelected);
            invalidations := invalidations + 1;
          }
        }
      }
    }

    /** KeyPress step: Down moves the selection down, Up moves it up; only
        those two keys are reported as handled. */
    method OnKeyPress(key: NavKey) returns (keyHandled: bool)
      modifies this`selected, this`events, this`invalidations
      ensures keyHandled <==> !key.OtherKey?
      ensures selected == (if key.KeyDown? then IncSelected(old(selected), 1, count)
                           else if key.KeyUp? then IncSelected(old(selected), -1, count)
                           else old(selected))
      ensures events == old(events) + (if selected != old(selected) then 1 else 0)
      ensures invalidations == old(invalidations) + (if keyHandled then 1 else 0)
    {
      keyHandled := false;
      if key == KeyDown {
        IncSelection(1);
        keyHandled := true;
      } else if key == KeyUp {
        IncSelection(-1);
        keyHandled := true;
      }
    }

    /** The widget callback: dispatch on the command. Draw is reduced to the
        value check it runs before drawing; commands the list view does not
        handle are reported as not processed and change nothing. */
    method Callback(cmd: Command, m: Metrics) returns (processed: bool, result: CallbackResult)
      requires Valid() && SaneMetrics(m)
      requires cmd.Click? ==> m.hasFont && m.rowHeight > 0
      modifies this`selected, this`sliderWidth, this`sliderAuto, this`events, this`visibleStart, this`sliderOn
      modifies this`rows, this`count, this`cols, this`colCount, this`tx, this`ty, this`invalidations, cols
      ensures Valid() && nextRowId == old(nextRowId)
      ensures processed <==> !cmd.OtherCommand?
      ensures result == (if cmd.TouchStart? then TouchHandled
                         else if cmd.IncSelection? then U8(1)
                         else if cmd.KeyPress? && !cmd.key.OtherKey? then KeyHandled
                         else NoResult)
      ensures cmd.PreInit? ==> selected == -1 && sliderWidth == DefaultSliderWidth && sliderAuto
      ensures cmd.Draw? ==>
        && selected == CheckedSelection(old(selected), count)
        && events == old(events) + (if selected != old(selected) then 1 else 0)
        && visibleStart == CheckedStart(old(visibleStart), count, ItemsPerPage(m))
        && sliderOn == (if sliderAuto then count > ItemsPerPage(m) else old(sliderOn))
      ensures cmd.TouchStart? ==> tx == cmd.x && ty == cmd.y
      ensures cmd.TouchMove? ==> TouchMoved(cmd.x, cmd.y, m)
      ensures cmd.Click? ==> Clicked(cmd.x, cmd.y, m)
      ensures cmd.KeyPress? ==>
        && selected == (if cmd.key.KeyDown? then IncSelected(old(selected), 1, count)
                        else if cmd.key.KeyUp? then IncSelected(old(selected), -1, count)
                        else old(selected))
        && events == old(events) + (if selected != old(selected) then 1 else 0)
        && invalidations == old(invalidations) + (if !cmd.key.OtherKey? then 1 else 0)
      ensures cmd.IncSelection? ==>
        && selected == IncSelected(old(selected), cmd.dir, count)
        && events == old(events) + (if selected != old(selected) then 1 else 0)
        && invalidations == old(invalidations) + (if cmd.dir != 0 then 1 else 0)
      ensures cmd.Remove? ==> rows == [] && count == 0 && cols == null
      ensures cmd.OtherCommand? ==> unchanged(this) && Columns() == old(Columns())
      ensures !cmd.Remove? ==> rows == old(rows) && count == old(count) && cols == old(cols) && colCount == old(colCount)
      ensures !cmd.Remove? && !cmd.TouchMove? ==> Columns() == old(Columns())
      ensures !cmd.PreInit? ==> sliderWidth == old(sliderWidth) && sliderAuto == old(sliderAuto)
      ensures !(cmd.PreInit? || cmd.Draw? || cmd.Click? || cmd.KeyPress? || cmd.IncSelection?) ==> selected == old(selected)
      ensures !(cmd.Draw? || cmd.Click? || cmd.KeyPress? || cmd.IncSelection?) ==> events == old(events)
      ensures !(cmd.Draw? || cmd.TouchMove? || cmd.Click?) ==> visibleStart == old(visibleStart)
      ensures !cmd.Draw? ==> sliderOn == old(sliderOn)
      ensures !(cmd.TouchStart? || cmd.TouchMove?) ==> tx == old(tx) && ty == old(ty)
      ensures !(cmd.TouchMove? || cmd.Click? || cmd.KeyPress? || cmd.IncSelection?) ==> invalidations == old(invalidations)
    {
      processed, result := true, NoResult;
      match cmd {
        case PreInit =>
          OnPreInit();
        case Draw =>
          CheckValues(m);
        case Remove =>
          var _ := OnRemove();
        case TouchStart(x, y) =>
          OnTouchStart(x, y);
          result := TouchHandled;
        case TouchMove(x, y) =>
          OnTouchMove(x, y, m);
        case Click(x, y) =>
          OnClick(x, y, m);
        case KeyPress(key) =>
          var handled := OnKeyPress(key);
          if handled {
            result := KeyHandled;
          }
        case IncSelection(dir) =>
          IncSelection(dir);
          result := U8(1);
        case OtherCommand =>
          processed := false;
      }
    }

    // -------------------------------------------------------------------
    // Public operations
    // -------------------------------------------------------------------

    /** The reallocation of the column array to n + 2 slots: the old slots
        are copied over and the new ones are empty. */
    static method GrowColumns(src: array?<Option<Column>>, n: nat) returns (grown: array<Option<Column>>)
      requires ColumnsValid(src, n)
      ensures fresh(grown) && grown.Length == n + 2
      ensures grown[..n] == SlotsOf(src, n)
      ensures forall j :: n <= j < n + 2 ==> grown[j] == None
    {
      grown := new Option<Column>[n + 2](_ => None);
      if src != null {
        var i := 0;
        while i < src.Length
          invariant 0 <= i <= src.Length <= grown.Length
          invariant forall j :: 0 <= j < i ==> grown[j] == src[j]
          invariant forall j :: i <= j < grown.Length ==> grown[j] == None
        {
          grown[i] := src[i];
          i := i + 1;
        }
        assert grown[..n] == src[..n];
      }
    }

    /** Append a column of the given text and width (100 when width is not
        positive). The column array is first grown to colCount + 2 slots;
        when that or the column's own allocation fails, the result is 0 and
        the columns are unchanged. */
    method AddColumn(gui: Gui, text: string, width: int, reallocOk: bool, allocOk: bool) returns (ret: int)
      requires ColumnsValid(cols, colCount)
      modifies this`cols, this`colCount
      ensures ColumnsValid(cols, colCount)
      ensures ret == (if gui.initialized && reallocOk && allocOk then 1 else 0)
      ensures ret == 1 ==>
        Columns() == old(Columns()) + [Some(Column(text, if width > 0 then width else DefaultColumnWidth))]
      ensures ret == 0 ==> Columns() == old(Columns())
    {
      if !gui.initialized {
        return 0;
      }
      ret := 0;
      if reallocOk {
        var n := colCount;
        var grown := GrowColumns(cols, n);
        cols := grown;
        if allocOk {
          grown[n] := Some(Column(text, if width > 0 then width else DefaultColumnWidth));
          assert grown[..n + 1] == old(Columns()) + [grown[n]];
          colCount := n + 1;
          ret := 1;
        }
      }
    }

    /** Set the width of an existing column, never below 4 pixels; 0 for an
        index past the last column. */
    method SetColumnWidth(gui: Gui, index: nat, width: int) returns (ret: int)
      requires ColumnsValid(cols, colCount)
      modifies this`invalidations, cols
      ensures ColumnsValid(cols, colCount)
      ensures ret == (if gui.initialized && index < colCount then 1 else 0)
      ensures ret == 1 ==>
        && Columns() == old(Columns())[index := Some(old(Columns())[index].value.(width := if width > MinColumnWidth then width else MinColumnWidth))]
        && Columns()[index].value.width >= MinColumnWidth
        && invalidations == old(invalidations) + 1
      ensures ret == 0 ==> Columns() == old(Columns()) && invalidations == old(invalidations)
    {
      if !gui.initialized {
        return 0;
      }
      ret := 0;
      if index < colCount {
        var c := cols[index].value;
        cols[index] := Some(c.(width := if width > MinColumnWidth then width else MinColumnWidth));
        assert cols[..colCount] == old(Columns())[index := cols[index]];
        invalidations := invalidations + 1;
        ret := 1;
      }
    }

    /** Append an empty row and return its handle, then re-check the scalars;
        on allocation failure return no handle and change nothing. */
    method AddRow(gui: Gui, allocOk: bool, m: Metrics) returns (row: Option<RowId>)
      requires Valid() && SaneMetrics(m)
      modifies this`rows, this`count, this`nextRowId, this`selected, this`events, this`visibleStart, this`sliderOn
      ensures Valid()
      ensures row.Some? <==> gui.initialized && allocOk
      ensures row.Some? ==> !HasRow(old(rows), row.value)
      ensures row.Some? ==>
        && rows == old(rows) + [Row(row.value, [])] && count == old(count) + 1
        && selected == CheckedSelection(old(selected), count)
        && events == old(events) + (if selected != old(selected) then 1 else 0)
        && visibleStart == CheckedStart(old(visibleStart), count, ItemsPerPage(m))
        && sliderOn == (if sliderAuto then count > ItemsPerPage(m) else old(sliderOn))
      ensures row.None? ==> unchanged(this)
    {
      if !gui.initialized {
        return None;
      }
      row := None;
      if allocOk {
        var id := nextRowId;
        nextRowId := nextRowId + 1;
        rows := rows + [Row(id, [])];
        count := count + 1;
        CheckValues(m);
        row := Some(id);
      }
    }

    /** Unlink a row, free it with its items, decrease the row counter and
        re-check the scalars; 0 for a NULL handle. The handle must belong to
        this list. */
    method RemoveRow(gui: Gui, row: Option<RowId>, m: Metrics) returns (ret: int)
      requires Valid() && SaneMetrics(m)
      requires row.Some? ==> HasRow(rows, row.value)
      modifies this`rows, this`count, this`selected, this`events, this`visibleStart, this`sliderOn
      ensures Valid()
      ensures ret == (if gui.initialized && row.Some? then 1 else 0)
      ensures ret == 1 ==>
        && rows == Unlink(old(rows), RowIndex(old(rows), row.value))
        && !HasRow(rows, row.value)
        && (forall other :: other != row.value ==> (HasRow(rows, other) <==> HasRow(old(rows), other)))
        && count == old(count) - 1
        && selected == CheckedSelection(old(selected), count)
        && events == old(events) + (if selected != old(selected) then 1 else 0)
        && visibleStart == CheckedStart(old(visibleStart), count, ItemsPerPage(m))
        && sliderOn == (if sliderAuto then count > ItemsPerPage(m) else old(sliderOn))
      ensures ret == 0 ==> unchanged(this)
    {
      if !gui.initialized || row.None? {
        return 0;
      }
      var k := RowIndex(rows, row.value);
      var released := ReleaseRowItems(rows[k].items);
      UnlinkRemovesOnlyThatRow(rows, row.value);
      rows := Unlink(rows, k);
      count := count - 1;
      CheckValues(m);
      ret := 1;
    }

    /** Free every row and its items, then re-check the scalars. */
    method RemoveRows(gui: Gui, m: Metrics) returns (ret: int)
      requires Valid() && SaneMetrics(m)
      modifies this`rows, this`count, this`selected, this`events, this`visibleStart, this`sliderOn
      ensures Valid()
      ensures ret == (if gui.initialized then 1 else 0)
      ensures ret == 1 ==>
        && rows == [] && count == 0
        && selected == CheckedSelection(old(selected), 0)
        && events == old(events) + (if selected != old(selected) then 1 else 0)
        && visibleStart == CheckedStart(old(visibleStart), 0, ItemsPerPage(m))
        && sliderOn == (if sliderAuto then 0 > ItemsPerPage(m) else old(sliderOn))
      ensures ret == 0 ==> unchanged(this)
    {
      if !gui.initialized {
        return 0;
      }
      var released := ReleaseRows();
      CheckValues(m);
      ret := 1;
    }

    /** Set the text of the item at column `col` of a row, first appending
        empty items until the row has one there. `allocLimit` is the number of
        item allocations that succeed before one fails; on that failure the
        result is 0 and the items appended so far stay. */
    method SetItemString(gui: Gui, row: Option<RowId>, col: nat, text: string, allocLimit: nat) returns (ret: int)
      requires Valid() && col <= MaxColumnParam
      requires row.Some? ==> HasRow(rows, row.value)
      modifies this`rows
      ensures Valid()
      ensures !gui.initialized || row.None? ==> ret == 0 && rows == old(rows)
      ensures gui.initialized && row.Some? ==>
        var k := RowIndex(old(rows), row.value);
        var r := SetItem(old(rows)[k].items, col, text, allocLimit);
        && ret == (if r.1 then 1 else 0)
        && rows == old(rows)[k := Row(row.value, r.0)]
    {
      if !gui.initialized || row.None? {
        return 0;
      }
      var k := RowIndex(rows, row.value);
      var items := rows[k].items;
      if col == MaxColumnParam {
        // col + 1 wraps to 0: the walk stays on the first item
        ret := 0;
        if items != [] {
          rows := rows[k := Row(row.value, items[0 := Some(text)])];
          ret := 1;
        }
        return;
      }
      ghost var start := items;
      var allocs := 0;
      var found := true;
      var j := 0;  // index of the item the walk stands on
      while j <= col
        invariant j <= col + 1
        invariant allocs <= allocLimit
        invariant items == Pad(start, j) && allocs == |items| - |start|
      {
        if j == |items| {
          if allocs == allocLimit {
            found := false;
            break;
          }
          items := items + [None];
          allocs := allocs + 1;
        }
        j := j + 1;
      }
      if found {
        items := items[col := Some(text)];
      }
      rows := rows[k := Row(row.value, items)];
      ret := if found then 1 else 0;
    }

    /** Switch automatic slider mode on or off; redraw only on a change. */
    method SetSliderAuto(gui: Gui, autoMode: bool) returns (ret: int)
      modifies this`sliderAuto, this`invalidations
      ensures ret == (if gui.initialized then 1 else 0)
      ensures sliderAuto == (if ret == 1 then autoMode else old(sliderAuto))
      ensures invalidations == old(invalidations) + (if sliderAuto != old(sliderAuto) then 1 else 0)
    {
      if !gui.initialized {
        return 0;
      }
      if autoMode && !sliderAuto {
        sliderAuto := true;
        invalidations := invalidations + 1;
      } else if !autoMode && sliderAuto {
        sliderAuto := false;
        invalidations := invalidations + 1;
      }
      ret := 1;
    }

    /** In manual slider mode, show or hide the slider; 1 only when that
        changed its visibility. */
    method SetSliderVisibility(gui: Gui, visible: bool) returns (ret: int)
      modifies this`sliderOn, this`invalidations
      ensures ret == (if gui.initialized && !sliderAuto && old(sliderOn) != visible then 1 else 0)
      ensures sliderOn == (if ret == 1 then visible else old(sliderOn))
      ensures invalidations == old(invalidations) + ret
    {
      if !gui.initialized {
        return 0;
      }
      ret := 0;
      if !sliderAuto {
        if visible && !sliderOn {
          sliderOn := true;
          invalidations := invalidations + 1;
          ret := 1;
        } else if !visible && sliderOn {
          sliderOn := false;
          invalidations := invalidations + 1;
          ret := 1;
        }
      }
    }

    /** Move the first visible row by `step`, re-check the scalars and
        return 1 exactly when the first visible row changed. */
    method Scroll(gui: Gui, step: int, m: Metrics) returns (ret: int)
      requires SaneMetrics(m)
      modifies this`selected, this`events, this`visibleStart, this`sliderOn, this`invalidations
      ensures !gui.initialized ==> ret == 0 && unchanged(this)
      ensures gui.initialized ==>
        && visibleStart == CheckedStart(old(visibleStart) + step, count, ItemsPerPage(m))
        && ret == (if visibleStart != old(visibleStart) then 1 else 0)
        && invalidations == old(invalidations) + ret
        && selected == CheckedSelection(old(selected), count)
        && events == old(events) + (if selected != old(selected) then 1 else 0)
        && sliderOn == (if sliderAuto then count > ItemsPerPage(m) else old(sliderOn))
    {
      if !gui.initialized {
        return 0;
      }
      var start := visibleStart;
      visibleStart := visibleStart + step;
      CheckValues(m);
      ret := if start != visibleStart then 1 else 0;
      if ret == 1 {
        invalidations := invalidations + 1;
      }
    }

    /** Set the selection, re-check the scalars and redraw. */
    method SetSelection(gui: Gui, selection: int, m: Metrics) returns (ret: int)
      requires SaneMetrics(m)
      modifies this`selected, this`events, this`visibleStart, this`sliderOn, this`invalidations
      ensures ret == (if gui.initialized then 1 else 0)
      ensures ret == 1 ==>
        && selected == CheckedSelection(selection, count)
        && events == old(events) + (if old(selected) != selection then 1 else 0)
                                  + (if selected != selection then 1 else 0)
        && visibleStart == CheckedStart(old(visibleStart), count, ItemsPerPage(m))
        && sliderOn == (if sliderAuto then count > ItemsPerPage(m) else old(sliderOn))
        && invalidations == old(invalidations) + 1
      ensures ret == 0 ==> unchanged(this)
    {
      if !gui.initialized {
        return 0;
      }
      SetSelected(selection);
      CheckValues(m);
      invalidations := invalidations + 1;
      ret := 1;
    }

    /** The selected row, -1 for none; the guard's failure value is 0. */
    method GetSelection(gui: Gui) returns (selection: int)
      ensures gui.initialized ==> selection == selected
      ensures !gui.initialized ==> selection == 0
    {
      selection := AssertParams(true, gui, 0, selected);
    }

    /** Copy the text of the item at (rindex, cindex), cut to length - 1
        characters; `dst` is None when the guard returned before writing it,
        and the empty text when no such item exists. The column reaches the
        item lookup as an 8-bit value, so it is taken modulo 256. */
    method GetItemValue(gui: Gui, rindex: nat, cindex: nat, length: nat) returns (ret: int, dst: Option<string>)
      requires Valid()
      requires rindex < |rows| && cindex % ItemIndexRange < |rows[rindex].items| ==> rows[rindex].items[cindex % ItemIndexRange].Some?
      ensures !gui.initialized || length <= 1 ==> ret == 0 && dst == None
      ensures gui.initialized && length > 1 ==>
        var item := ItemAt(GetRow(rows, rindex), cindex % ItemIndexRange);
        && ret == (if item.Some? then 1 else 0)
        && dst.Some?
        && (item.None? ==> dst.value == "")
        && (item.Some? ==> dst.value <= item.value.value && |dst.value| <= length - 1)
        && (item.Some? ==> dst.value == (if |item.value.value| <= length - 1 then item.value.value
                                         else item.value.value[..length - 1]))
    {
      if !gui.initialized || length <= 1 {
        return 0, None;
      }
      ret := 0;
      dst := Some("");
      var row := GetRow(rows, rindex);
      if row.Some? {
        var item := ItemAt(row, cindex % ItemIndexRange);
        if item.Some? {
          var text := item.value.value;
          dst := Some(if |text| <= length - 1 then text else text[..length - 1]);
          ret := 1;
        }
      }
    }
  }

  /** The first column whose border is near x is unique: the scan's result
      agrees with BorderIndex. */
  lemma BorderIsFirst(slots: seq<Option<Column>>, x: int, i: nat)
    requires i <= |slots|
    requires i < |slots| ==> NearBorder(slots, x, i)
    requires forall j :: 0 <= j < i ==> !NearBorder(slots, x, j)
    ensures i == BorderIndex(slots, x)
  {
  }

  // ---------------------------------------------------------------------
  // Properties relating several operations
  // ---------------------------------------------------------------------

  /** Running the range check of `check_values` a second time changes
      nothing. */
  lemma CheckValuesIdempotent(selected: int, start: int, count: int, perPage: int)
    ensures CheckedSelection(CheckedSelection(selected, count), count) == CheckedSelection(selected, count)
    ensures CheckedStart(CheckedStart(start, count, perPage), count, perPage) == CheckedStart(start, count, perPage)
  {
  }

  /** Moving the selection by a non-zero step keeps it on an existing row,
      starting from any row or from "no selection"; in particular Up with no
      selection selects row 0. */
  lemma IncSelectionKeepsRange(selected: int, dir: int, count: int)
    requires count > 0 && -1 <= selected < count && dir != 0
    ensures 0 <= IncSelected(selected, dir, count) < count
    ensures selected == -1 && dir == -1 ==> IncSelected(selected, dir, count) == 0
  {
  }

  /** Sliding forward on a list shorter than a page sets the first visible
      row to count - perPage, which is negative; the next range check puts it
      back to 0. */
  lemma SlideForwardOnShortList(start: int, count: int, perPage: int)
    requires 0 <= start && 0 <= count < perPage
    ensures SlideStart(start, 1, count, perPage) == count - perPage < 0
    ensures CheckedStart(SlideStart(start, 1, count, perPage), count, perPage) == 0
  {
  }

  /** Scrolling 20 rows with 5 per page: +3 from the top gives 3, a further
      +100 gives 15, the last full page. */
  lemma ScrollExample()
    ensures CheckedStart(0 + 3, 20, 5) == 3
    ensures CheckedStart(3 + 100, 20, 5) == 15
  {
  }

  /** Removing the row that was just added gives back the list as it was. */
  lemma RemoveAddedRow(rows: seq<Row>, id: RowId)
    requires !HasRow(rows, id)
    ensures HasRow(rows + [Row(id, [])], id)
    ensures Unlink(rows + [Row(id, [])], RowIndex(rows + [Row(id, [])], id)) == rows
  {
    var grown := rows + [Row(id, [])];
    assert grown[|rows|].id == id;
    var k := RowIndex(grown, id);
    assert k == |rows|;
    assert grown[..k] == rows;
  }

  /** After `setitemstring` succeeds, reading the same cell gives the text
      that was set, and every other existing item reads as before. */
  lemma SetItemThenGetItem(rows: seq<Row>, k: nat, col: nat, text: string, allocLimit: nat)
    requires k < |rows| && col < MaxColumnParam
    ensures var r := SetItem(rows[k].items, col, text, allocLimit);
      var after := rows[k := Row(rows[k].id, r.0)];
      r.1 ==>
        && ItemAt(GetRow(after, k), col) == Some(Some(text))
        && (forall j :: 0 <= j < |rows[k].items| && j != col ==>
              ItemAt(GetRow(after, k), j) == ItemAt(GetRow(rows, k), j))
        && (forall i :: 0 <= i < |rows| && i != k ==> GetRow(after, i) == GetRow(rows, i))
  {
  }
}
