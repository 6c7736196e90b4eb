/**
 * The stroke table of a layout and its builders (Layout.java).
 *
 * Java keeps a dense Key[2][16][16] array whose unset cells are null. The
 * model keeps a map from cells to keys: a cell missing from the map is a
 * null cell, so a stroke there has no action.
 */
module Layouts {
  import opened Results
  import opened Zones
  import opened Keys

  /** The three shift states (Layout.SHIFT_OFF, SHIFT_ON, SHIFT_LOCK). */
  datatype ShiftState = Off | On | Lock

  /**
   * The table row a shift state reads from: Off reads the Down row, On and
   * Lock read the Up row. The code that chooses the row is not modelled;
   * this mapping is an assumption.
   */
  function ShiftRow(s: ShiftState): (row: Row)
    ensures row == Down <==> s == Off
  {
    match s
    case Off => Down
    case On => Up
    case Lock => Up
  }

  /** One cell of the table: a row and the stroke's start and end zones. */
  datatype Cell = Cell(row: Row, start: Zone, end: Zone)

  /** The stroke table; a cell absent from the map is empty. */
  datatype Table = Table(cells: map<Cell, Key>)

  /** A freshly allocated table: every cell is empty. */
  function Empty(): (t: Table)
    ensures forall row, start, end :: GetKey(t, row, start, end) == None
  {
    Table(map[])
  }

  /** The key registered for the stroke from start to end in the given row. */
  function GetKey(t: Table, row: Row, start: Zone, end: Zone): (k: Option<Key>)
    ensures k.None? <==> Cell(row, start, end) !in t.cells
    ensures k.Some? ==> k.value in t.cells.Values
  {
    var c := Cell(row, start, end);
    if c in t.cells then Some(t.cells[c]) else None
  }

  /** The action of the stroke: none exactly when the cell is empty. */
  function GetAction(t: Table, row: Row, start: Zone, end: Zone): (a: Option<Action>)
    ensures a.None? <==> GetKey(t, row, start, end).None?
    ensures a.Some? ==> a.value == GetKey(t, row, start, end).value.action
  {
    var c := Cell(row, start, end);
    if c in t.cells then Some(t.cells[c].action) else None
  }

  /** Lookup sees the whole table: two tables that answer every lookup alike are equal. */
  lemma LookupDeterminesTable(t1: Table, t2: Table)
    requires forall row, start, end :: GetKey(t1, row, start, end) == GetKey(t2, row, start, end)
    ensures t1 == t2
  {
    forall c | c in t1.cells || c in t2.cells
      ensures c in t1.cells && c in t2.cells && t1.cells[c] == t2.cells[c]
    {
      assert GetKey(t1, c.row, c.start, c.end) == GetKey(t2, c.row, c.start, c.end);
    }
    assert t1.cells == t2.cells;
  }

  /** Every cell outside the stroke from start to end reads the same in t and t'. */
  ghost predicate OnlyStrokeWritten(t: Table, t': Table, start: Zone, end: Zone)
  {
    forall row, s, e | s != start || e != end :: GetKey(t', row, s, e) == GetKey(t, row, s, e)
  }

  /**
   * The one write that every builder performs: both rows of one stroke,
   * nothing else.
   */
  function PutStroke(t: Table, start: Zone, end: Zone, lower: Key, upper: Key): (t': Table)
    ensures forall row :: GetKey(t', row, start, end) == Some(if row == Down then lower else upper)
    ensures OnlyStrokeWritten(t, t', start, end)
  {
    var t' := Table(t.cells[Cell(Down, start, end) := lower][Cell(Up, start, end) := upper]);
    assert forall row :: GetKey(t', row, start, end) == Some(if row == Down then lower else upper) by {
      forall row ensures GetKey(t', row, start, end) == Some(if row == Down then lower else upper) {
        if row == Down {
          assert Cell(row, start, end) != Cell(Up, start, end);
        }
      }
    }
    t'
  }

  /**
   * The text stroke builder `s` with explicit labels. Both Java overloads
   * (caption labels and drawable labels) are this one function: the label
   * kind is carried by Label.
   */
  function RegisterText(t: Table, start: Zone, end: Zone, lower: string, upper: string,
                        labelLower: Label, labelUpper: Label): (t': Table)
    ensures GetKey(t', Down, start, end) == Some(Key(Text(lower), labelLower))
    ensures GetKey(t', Up, start, end) == Some(Key(Text(upper), labelUpper))
    ensures OnlyStrokeWritten(t, t', start, end)
  {
    PutStroke(t, start, end, Key(Text(lower), labelLower), Key(Text(upper), labelUpper))
  }

  /** The four-argument text stroke builder: each row is labelled by its own text. */
  function RegisterPlainText(t: Table, start: Zone, end: Zone, lower: string, upper: string): (t': Table)
    ensures GetKey(t', Down, start, end) == Some(Key(Text(lower), Caption(lower)))
    ensures GetKey(t', Up, start, end) == Some(Key(Text(upper), Caption(upper)))
    ensures OnlyStrokeWritten(t, t', start, end)
  {
    RegisterText(t, start, end, lower, upper, Caption(lower), Caption(upper))
  }

  /** The key-code stroke builder `c`: one code in both rows, a label per row. */
  function RegisterCode(t: Table, start: Zone, end: Zone, code: int,
                        labelLower: Label, labelUpper: Label): (t': Table)
    ensures GetAction(t', Down, start, end) == Some(Code(code))
    ensures GetAction(t', Up, start, end) == Some(Code(code))
    ensures GetKey(t', Down, start, end).value.legend == labelLower
    ensures GetKey(t', Up, start, end).value.legend == labelUpper
    ensures OnlyStrokeWritten(t, t', start, end)
  {
    PutStroke(t, start, end, Key(Code(code), labelLower), Key(Code(code), labelUpper))
  }

  /**
   * The layout-switch stroke builder `l` (caption and drawable overloads):
   * the identical key in both rows.
   */
  function RegisterLayout(t: Table, start: Zone, end: Zone, name: string, legend: Label): (t': Table)
    ensures forall row :: GetKey(t', row, start, end) == Some(Key(ChangeLayout(name), legend))
    ensures OnlyStrokeWritten(t, t', start, end)
  {
    var k := Key(ChangeLayout(name), legend);
    PutStroke(t, start, end, k, k)
  }

  /** The four-argument `s` is the six-argument `s` with each text as its own caption. */
  lemma PlainTextIsCaptionedText(t: Table, start: Zone, end: Zone, lower: string, upper: string)
    ensures RegisterPlainText(t, start, end, lower, upper)
         == RegisterText(t, start, end, lower, upper, Caption(lower), Caption(upper))
  {
  }

  /** Labels never change what a text stroke types: the drawable overload types the same text. */
  lemma TextActionsIgnoreLabels(t: Table, start: Zone, end: Zone, lower: string, upper: string,
                                l1: Label, l2: Label, l3: Label, l4: Label, row: Row)
    ensures GetAction(RegisterText(t, start, end, lower, upper, l1, l2), row, start, end)
         == GetAction(RegisterText(t, start, end, lower, upper, l3, l4), row, start, end)
    ensures GetAction(RegisterText(t, start, end, lower, upper, l1, l2), row, start, end)
         == Some(Text(if row == Down then lower else upper))
  {
  }

  /**
   * Writing a stroke a second time replaces both of its cells: the table is
   * the same as if only the second write had happened.
   */
  lemma RewriteOverwrites(t: Table, start: Zone, end: Zone,
                          lower1: Key, upper1: Key, lower2: Key, upper2: Key)
    ensures PutStroke(PutStroke(t, start, end, lower1, upper1), start, end, lower2, upper2)
         == PutStroke(t, start, end, lower2, upper2)
  {
    var twice := PutStroke(PutStroke(t, start, end, lower1, upper1), start, end, lower2, upper2);
    var once := PutStroke(t, start, end, lower2, upper2);
    assert twice.cells == once.cells;
  }

  /** Layout categories: reachable from the base keyboard, or only through a switch stroke. */
  datatype LayoutType = Primary | SecondaryChar

  /**
   * A layout: its metadata (getName, getTitle, getLabelPrimary, getType)
   * and its filled stroke table.
   */
  datatype Layout = Layout(name: string, title: string, labelPrimary: string,
                           kind: LayoutType, table: Table)
}
