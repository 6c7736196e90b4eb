/**
 * A layout's stroke declarations as data.
 *
 * A concrete layout fills its table by calling the builders of Layout.java
 * one after another. The model writes that sequence of calls down as a list
 * of registrations and replays it with Build, so facts about every layout
 * (the last call for a stroke wins, unregistered strokes stay empty) are
 * proved once here.
 */
module Registrations {
  import opened Results
  import opened Zones
  import opened Keys
  import opened Layouts

  /** One builder call: `s`/`t` (text), `c` (key code) or `l` (layout switch). */
  datatype Registration =
    | TextStroke(start: Zone, end: Zone, lower: string, upper: string, labelLower: Label, labelUpper: Label)
    | CodeStroke(start: Zone, end: Zone, code: int, labelLower: Label, labelUpper: Label)
    | LayoutStroke(start: Zone, end: Zone, target: string, legend: Label)

  /** The four-argument text call: each row is labelled by its own text. */
  function PlainText(start: Zone, end: Zone, lower: string, upper: string): Registration
  {
    TextStroke(start, end, lower, upper, Caption(lower), Caption(upper))
  }

  /** The key a registration puts into the given row. */
  function KeyFor(r: Registration, row: Row): Key
  {
    match r
    case TextStroke(_, _, lower, upper, labelLower, labelUpper) =>
      if row == Down then Key(Text(lower), labelLower) else Key(Text(upper), labelUpper)
    case CodeStroke(_, _, code, labelLower, labelUpper) =>
      Key(Code(code), if row == Down then labelLower else labelUpper)
    case LayoutStroke(_, _, target, legend) =>
      Key(ChangeLayout(target), legend)
  }

  /** Performs one builder call on the table. */
  function Apply(t: Table, r: Registration): (t': Table)
    ensures forall row :: GetKey(t', row, r.start, r.end) == Some(KeyFor(r, row))
    ensures OnlyStrokeWritten(t, t', r.start, r.end)
  {
    match r
    case TextStroke(start, end, lower, upper, labelLower, labelUpper) =>
      RegisterText(t, start, end, lower, upper, labelLower, labelUpper)
    case CodeStroke(start, end, code, labelLower, labelUpper) =>
      RegisterCode(t, start, end, code, labelLower, labelUpper)
    case LayoutStroke(start, end, target, legend) =>
      RegisterLayout(t, start, end, target, legend)
  }

  /**
   * Performs the builder calls in order, first to last, as a layout's
   * constructor does through `initialize`. A stroke that no call names keeps
   * what it held before.
   */
  function Build(t: Table, regs: seq<Registration>): (t': Table)
    ensures forall row, start, end | !Declares(regs, start, end) :: GetKey(t', row, start, end) == GetKey(t, row, start, end)
    decreases |regs|
  {
    if |regs| == 0 then t
    else
      assert forall start, end | !Declares(regs, start, end) :: !Declares(regs[1..], start, end) by {
        forall start, end | Declares(regs[1..], start, end) ensures Declares(regs, start, end) {
          var i :| 0 <= i < |regs[1..]| && regs[1..][i].start == start && regs[1..][i].end == end;
          assert regs[i + 1] == regs[1..][i];
        }
      }
      Build(Apply(t, regs[0]), regs[1..])
  }

  /** The last registration of the stroke from start to end, if any. */
  function Latest(regs: seq<Registration>, start: Zone, end: Zone): Option<Registration>
    decreases |regs|
  {
    if |regs| == 0 then None
    else match Latest(regs[1..], start, end)
      case Some(r) => Some(r)
      case None => if regs[0].start == start && regs[0].end == end then Some(regs[0]) else None
  }

  /** Some registration in the list is for the stroke from start to end. */
  ghost predicate Declares(regs: seq<Registration>, start: Zone, end: Zone)
  {
    exists i | 0 <= i < |regs| :: regs[i].start == start && regs[i].end == end
  }

  /** No stroke is registered twice. */
  ghost predicate UniqueStrokes(regs: seq<Registration>)
  {
    forall i, j | 0 <= i < j < |regs| :: regs[i].start != regs[j].start || regs[i].end != regs[j].end
  }

  /**
   * After the builder calls, a cell holds what the last call for its stroke
   * put there, and a stroke nobody registered keeps what it held before.
   */
  lemma {:induction false} BuildLookup(t: Table, regs: seq<Registration>, row: Row, start: Zone, end: Zone)
    ensures GetKey(Build(t, regs), row, start, end)
         == match Latest(regs, start, end)
            case None => GetKey(t, row, start, end)
            case Some(r) => Some(KeyFor(r, row))
    decreases |regs|
  {
    if |regs| > 0 {
      BuildLookup(Apply(t, regs[0]), regs[1..], row, start, end);
    }
  }

  /** Latest finds a registration exactly when the stroke is declared, and what it finds is a call in the list for that stroke. */
  lemma {:induction false} LatestFindsDeclared(regs: seq<Registration>, start: Zone, end: Zone)
    ensures Latest(regs, start, end).Some? <==> Declares(regs, start, end)
    ensures Latest(regs, start, end).Some? ==>
              Latest(regs, start, end).value in regs
              && Latest(regs, start, end).value.start == start
              && Latest(regs, start, end).value.end == end
    decreases |regs|
  {
    if |regs| > 0 {
      var rest := regs[1..];
      LatestFindsDeclared(rest, start, end);
      if Declares(rest, start, end) {
        var i :| 0 <= i < |rest| && rest[i].start == start && rest[i].end == end;
        assert regs[i + 1] == rest[i];
      }
      if Declares(regs, start, end) && !(regs[0].start == start && regs[0].end == end) {
        var i :| 0 <= i < |regs| && regs[i].start == start && regs[i].end == end;
        assert rest[i - 1] == regs[i];
      }
      if Latest(rest, start, end).Some? {
        assert Latest(rest, start, end).value in rest;
      }
    }
  }

  /** In a list without repeated strokes, the last registration of a declared stroke is its only one. */
  lemma {:induction false} LatestIsTheDeclaration(regs: seq<Registration>, i: int)
    requires UniqueStrokes(regs)
    requires 0 <= i < |regs|
    ensures Latest(regs, regs[i].start, regs[i].end) == Some(regs[i])
    decreases |regs|
  {
    var rest := regs[1..];
    assert UniqueStrokes(rest) by {
      forall a, b | 0 <= a < b < |rest|
        ensures rest[a].start != rest[b].start || rest[a].end != rest[b].end
      {
        assert rest[a] == regs[a + 1] && rest[b] == regs[b + 1];
      }
    }
    if i == 0 {
      LatestFindsDeclared(rest, regs[0].start, regs[0].end);
    } else {
      assert rest[i - 1] == regs[i];
      LatestIsTheDeclaration(rest, i - 1);
    }
  }

  /** In a list without repeated strokes, every declared stroke reads back as declared, in both rows. */
  lemma DeclaredStrokeLookup(regs: seq<Registration>, i: int, row: Row)
    requires UniqueStrokes(regs)
    requires 0 <= i < |regs|
    ensures GetKey(Build(Empty(), regs), row, regs[i].start, regs[i].end) == Some(KeyFor(regs[i], row))
  {
    LatestIsTheDeclaration(regs, i);
    BuildLookup(Empty(), regs, row, regs[i].start, regs[i].end);
  }

  /** A stroke that no registration mentions stays empty in both rows. */
  lemma UndeclaredStrokeEmpty(regs: seq<Registration>, row: Row, start: Zone, end: Zone)
    requires !Declares(regs, start, end)
    ensures GetKey(Build(Empty(), regs), row, start, end) == None
  {
    LatestFindsDeclared(regs, start, end);
    BuildLookup(Empty(), regs, row, start, end);
  }

  /** A number identifying the stroke from start to end: start * 16 + end. */
  function StrokeCodeOf(start: Zone, end: Zone): int
  {
    start * TableSide + end
  }

  /** The stroke code of a registration. */
  function StrokeCode(r: Registration): int
  {
    StrokeCodeOf(r.start, r.end)
  }

  /**
   * A list whose stroke codes an index function maps back to their
   * positions registers no stroke twice.
   */
  lemma IndexedStrokesAreUnique(regs: seq<Registration>, position: int -> int)
    requires forall i | 0 <= i < |regs| :: position(StrokeCode(regs[i])) == i
    ensures UniqueStrokes(regs)
  {
  }

  /** Under such an index function, a stroke it maps to no position is not declared. */
  lemma IndexedStrokesDeclareOnlyIndexed(regs: seq<Registration>, position: int -> int, start: Zone, end: Zone)
    requires forall i | 0 <= i < |regs| :: position(StrokeCode(regs[i])) == i
    requires position(StrokeCodeOf(start, end)) < 0
    ensures !Declares(regs, start, end)
  {
  }
}
