/** The diacritic layout (layouts/LayoutDiacritic.java): accented letters, one stroke each. */
module Diacritic {
  import opened Results
  import opened Zones
  import opened Keys
  import opened Layouts
  import opened Registrations

  /** How many builder calls the layout makes. */
  const StrokeCount: nat := 45

  /**
   * The layout's builder calls, numbered in source order. The three-glyph
   * `c` and the label-less `l` of this layout use a builder API that is not
   * part of this model; their labels are Unspecified.
   */
  function StrokeAt(i: nat): Registration
    requires i < StrokeCount
  {
    match i
    case 0 => LayoutStroke(MT, OT, LayoutBackToPrimary, Unspecified)

    case 1 => PlainText(MC, LT, "ç", "Ç")
    case 2 => PlainText(MC, MT, "î", "Î")
    case 3 => PlainText(MC, RT, "ñ", "Ñ")
    case 4 => TextStroke(MC, MC, "ß", "S", Caption("ß"), Caption("ss"))
    case 5 => PlainText(MC, LB, "ì", "Ì")
    case 6 => PlainText(MC, MB, "ï", "Ï")
    case 7 => PlainText(MC, RB, "í", "Í")

    case 8 => CodeStroke(LT, LT, KeycodeShiftLeft, Unspecified, Unspecified)
    case 9 => PlainText(LT, MT, "é", "É")
    case 10 => PlainText(LT, RT, "ê", "Ê")
    case 11 => PlainText(LT, MC, "ë", "Ë")
    case 12 => PlainText(LT, LB, "ý", "Ý")
    case 13 => PlainText(LT, MB, "ÿ", "Ÿ")
    case 14 => PlainText(LT, RB, "è", "È")

    case 15 => PlainText(MT, LT, "à", "À")
    case 16 => PlainText(MT, MT, "â", "Â")
    case 17 => PlainText(MT, RT, "á", "Á")
    case 18 => PlainText(MT, MC, "å", "Å")
    case 19 => PlainText(MT, LB, "ã", "Ã")
    case 20 => PlainText(MT, MB, "ä", "Ä")
    case 21 => PlainText(MT, RB, "æ", "Æ")

    // Belarusian and Ukrainian letters
    case 22 => PlainText(RT, MT, "ї", "Ї")
    case 23 => PlainText(RT, RT, "і", "І")
    case 24 => PlainText(RT, MC, "є", "Є")
    case 25 => PlainText(RT, MB, "ў", "Ў")
    case 26 => PlainText(RT, RB, "ґ", "Ґ")

    case 27 => PlainText(LB, LT, "ù", "Ù")
    case 28 => PlainText(LB, MT, "û", "Û")
    case 29 => PlainText(LB, RT, "§", "§")
    case 30 => PlainText(LB, LB, "ü", "Ü")
    case 31 => PlainText(LB, MB, "ú", "Ú")

    case 32 => PlainText(MB, LT, "õ", "Õ")
    case 33 => PlainText(MB, MT, "ö", "Ö")
    case 34 => PlainText(MB, RT, "œ", "Œ")
    case 35 => PlainText(MB, MC, "ø", "Ø")
    case 36 => PlainText(MB, LB, "ò", "Ò")
    case 37 => PlainText(MB, MB, "ô", "Ô")
    case 38 => PlainText(MB, RB, "ó", "Ó")

    // Esperanto letters
    case 39 => PlainText(RB, MT, "ĝ", "Ĝ")
    case 40 => PlainText(RB, RT, "ĥ", "Ĥ")
    case 41 => PlainText(RB, MC, "ŝ", "Ŝ")
    case 42 => PlainText(RB, LB, "ĵ", "Ĵ")
    case 43 => PlainText(RB, MB, "ŭ", "Ŭ")
    case 44 => PlainText(RB, RB, "ĉ", "Ĉ")
  }

  /** The builder calls as one list, in the order the layout makes them. */
  function Strokes(): (regs: seq<Registration>)
    ensures |regs| == StrokeCount
    ensures forall i | 0 <= i < StrokeCount :: regs[i] == StrokeAt(i)
  {
    seq(StrokeCount, i requires 0 <= i < StrokeCount => StrokeAt(i))
  }

  /** The diacritic layout: a secondary layout named "diacritic". */
  function DiacriticLayout(): (l: Layout)
    ensures l.name == "diacritic"
    ensures l.title == "Diacritic Symbols"
    ensures l.labelPrimary == "êґå"
    ensures l.kind == SecondaryChar
    ensures l.table == Build(Empty(), Strokes())
  {
    Layout("diacritic", "Diacritic Symbols", "êґå", SecondaryChar, Build(Empty(), Strokes()))
  }

  /**
   * Where each stroke code (start * 16 + end) sits in the list, or -1 for a
   * stroke the layout leaves empty. A proof device: it witnesses that no
   * stroke is registered twice.
   */
  ghost function Position(code: int): int
  {
    match code
    case 42 => 0  // (MT, OT)
    case 1 => 1  // (MC, LT)
    case 2 => 2  // (MC, MT)
    case 3 => 3  // (MC, RT)
    case 0 => 4  // (MC, MC)
    case 4 => 5  // (MC, LB)
    case 5 => 6  // (MC, MB)
    case 6 => 7  // (MC, RB)
    case 17 => 8  // (LT, LT)
    case 18 => 9  // (LT, MT)
    case 19 => 10  // (LT, RT)
    case 16 => 11  // (LT, MC)
    case 20 => 12  // (LT, LB)
    case 21 => 13  // (LT, MB)
    case 22 => 14  // (LT, RB)
    case 33 => 15  // (MT, LT)
    case 34 => 16  // (MT, MT)
    case 35 => 17  // (MT, RT)
    case 32 => 18  // (MT, MC)
    case 36 => 19  // (MT, LB)
    case 37 => 20  // (MT, MB)
    case 38 => 21  // (MT, RB)
    case 50 => 22  // (RT, MT)
    case 51 => 23  // (RT, RT)
    case 48 => 24  // (RT, MC)
    case 53 => 25  // (RT, MB)
    case 54 => 26  // (RT, RB)
    case 65 => 27  // (LB, LT)
    case 66 => 28  // (LB, MT)
    case 67 => 29  // (LB, RT)
    case 68 => 30  // (LB, LB)
    case 69 => 31  // (LB, MB)
    case 81 => 32  // (MB, LT)
    case 82 => 33  // (MB, MT)
    case 83 => 34  // (MB, RT)
    case 80 => 35  // (MB, MC)
    case 84 => 36  // (MB, LB)
    case 85 => 37  // (MB, MB)
    case 86 => 38  // (MB, RB)
    case 98 => 39  // (RB, MT)
    case 99 => 40  // (RB, RT)
    case 96 => 41  // (RB, MC)
    case 100 => 42  // (RB, LB)
    case 101 => 43  // (RB, MB)
    case 102 => 44  // (RB, RB)
    case _ => -1
  }

  /** Position inverts the list: the stroke of entry i sits at position i. */
  lemma PositionInvertsStrokes()
    ensures forall i | 0 <= i < StrokeCount :: Position(StrokeCode(StrokeAt(i))) == i
  {
    forall i | 0 <= i < StrokeCount
      ensures Position(StrokeCode(StrokeAt(i))) == i
    {
      match i
        case 0 =>
        case 1 =>
        case 2 =>
        case 3 =>
        case 4 =>
        case 5 =>
        case 6 =>
        case 7 =>
        case 8 =>
        case 9 =>
        case 10 =>
        case 11 =>
        case 12 =>
        case 13 =>
        case 14 =>
        case 15 =>
        case 16 =>
        case 17 =>
        case 18 =>
        case 19 =>
        case 20 =>
        case 21 =>
        case 22 =>
        case 23 =>
        case 24 =>
        case 25 =>
        case 26 =>
        case 27 =>
        case 28 =>
        case 29 =>
        case 30 =>
        case 31 =>
        case 32 =>
        case 33 =>
        case 34 =>
        case 35 =>
        case 36 =>
        case 37 =>
        case 38 =>
        case 39 =>
        case 40 =>
        case 41 =>
        case 42 =>
        case 43 =>
        case 44 =>
    }
  }

  /** No stroke of the layout is registered twice. */
  lemma StrokesAreUnique()
    ensures UniqueStrokes(Strokes())
  {
    PositionInvertsStrokes();
    IndexedStrokesAreUnique(Strokes(), Position);
  }

  /** Every builder call of the layout is exactly what lookup returns for its stroke, in both rows. */
  lemma EveryStrokeReadsBack(i: nat, row: Row)
    requires i < StrokeCount
    ensures GetKey(DiacriticLayout().table, row, StrokeAt(i).start, StrokeAt(i).end)
         == Some(KeyFor(StrokeAt(i), row))
  {
    StrokesAreUnique();
    DeclaredStrokeLookup(Strokes(), i, row);
  }

  /** A stroke that none of the 45 builder calls names is empty in both rows. */
  lemma UnlistedStrokeIsEmpty(row: Row, start: Zone, end: Zone)
    requires forall i | 0 <= i < StrokeCount :: StrokeAt(i).start != start || StrokeAt(i).end != end
    ensures GetKey(DiacriticLayout().table, row, start, end) == None
  {
    UndeclaredStrokeEmpty(Strokes(), row, start, end);
  }

  /** (MC, LT) types "ç" without shift and "Ç" with it. */
  lemma CedillaStroke()
    ensures GetKey(DiacriticLayout().table, Down, MC, LT) == Some(Key(Text("ç"), Caption("ç")))
    ensures GetKey(DiacriticLayout().table, Up, MC, LT) == Some(Key(Text("Ç"), Caption("Ç")))
  {
    assert StrokeAt(1) == PlainText(MC, LT, "ç", "Ç");
    EveryStrokeReadsBack(1, Down);
    EveryStrokeReadsBack(1, Up);
  }

  /** (MC, MC) types "ß" and "S", labelled "ß" and "ss": in the Up row the label is not the typed text. */
  lemma SharpSStroke()
    ensures GetKey(DiacriticLayout().table, Down, MC, MC) == Some(Key(Text("ß"), Caption("ß")))
    ensures GetKey(DiacriticLayout().table, Up, MC, MC) == Some(Key(Text("S"), Caption("ss")))
  {
    assert StrokeAt(4) == TextStroke(MC, MC, "ß", "S", Caption("ß"), Caption("ss"));
    EveryStrokeReadsBack(4, Down);
    EveryStrokeReadsBack(4, Up);
  }

  /** (MT, OT) switches back to the primary layout in both rows. */
  lemma BackToPrimaryStroke(row: Row)
    ensures GetAction(DiacriticLayout().table, row, MT, OT) == Some(ChangeLayout(LayoutBackToPrimary))
  {
    assert StrokeAt(0) == LayoutStroke(MT, OT, LayoutBackToPrimary, Unspecified);
    EveryStrokeReadsBack(0, row);
  }

  /** (LT, LT) sends the left shift key code in both rows. */
  lemma ShiftStroke(row: Row)
    ensures GetAction(DiacriticLayout().table, row, LT, LT) == Some(Code(KeycodeShiftLeft))
  {
    assert StrokeAt(8) == CodeStroke(LT, LT, KeycodeShiftLeft, Unspecified, Unspecified);
    EveryStrokeReadsBack(8, row);
  }

  /** (LB, RT) types "§" whatever the shift row. */
  lemma SectionStroke(row: Row)
    ensures GetAction(DiacriticLayout().table, row, LB, RT) == Some(Text("§"))
  {
    assert StrokeAt(29) == PlainText(LB, RT, "§", "§");
    EveryStrokeReadsBack(29, row);
  }

  /** The strokes the layout leaves commented out are empty in both rows. */
  lemma CommentedOutStrokesAreEmpty(row: Row, start: Zone, end: Zone)
    requires (start, end) in {(RT, OT), (RB, OT), (RT, LT), (RT, LB), (LB, MC), (LB, RB), (RB, LT)}
    ensures GetKey(DiacriticLayout().table, row, start, end) == None
  {
    PositionInvertsStrokes();
    IndexedStrokesDeclareOnlyIndexed(Strokes(), Position, start, end);
    UnlistedStrokeIsEmpty(row, start, end);
  }
}
