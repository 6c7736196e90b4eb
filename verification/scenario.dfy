/** End-to-end behaviour of the input method on the diacritic layout. */
module DiacriticScenario {
  import opened Results
  import opened Zones
  import opened Keys
  import opened Layouts
  import opened Banks
  import opened StrokeIme
  import opened Diacritic

  /**
   * The cedilla stroke (MC, LT): with shift off it types "ç" and nothing
   * else changes; with shift on it types "Ç" and shift drops to off; with
   * shift locked it types "Ç" and shift stays locked.
   */
  lemma CedillaScenario(bank: Bank)
    ensures HandleStroke(bank, Session(DiacriticLayout(), Off), MC, LT)
         == Success(Reaction(Session(DiacriticLayout(), Off), [CommitText("ç")], false))
    ensures HandleStroke(bank, Session(DiacriticLayout(), On), MC, LT)
         == Success(Reaction(Session(DiacriticLayout(), Off), [CommitText("Ç")], true))
    ensures HandleStroke(bank, Session(DiacriticLayout(), Lock), MC, LT)
         == Success(Reaction(Session(DiacriticLayout(), Lock), [CommitText("Ç")], false))
  {
    CedillaStroke();
  }

  /** The shift stroke (LT, LT) steps the shift cycle and sends nothing, whatever the shift state. */
  lemma ShiftStrokeScenario(bank: Bank, shift: ShiftState)
    ensures HandleStroke(bank, Session(DiacriticLayout(), shift), LT, LT)
         == Success(Reaction(Session(DiacriticLayout(), NextShift(shift)), [], true))
  {
    ShiftStroke(ShiftRow(shift));
  }

  /**
   * The stroke (MT, OT) leaves the layout for the one the bank holds under
   * the back-to-primary name, with shift off; if the bank holds none, the
   * stroke fails with that name.
   */
  lemma BackToPrimaryScenario(bank: Bank, shift: ShiftState)
    ensures LayoutBackToPrimary in bank.layouts ==>
              HandleStroke(bank, Session(DiacriticLayout(), shift), MT, OT)
              == Success(Reaction(Session(bank.layouts[LayoutBackToPrimary], Off), [], true))
    ensures LayoutBackToPrimary !in bank.layouts ==>
              HandleStroke(bank, Session(DiacriticLayout(), shift), MT, OT)
              == Failure(UnknownLayout(LayoutBackToPrimary))
  {
    var s := Session(DiacriticLayout(), shift);
    BackToPrimaryStroke(ShiftRow(shift));
    assert HandleStroke(bank, s, MT, OT) == OnInput(bank, s, Some(ChangeLayout(LayoutBackToPrimary)));
    if LayoutBackToPrimary in bank.layouts {
      LayoutSwitchResetsShift(bank, s, LayoutBackToPrimary);
    } else {
      UnknownLayoutFails(bank, s, LayoutBackToPrimary);
    }
  }

  /** The sharp s stroke (MC, MC) types "ß" without shift and "S" with it, although its label reads "ss". */
  lemma SharpSScenario(bank: Bank)
    ensures HandleStroke(bank, Session(DiacriticLayout(), Off), MC, MC)
         == Success(Reaction(Session(DiacriticLayout(), Off), [CommitText("ß")], false))
    ensures HandleStroke(bank, Session(DiacriticLayout(), Lock), MC, MC)
         == Success(Reaction(Session(DiacriticLayout(), Lock), [CommitText("S")], false))
  {
    SharpSStroke();
  }

  /** The section stroke (LB, RT) types "§" in every shift state. */
  lemma SectionScenario(bank: Bank, shift: ShiftState)
    ensures HandleStroke(bank, Session(DiacriticLayout(), shift), LB, RT)
         == Success(Reaction(Session(DiacriticLayout(), ReleaseOneShot(shift)), [CommitText("§")], shift == On))
  {
    SectionStroke(ShiftRow(shift));
  }

  /** A commented-out stroke does nothing at all. */
  lemma CommentedOutScenario(bank: Bank, shift: ShiftState, start: Zone, end: Zone)
    requires (start, end) in {(RT, OT), (RB, OT), (RT, LT), (RT, LB), (LB, MC), (LB, RB), (RB, LT)}
    ensures HandleStroke(bank, Session(DiacriticLayout(), shift), start, end)
         == Success(Reaction(Session(DiacriticLayout(), shift), [], false))
  {
    CommentedOutStrokesAreEmpty(ShiftRow(shift), start, end);
  }
}
