/**
 * The input method's dispatcher and shift-state machine (StrokeIME.java).
 *
 * A session holds the current layout and the shift state. A resolved stroke
 * is looked up in the current layout and its action is dispatched: text is
 * committed, a key code is sent as a key press and release, a layout switch
 * replaces the layout. The host's text field is modelled as the list of
 * emissions a step produces; the view refresh as a flag.
 */
module StrokeIme {
  import opened Results
  import opened Zones
  import opened Keys
  import opened Layouts
  import opened Banks

  /** The shift key's cycle (processShift): Off to On, On to Lock, Lock to Off. */
  function NextShift(s: ShiftState): (t: ShiftState)
    ensures t != s
    ensures s == Off ==> t == On
    ensures s == On ==> t == Lock
    ensures s == Lock ==> t == Off
  {
    match s
    case Off => On
    case On => Lock
    case Lock => Off
  }

  /** Pressing shift three times comes back to where it started, and not sooner. */
  lemma ShiftCycleHasPeriodThree(s: ShiftState)
    ensures NextShift(NextShift(NextShift(s))) == s
    ensures NextShift(NextShift(s)) != s
  {
  }

  /**
   * The release that follows a text action or a non-shift key code: a
   * one-shot On drops to Off, while Off and Lock stay as they are.
   */
  function ReleaseOneShot(s: ShiftState): (t: ShiftState)
    ensures t != On
    ensures s == On ==> t == Off
    ensures s != On ==> t == s
  {
    if s == On then Off else s
  }

  /**
   * The two key codes that the input method handles as its own shift key.
   * KEYCODE_A is not one of them, so the shift check and the theme-switch
   * case of the dispatcher never compete for a code.
   */
  function IsShiftKey(code: int): (b: bool)
    ensures b <==> code in {KeycodeShiftLeft, KeycodeShiftRight}
    ensures b ==> code != KeycodeA
  {
    code == KeycodeShiftLeft || code == KeycodeShiftRight
  }

  /** The input method's state: the current layout and the shift state. */
  datatype Session = Session(layout: Layout, shift: ShiftState)

  /** What the host's input connection receives. */
  datatype Emission =
    | CommitText(text: string)
    | KeyDown(code: int)
    | KeyUp(code: int)

  /**
   * The outcome of one input: the new session, what was sent to the host in
   * order, and whether the view was told to redraw.
   */
  datatype Reaction = Reaction(session: Session, emitted: seq<Emission>, refreshed: bool)

  /** The session after creation: the bank's default layout, shift off. */
  function Start(bank: Bank): (s: Session)
    ensures s.shift == Off
    ensures Owns(bank, s.layout)
    ensures s.layout == bank.defaultLayout
  {
    Session(bank.defaultLayout, Off)
  }

  /**
   * Dispatch one resolved action (onInput). None is a stroke with no action.
   * The only failure is a switch to a layout the bank does not hold.
   */
  function OnInput(bank: Bank, s: Session, action: Option<Action>): (r: Result<Reaction, LayoutError>)
    ensures r.Failure? <==> action.Some? && action.value.ChangeLayout? && action.value.target !in bank.layouts
    ensures r.Failure? ==> r.error == UnknownLayout(action.value.target)
    ensures r.Success? && r.value.session != s ==> r.value.refreshed
    ensures r.Success? && Owns(bank, s.layout) ==> Owns(bank, r.value.session.layout)
    ensures r.Success? && !(action.Some? && action.value.ChangeLayout?) ==> r.value.session.layout == s.layout
  {
    match action
    case None => Success(Reaction(s, [], false))
    case Some(Text(value)) =>
      Success(Reaction(s.(shift := ReleaseOneShot(s.shift)), [CommitText(value)], s.shift == On))
    case Some(Code(code)) =>
      if IsShiftKey(code) then
        Success(Reaction(s.(shift := NextShift(s.shift)), [], true))
      else
        // KEYCODE_A switches the colour theme instead of reaching the host.
        var sent := if code == KeycodeA then [] else [KeyDown(code), KeyUp(code)];
        Success(Reaction(s.(shift := ReleaseOneShot(s.shift)), sent, s.shift == On))
    case Some(ChangeLayout(name)) =>
      match GetLayout(bank, name)
      case Failure(e) => Failure(e)
      case Success(layout) => Success(Reaction(Session(layout, Off), [], true))
  }

  /** A stroke from start to end: look up the action in the row the shift state selects, then dispatch it. */
  function HandleStroke(bank: Bank, s: Session, start: Zone, end: Zone): (r: Result<Reaction, LayoutError>)
    ensures GetKey(s.layout.table, ShiftRow(s.shift), start, end).None? ==> r == Success(Reaction(s, [], false))
    ensures forall v, legend ::
              GetKey(s.layout.table, ShiftRow(s.shift), start, end) == Some(Key(Text(v), legend))
              ==> r.Success? && r.value.emitted == [CommitText(v)]
  {
    OnInput(bank, s, GetAction(s.layout.table, ShiftRow(s.shift), start, end))
  }

  /**
   * A run of strokes, one after the other; stops at the first failure.
   * On success, the final session and everything sent to the host.
   */
  function Run(bank: Bank, s: Session, strokes: seq<(Zone, Zone)>): (r: Result<(Session, seq<Emission>), LayoutError>)
    ensures r.Success? && Owns(bank, s.layout) ==> Owns(bank, r.value.0.layout)
    ensures Closed(bank) && Owns(bank, s.layout) ==> r.Success?
    ensures |strokes| == 1 ==>
              (r.Success? <==> HandleStroke(bank, s, strokes[0].0, strokes[0].1).Success?)
              && (r.Success? ==> var step := HandleStroke(bank, s, strokes[0].0, strokes[0].1).value;
                                 r.value == (step.session, step.emitted))
    decreases |strokes|
  {
    if |strokes| == 0 then Success((s, []))
    else
      var (start, end) := strokes[0];
      match HandleStroke(bank, s, start, end)
      case Failure(e) => Failure(e)
      case Success(step) =>
        match Run(bank, step.session, strokes[1..])
        case Failure(e) => Failure(e)
        case Success((final, rest)) =>
          assert |strokes| == 1 ==> final == step.session && step.emitted + rest == step.emitted;
          Success((final, step.emitted + rest))
  }

  // Properties of one dispatch, one per kind of action.

  /** A stroke with no action changes nothing, sends nothing and redraws nothing. */
  lemma NoActionIsNoOp(bank: Bank, s: Session)
    ensures OnInput(bank, s, None) == Success(Reaction(s, [], false))
  {
  }

  /**
   * A text action commits its text exactly once; a one-shot On drops to Off,
   * Off and Lock stay, the layout stays.
   */
  lemma TextCommitsOnce(bank: Bank, s: Session, value: string)
    ensures var r := OnInput(bank, s, Some(Text(value)));
            && r.Success?
            && r.value.emitted == [CommitText(value)]
            && r.value.session.layout == s.layout
            && r.value.session.shift == (if s.shift == On then Off else s.shift)
  {
  }

  /** A shift key code only steps the shift cycle: nothing is sent and no release follows. */
  lemma ShiftKeyCycles(bank: Bank, s: Session, code: int)
    requires IsShiftKey(code)
    ensures OnInput(bank, s, Some(Code(code))) == Success(Reaction(s.(shift := NextShift(s.shift)), [], true))
  {
  }

  /**
   * Any other key code (the experimental KEYCODE_A aside) is sent as a press
   * then a release of that code, followed by the one-shot release.
   */
  lemma KeyCodePressRelease(bank: Bank, s: Session, code: int)
    requires !IsShiftKey(code) && code != KeycodeA
    ensures var r := OnInput(bank, s, Some(Code(code)));
            && r.Success?
            && r.value.emitted == [KeyDown(code), KeyUp(code)]
            && r.value.session.layout == s.layout
            && r.value.session.shift == ReleaseOneShot(s.shift)
  {
  }

  /** A switch to a registered layout installs it with shift off and sends nothing. */
  lemma LayoutSwitchResetsShift(bank: Bank, s: Session, name: string)
    requires name in bank.layouts
    ensures OnInput(bank, s, Some(ChangeLayout(name)))
         == Success(Reaction(Session(bank.layouts[name], Off), [], true))
  {
  }

  /** A switch to an unknown layout fails with the name, and the session is not replaced. */
  lemma UnknownLayoutFails(bank: Bank, s: Session, name: string)
    requires name !in bank.layouts
    ensures OnInput(bank, s, Some(ChangeLayout(name))) == Failure(UnknownLayout(name))
  {
  }

  /** One-shot shift: from On, any text or non-shift key code leaves shift Off; from Lock, it stays Lock. */
  lemma OneShotShift(bank: Bank, s: Session, a: Action)
    requires a.Text? || (a.Code? && !IsShiftKey(a.keyCode))
    ensures s.shift == On ==> OnInput(bank, s, Some(a)).value.session.shift == Off
    ensures s.shift == Lock ==> OnInput(bank, s, Some(a)).value.session.shift == Lock
  {
  }

  /** A stroke on a closed bank's layout never fails. */
  lemma ClosedBankNeverFails(bank: Bank, s: Session, start: Zone, end: Zone)
    requires Closed(bank) && Owns(bank, s.layout)
    ensures HandleStroke(bank, s, start, end).Success?
  {
  }
}
