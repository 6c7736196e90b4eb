/** Actions and keys: what a table cell holds (Action and Key in the source). */
module Keys {

  /**
   * What a stroke does: type a text, send a raw Android key code, or switch
   * to the layout with the given name.
   */
  datatype Action =
    | Text(value: string)
    | Code(keyCode: int)
    | ChangeLayout(target: string)

  /**
   * What the keyboard draws for a cell: a caption, a picture (an opaque
   * drawable id), or a label whose form is not known to the model.
   */
  datatype Label =
    | Caption(text: string)
    | Picture(drawable: int)
    | Unspecified

  /** A table cell: the action of a stroke together with its label (`legend`, since `label` is a Dafny keyword). */
  datatype Key = Key(action: Action, legend: Label)

  // Android key codes the model refers to (values of android.view.KeyEvent).
  const KeycodeA: int := 29
  const KeycodeShiftLeft: int := 59
  const KeycodeShiftRight: int := 60

  /**
   * Target name of the stroke that returns to the primary layout
   * (Action.LAYOUT_BACK_TO_PRIMARY). The Action class is not part of this
   * model, so the string is a stand-in: the model relies only on it being
   * one fixed name.
   */
  const LayoutBackToPrimary: string := "back_to_primary"
}
