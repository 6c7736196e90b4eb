/**
 * The registry of layouts (LayoutBank). Its source is not part of this
 * model; the model keeps what the input method relies on: a lookup by name
 * and a default layout.
 */
module Banks {
  import opened Results
  import opened Zones
  import opened Keys
  import opened Layouts

  /** Layouts by name, and the layout a session starts on. */
  datatype Bank = Bank(layouts: map<string, Layout>, defaultLayout: Layout)

  /** Naming a layout the bank does not hold. */
  datatype LayoutError = UnknownLayout(name: string)

  /** The layout registered under the name, or the error naming it. */
  function GetLayout(bank: Bank, name: string): (r: Result<Layout, LayoutError>)
    ensures r.Success? <==> name in bank.layouts
    ensures r.Success? ==> r.value == bank.layouts[name]
    ensures r.Failure? ==> r.error == UnknownLayout(name)
  {
    if name in bank.layouts then Success(bank.layouts[name]) else Failure(UnknownLayout(name))
  }

  /** The layout is one the bank owns: its default or a registered one. */
  ghost predicate Owns(bank: Bank, layout: Layout)
  {
    layout == bank.defaultLayout || layout in bank.layouts.Values
  }

  /**
   * Every layout-switch stroke of every layout the bank owns names a
   * registered layout: no switch can fail.
   */
  ghost predicate Closed(bank: Bank)
  {
    forall layout, row, start, end, name |
      Owns(bank, layout) && GetAction(layout.table, row, start, end) == Some(ChangeLayout(name))
      :: name in bank.layouts
  }
}
