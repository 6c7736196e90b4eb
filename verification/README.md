# StrokeIME stroke mapping, modelled in Dafny

StrokeIME is an Android input method. The user draws a short stroke from one
zone of a 3×3 grid (plus four "out" zones around it) to another. The current
layout's table maps each stroke to a key. The key's action is one of three
kinds:

- commit a text;
- send a raw key code;
- switch to another layout.

A three-state shift (off, one-shot on, lock) selects which of the table's two
rows is read. A one-shot shift drops back to off after one text or non-shift
key-code action.

The model covers three parts of the system.

- The stroke table and its builders (`Layout.java`): a map from
  (row, start, end) cells to keys. A missing cell plays the role of Java's
  null array entry.
- The input method's session and dispatcher (`StrokeIME.java`): the shift
  cycle, the one-shot release, and the dispatch of a resolved action. The
  host's input connection is modelled as the list of emissions a step
  produces. The view refresh is modelled as a flag.
- The diacritic layout (`layouts/LayoutDiacritic.java`), as the list of its
  45 builder calls in source order, replayed by a generic `Build`.

Facts about every layout are proved once over registration lists:

- the last call for a stroke wins;
- undeclared strokes stay empty.

They are then instantiated for the diacritic layout. Its 45 strokes are shown
distinct through an inverse index (`Diacritic.Position`).

Files:

- `results.dfy`: Option and Result.
- `zones.dfy`: the zone grid and the two rows.
- `keys.dfy`: actions, labels, keys and key-code constants.
- `layouts.dfy`: the table and its builders.
- `registrations.dfy`: builder calls as data and their replay.
- `diacritic.dfy`: the diacritic layout.
- `banks.dfy`: the layout registry, as far as the input method uses it.
- `stroke_ime.dfy`: session and dispatch.
- `scenario.dfy`: end-to-end strokes on the diacritic layout.

## Model

| member | source | states |
|---|---|---|
| Zones.NamedZones | src/org/me/strokeime/Layout.java:8-20 | The eleven named zones are distinct indices that fit in the 16-wide table. |
| Zones.Row.Index | src/org/me/strokeime/Layout.java:5-6 | The Down row is array index 0 and the Up row is index 1; no other index exists. |
| Layouts.ShiftRow | src/org/me/strokeime/Layout.java:5-6 | Exactly the Off shift state reads the Down row; On and Lock read the Up row. |
| Layouts.Empty | src/org/me/strokeime/Layout.java:37 | A fresh table has no key in any cell. |
| Layouts.GetKey | src/org/me/strokeime/Layout.java:42-44 | Lookup finds nothing exactly when the cell was never written (a null array entry); what it finds is a key the table stores. |
| Layouts.LookupDeterminesTable | src/org/me/strokeime/Layout.java:42-44 | Two tables that answer every lookup alike are the same table: the lookup loses nothing of the stored cells. |
| Layouts.GetAction | src/org/me/strokeime/Layout.java:49-52 | The action is absent exactly when the cell's key is absent; otherwise it is that key's action. |
| Layouts.PutStroke | src/org/me/strokeime/Layout.java:77-80 | A builder write sets both rows of the one stroke and leaves every other cell as it was. |
| Layouts.RegisterText | src/org/me/strokeime/Layout.java:77-95 | The text builder puts the lower text and label in Down and the upper text and label in Up, touching no other stroke. |
| Layouts.RegisterPlainText | src/org/me/strokeime/Layout.java:63-65 | The four-argument text builder labels each row with its own text. |
| Layouts.RegisterCode | src/org/me/strokeime/Layout.java:108-111 | The key-code builder puts the same code in both rows with a label per row, touching no other stroke. |
| Layouts.RegisterLayout | src/org/me/strokeime/Layout.java:122-137 | The layout-switch builder puts one identical key in both rows, touching no other stroke. |
| Layouts.PlainTextIsCaptionedText | src/org/me/strokeime/Layout.java:63-65 | The four-argument builder equals the six-argument one called with the texts as captions. |
| Layouts.TextActionsIgnoreLabels | src/org/me/strokeime/Layout.java:77-95 | Caption and drawable text builders give the same action, the row's text, whatever the labels. |
| Layouts.RewriteOverwrites | src/org/me/strokeime/Layout.java:77-80 | Registering a stroke twice leaves the same table as registering only the second time. |
| Registrations.Apply | src/org/me/strokeime/Layout.java:63-137 | One builder call puts its key in both rows of its stroke and changes nothing else. |
| Registrations.Build | src/org/me/strokeime/Layout.java:22-24 | Running a layout's builder calls, as its constructor does through `initialize`, leaves every stroke no call names as it was. |
| Registrations.BuildLookup | src/org/me/strokeime/layouts/LayoutDiacritic.java:18-78 | After replaying the calls, a cell holds what the last call for its stroke put there, or its old content if no call names it. |
| Registrations.LatestFindsDeclared | src/org/me/strokeime/layouts/LayoutDiacritic.java:18-78 | A last call for a stroke exists exactly when some call declares it, and it is a call for that stroke. |
| Registrations.LatestIsTheDeclaration | src/org/me/strokeime/layouts/LayoutDiacritic.java:18-78 | Without repeated strokes, the last call for a declared stroke is its only declaration. |
| Registrations.DeclaredStrokeLookup | src/org/me/strokeime/layouts/LayoutDiacritic.java:18-78 | Without repeated strokes, every declared stroke reads back the key its call registered, in both rows. |
| Registrations.UndeclaredStrokeEmpty | src/org/me/strokeime/layouts/LayoutDiacritic.java:18-78 | A stroke that no call declares has no key in the built table. |
| Registrations.IndexedStrokesAreUnique | src/org/me/strokeime/layouts/LayoutDiacritic.java:18-78 | A list whose stroke codes an index function maps back to their positions has no repeated stroke. |
| Registrations.IndexedStrokesDeclareOnlyIndexed | src/org/me/strokeime/layouts/LayoutDiacritic.java:18-78 | Under such an index function, a stroke mapped to no position is not declared. |
| Diacritic.Strokes | src/org/me/strokeime/layouts/LayoutDiacritic.java:18-78 | The layout makes 45 builder calls, each entry being the call at that position in source order. |
| Diacritic.DiacriticLayout | src/org/me/strokeime/layouts/LayoutDiacritic.java:10-13 | The layout is named "diacritic", titled "Diacritic Symbols", shows "êґå" and is a secondary layout whose table is the replay of its calls. |
| Diacritic.PositionInvertsStrokes | src/org/me/strokeime/layouts/LayoutDiacritic.java:18-78 | Each call's stroke code maps back to that call's position. |
| Diacritic.StrokesAreUnique | src/org/me/strokeime/layouts/LayoutDiacritic.java:18-78 | No stroke of the diacritic layout is registered twice. |
| Diacritic.EveryStrokeReadsBack | src/org/me/strokeime/layouts/LayoutDiacritic.java:18-78 | Every call of the layout is what lookup returns for its stroke, in both rows. |
| Diacritic.UnlistedStrokeIsEmpty | src/org/me/strokeime/layouts/LayoutDiacritic.java:18-78 | Every stroke that none of the 45 builder calls names is empty in both rows. |
| Diacritic.CedillaStroke | src/org/me/strokeime/layouts/LayoutDiacritic.java:22 | (MC, LT) types "ç" in Down and "Ç" in Up, each labelled by its text. |
| Diacritic.SharpSStroke | src/org/me/strokeime/layouts/LayoutDiacritic.java:25 | (MC, MC) types "ß" in Down and "S" in Up, labelled "ß" and "ss". |
| Diacritic.BackToPrimaryStroke | src/org/me/strokeime/layouts/LayoutDiacritic.java:18 | (MT, OT) switches back to the primary layout in both rows. |
| Diacritic.ShiftStroke | src/org/me/strokeime/layouts/LayoutDiacritic.java:30 | (LT, LT) sends the left shift key code in both rows. |
| Diacritic.SectionStroke | src/org/me/strokeime/layouts/LayoutDiacritic.java:57 | (LB, RT) types "§" in both rows. |
| Diacritic.CommentedOutStrokesAreEmpty | src/org/me/strokeime/layouts/LayoutDiacritic.java:19-72 | The seven commented-out strokes have no key in either row. |
| Banks.GetLayout | src/org/me/strokeime/StrokeIME.java:169 | A lookup succeeds exactly for a registered name, with that layout; otherwise it fails naming the layout. |
| StrokeIme.NextShift | src/org/me/strokeime/StrokeIME.java:104-117 | The shift key turns Off into On, On into Lock and Lock into Off, so it always changes the shift state. |
| StrokeIme.ShiftCycleHasPeriodThree | src/org/me/strokeime/StrokeIME.java:104-117 | Three shift presses return to the start and two never do. |
| StrokeIme.ReleaseOneShot | src/org/me/strokeime/StrokeIME.java:136-139 | After a text or non-shift key code, a one-shot On becomes Off; Off and Lock are kept, so shift is never left On. |
| StrokeIme.IsShiftKey | src/org/me/strokeime/StrokeIME.java:143-144 | Exactly the left and right shift codes are the input method's shift key, and KEYCODE_A is not one of them, so the shift check and the theme-switch case never compete. |
| StrokeIme.Start | src/org/me/strokeime/StrokeIME.java:52-57 | A new session is on the bank's default layout with shift off. |
| StrokeIme.OnInput | src/org/me/strokeime/StrokeIME.java:123-174 | Dispatch fails exactly on a switch to an unknown layout, naming it. A changed session is always redrawn. An owned layout stays owned. Only a switch changes the layout. |
| StrokeIme.HandleStroke | src/org/me/strokeime/Layout.java:49-52 | An empty cell is a complete no-op; a text cell sends exactly its text once. |
| StrokeIme.Run | src/org/me/strokeime/StrokeIME.java:123-174 | A run of strokes keeps the session on owned layouts and never fails when the bank is closed under switches; a run of one stroke succeeds exactly when that stroke does, ending in its session with exactly its emissions. |
| StrokeIme.NoActionIsNoOp | src/org/me/strokeime/StrokeIME.java:129-130 | A stroke without an action changes nothing, sends nothing, redraws nothing. |
| StrokeIme.TextCommitsOnce | src/org/me/strokeime/StrokeIME.java:133-140 | A text action commits its text once, keeps the layout and drops one-shot shift to off. |
| StrokeIme.ShiftKeyCycles | src/org/me/strokeime/StrokeIME.java:143-147 | A shift key code steps the shift cycle, sends nothing and skips the one-shot release. |
| StrokeIme.KeyCodePressRelease | src/org/me/strokeime/StrokeIME.java:150-165 | Any other key code except KEYCODE_A is sent as a press then a release, then one-shot shift is released. |
| StrokeIme.LayoutSwitchResetsShift | src/org/me/strokeime/StrokeIME.java:167-172 | A switch to a registered layout installs it with shift off, sends nothing and redraws. |
| StrokeIme.UnknownLayoutFails | src/org/me/strokeime/StrokeIME.java:169 | A switch to a name the bank lacks fails with that name. |
| StrokeIme.OneShotShift | src/org/me/strokeime/StrokeIME.java:133-165 | From one-shot on, any text or non-shift code leaves shift off; from lock, shift stays locked. |
| StrokeIme.ClosedBankNeverFails | src/org/me/strokeime/StrokeIME.java:167-172 | On a bank closed under switches, no stroke on an owned layout fails. |
| DiacriticScenario.CedillaScenario | src/org/me/strokeime/layouts/LayoutDiacritic.java:22 | The cedilla stroke types "ç" with shift off, "Ç" with shift on (dropping to off) and "Ç" with shift locked (staying locked). |
| DiacriticScenario.ShiftStrokeScenario | src/org/me/strokeime/layouts/LayoutDiacritic.java:30 | The shift stroke steps the shift cycle and sends nothing, in every shift state. |
| DiacriticScenario.BackToPrimaryScenario | src/org/me/strokeime/layouts/LayoutDiacritic.java:18 | The back stroke installs the bank's back-to-primary layout with shift off, or fails naming it when the bank lacks it. |
| DiacriticScenario.SharpSScenario | src/org/me/strokeime/layouts/LayoutDiacritic.java:25 | The sharp-s stroke types "ß" with shift off and "S" with shift locked. |
| DiacriticScenario.SectionScenario | src/org/me/strokeime/layouts/LayoutDiacritic.java:57 | The section stroke types "§" in every shift state. |
| DiacriticScenario.CommentedOutScenario | src/org/me/strokeime/layouts/LayoutDiacritic.java:19-72 | A commented-out stroke changes nothing and sends nothing. |

## Left out

- Android lifecycle, the input view, touch geometry, colour themes (`onCreate` colour setup, `onCreateInputView`, `onInitializeInterface`, `onCreateCandidatesView`): platform UI code. The view refresh (`updateView`) is only the `refreshed` flag of a step.
- `commitText` and `sendKeyEvent`: host calls. They are modelled as the ordered list of emissions a step produces. The cursor-position argument of `commitText` (0) is not modelled: the list records what is sent, not where the host's cursor ends up.
- KEYCODE_A: the experimental theme switch is modelled only as "nothing is sent, and the one-shot release still happens". The colour change itself is left out. The code still applies the one-shot release after it (StrokeIME.java lines 151-154 and 162-165), and the model follows the code.
- `mCurrentLayoutDuration`: it is set in `onCreate` and never read by the code shown.
- `processBackspace`: its body is empty in the source.
- Glyph and drawable identifiers, and the key-code values other than KEYCODE_A and the two shift codes: these are opaque integers. The three glyph labels of the shift stroke's six-argument `c` call are modelled as unspecified labels. Likewise, the label-less `l` call is modelled with an unspecified label.
- The `t`, three-argument `l` and six-argument `c` builders, and `initializeLayout`, used by `LayoutDiacritic.java`: they are not in `Layout.java`. They are modelled as the `s`/`l`/`c` builders they evidently stand for.
- LayoutBank, Action, Key and InputEvent are defined outside the modelled files. Each is modelled only as far as the modelled files use it:
  - LayoutBank is `Banks.Bank`, a map from names to layouts plus a default layout. Special names such as back-to-primary are resolved as a plain lookup.
  - Action is `Keys.Action`, with one constructor per action type (text, key code, layout).
  - Key is `Keys.Key`, an action with a caption, picture or unspecified label.
  - InputEvent is reduced to its optional action, the `action` argument of `StrokeIme.OnInput`.
  - `Keys.LayoutBackToPrimary` is a stand-in string, because the value of `Action.LAYOUT_BACK_TO_PRIMARY` is defined outside the modelled files.
- Layouts.ShiftRow: which row each shift state reads is an assumption. The code that chooses the row is not modelled. The numeric values of the shift constants are not modelled.
- Out-of-range zones: the Java array would throw. The model's `Zone` type admits only 0–15, so such strokes cannot be expressed.
- `getName`, `getTitle`, `getLabelPrimary` and `getType` are fields of the `Layout` datatype.
- Other layouts of the repository are not modelled.
- StrokeIme.OnInput: a switch to a name the bank does not hold is a `Failure`. The Java code would dereference a missing layout (`LayoutBank.getLayout` is defined outside the modelled files); the model keeps the session unchanged and reports the name.
