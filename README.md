# JetTip: tip and split calculator

JetTip is a one-screen Android app (Kotlin, Jetpack Compose). The user types a
bill amount, picks a tip percentage with a slider and sets how many people share
the bill. The app shows the tip and the amount each person pays. All of its logic
is in `MainActivity.kt`:

- two pure functions, `calculateTip` and `calculateTotalPerPerson`;
- the state of the `BillForm` composable: the bill text, the persons counter and the
  slider position (inputs), and `tipAmount` and `totalPerPerson` (outputs), with the
  rules that update them.

This project models both parts in Dafny:

- `calculator.dfy` (module `Calculator`) holds the two calculations over exact
  reals, with their algebraic laws.
- `inputs.dfy` (module `Inputs`) covers how the form reads its inputs:
  - the slider position becomes an integer percentage through Kotlin's `Float.toInt`,
    which truncates toward zero and saturates at the bounds of `Int`;
  - the bill text is valid when Kotlin's `trim()` leaves something;
  - Kotlin's 32-bit `Int.inc()` wraps around.
- `form.dfy` (module `Form`) holds the form:
  - `State` is a value snapshot of the state cells. It also holds the tip percentage
    and the validity computed by the last composition. The click and slider handlers
    capture those two values when the UI is drawn.
  - Each handler and each composition is a pure function on `State`.
  - `Step` is one user event followed by the composition it triggers. `Run` applies a
    sequence of events.
  - The class `BillForm` has one field per state cell. Its methods change the fields in
    place, and each is proved to equal its pure function on `Snapshot()`.

The central invariant is `Settled`:

- the counter is at least 1;
- the captured percentage and validity match the current slider and text;
- when the bill is valid, both outputs equal the calculations on the current bill,
  counter and percentage.

Every composition establishes `Settled`, and every state reachable from the initial form
is settled. The form does not keep `Settled` between a handler and the composition after
it. The slider handler computes the tip, stores the new position and then computes the
share. Both computations use the percentage captured by the previous composition
(line 108), so right after the handler the outputs still reflect the old percentage. The
composition that follows corrects them. `SliderOutputsLagOneComposition` states this.

Two behaviours of the code are worth noting:

- Clearing the bill does not clear the header. `TopHeader(totalPerPerson)` (line 118)
  is drawn outside the validity check, so it keeps the last share
  (`ClearedBillKeepsLastShare`, `Display`). Only the split, tip and slider rows
  disappear.
- `validState` checks only that the trimmed text is non-empty (lines 115-117). A
  non-numeric text counts as valid; see the parsing line under Left out.

## Model

| member | source | states |
|---|---|---|
| Calculator.CalculateTip | app/src/main/java/com/peter/jettip/MainActivity.kt:228-230 | the tip is 0 at 0% or on a zero bill, equals the bill at 100%, and for a non-negative bill and a percentage in 0..100 lies between 0 and the bill |
| Calculator.CalculateTotalPerPerson | app/src/main/java/com/peter/jettip/MainActivity.kt:232-233 | for a non-negative bill and percentage and at least one person, each share lies between 0 and the bill plus its tip |
| Calculator.ZeroPercentIsNoTip | app/src/main/java/com/peter/jettip/MainActivity.kt:228-230 | a 0% tip is 0 for every bill |
| Calculator.TipIsLinearInBill | app/src/main/java/com/peter/jettip/MainActivity.kt:228-230 | scaling the bill by k scales the tip by k |
| Calculator.TipIsAdditiveInBill | app/src/main/java/com/peter/jettip/MainActivity.kt:228-230 | the tip on the sum of two bills is the sum of their tips |
| Calculator.TipIsAdditiveInPercentage | app/src/main/java/com/peter/jettip/MainActivity.kt:228-230 | the tip at p1 + p2 percent is the tip at p1 plus the tip at p2 |
| Calculator.TipIsMonotoneInPercentage | app/src/main/java/com/peter/jettip/MainActivity.kt:228-230 | on a non-negative bill a larger percentage never gives a smaller tip, and on a positive bill it gives a strictly larger one |
| Calculator.NoSplitForOnePerson | app/src/main/java/com/peter/jettip/MainActivity.kt:232-233 | one person pays the whole bill plus tip |
| Calculator.SharesAddUpToTotal | app/src/main/java/com/peter/jettip/MainActivity.kt:232-233 | for any non-zero party size, share times party size is exactly the bill plus its tip |
| Calculator.ShareIsMonotoneInPercentage | app/src/main/java/com/peter/jettip/MainActivity.kt:228-233 | with bill and party fixed, a larger percentage never lowers the share, and raises it strictly on a positive bill |
| Calculator.ShareShrinksWithLargerParty | app/src/main/java/com/peter/jettip/MainActivity.kt:232-233 | with a non-negative bill and percentage, a larger party never pays a larger share each |
| Calculator.WorkedExamples | app/src/main/java/com/peter/jettip/MainActivity.kt:228-233 | 100 at 10% for one: tip 10, share 110; 150 at 20% for three: tip 30, share 60; 0 at 50% for two: 0 and 0 |
| Inputs.TruncateTowardZero | app/src/main/java/com/peter/jettip/MainActivity.kt:108 | the result is the integer part of the argument with its sign: the largest integer not above it for non-negative arguments, the smallest not below it for negative ones |
| Inputs.FloatToInt | app/src/main/java/com/peter/jettip/MainActivity.kt:108 | Float.toInt lies in the Int range, truncates toward zero inside it and saturates at IntMax and IntMin outside it |
| Inputs.TipPercentage | app/src/main/java/com/peter/jettip/MainActivity.kt:108 | for a slider position in [0, 1] the percentage is the whole number of percent not above 100 times the position, lies in 0..100, and is 100 only at position 1 |
| Inputs.TipPercentageIsMonotone | app/src/main/java/com/peter/jettip/MainActivity.kt:108 | moving the slider right never lowers the percentage |
| Inputs.TruncationNotRounding | app/src/main/java/com/peter/jettip/MainActivity.kt:108 | position 0.995 gives 99, not 100; 0, 0.5 and 1 give 0, 50 and 100 |
| Inputs.TrimStart | app/src/main/java/com/peter/jettip/MainActivity.kt:116 | what remains after dropping leading whitespace is no longer than the text and is empty or starts with a non-whitespace character |
| Inputs.TrimEnd | app/src/main/java/com/peter/jettip/MainActivity.kt:116 | what remains after dropping trailing whitespace is no longer than the text and is empty or ends with a non-whitespace character |
| Inputs.WhitespaceSet | app/src/main/java/com/peter/jettip/MainActivity.kt:116 | Char.isWhitespace: digits, '.', ',' and '-' are not whitespace; space, tab, line feed, carriage return, no-break, figure and ideographic spaces are; zero-width space and the byte-order mark are not |
| Inputs.Trim | app/src/main/java/com/peter/jettip/MainActivity.kt:116 | trim never lengthens the text, and what it leaves is empty or starts and ends with a non-whitespace character (with TrimKeepsInnerText: it is the text minus its leading and trailing whitespace) |
| Inputs.TrimStartDropsWhitespace | app/src/main/java/com/peter/jettip/MainActivity.kt:116 | TrimStart keeps a suffix of the text and everything it drops is whitespace |
| Inputs.TrimEndDropsWhitespace | app/src/main/java/com/peter/jettip/MainActivity.kt:116 | TrimEnd keeps a prefix of the text and everything it drops is whitespace |
| Inputs.TrimKeepsInnerText | app/src/main/java/com/peter/jettip/MainActivity.kt:116 | trim returns a contiguous slice of the text, and all the text before and after that slice is whitespace |
| Inputs.TrimIsIdempotent | app/src/main/java/com/peter/jettip/MainActivity.kt:116 | trimming twice is trimming once |
| Inputs.ValidBillHasNonWhitespace | app/src/main/java/com/peter/jettip/MainActivity.kt:115-117 | validState holds exactly when some character of the bill text is not whitespace |
| Inputs.KotlinInc | app/src/main/java/com/peter/jettip/MainActivity.kt:179 | Int.inc stays in the Int range and adds one below IntMax, and wraps to IntMin at IntMax |
| Inputs.IncrementAtIntMaxBreaksFloor | app/src/main/java/com/peter/jettip/MainActivity.kt:179 | one increment at IntMax leaves the 32-bit counter below 1 |
| Form.Initial | app/src/main/java/com/peter/jettip/MainActivity.kt:105-117 | the form starts with an empty bill text and value 0, one person, the slider at 0, both outputs 0, percentage 0 and an invalid bill, and is settled |
| Form.Compose | app/src/main/java/com/peter/jettip/MainActivity.kt:108-149 | a composition leaves the inputs alone and ends settled; on an invalid bill it keeps both previous outputs |
| Form.OnMinus | app/src/main/java/com/peter/jettip/MainActivity.kt:163-171 | the counter drops by one above 1 and stays at 1; the share is recomputed with the new counter; nothing else changes; consistency is kept |
| Form.OnPlus | app/src/main/java/com/peter/jettip/MainActivity.kt:178-185 | the counter rises by exactly one; the share is recomputed with the new counter; nothing else changes; consistency is kept |
| Form.OnSlider | app/src/main/java/com/peter/jettip/MainActivity.kt:208-217 | the new position is stored; the tip (on a valid bill) and the share are recomputed with the previously captured percentage; nothing else changes; consistency is kept |
| Form.Step | app/src/main/java/com/peter/jettip/MainActivity.kt:143-221 | after any event and its composition the form is settled; an edit stores its text and value, and nothing else changes them; a slide stores its position only while the slider is shown; plus and minus change the counter (plus by one, minus by one above 1) only while the buttons are shown, and no other event changes it |
| Form.Run | app/src/main/java/com/peter/jettip/MainActivity.kt:104-221 | under any sequence of events the counter never drops below 1, and the form is settled after each event |
| Form.ReachableStatesAreSettled | app/src/main/java/com/peter/jettip/MainActivity.kt:104-149 | every state reachable from the initial form is settled, with the counter at least 1 |
| Form.ComposeIsIdempotent | app/src/main/java/com/peter/jettip/MainActivity.kt:108-149 | composing a settled form changes nothing; composing twice is composing once |
| Form.ButtonStepIsHandler | app/src/main/java/com/peter/jettip/MainActivity.kt:143-185 | on a settled form with a valid bill, a button press followed by its composition equals what the handler computed |
| Form.MinusUndoesPlus | app/src/main/java/com/peter/jettip/MainActivity.kt:163-185 | from a settled form, plus then minus gives back exactly the same form |
| Form.MinusAtOneChangesNothing | app/src/main/java/com/peter/jettip/MainActivity.kt:163-171 | pressing minus at 1 leaves a settled form unchanged |
| Form.SliderOutputsLagOneComposition | app/src/main/java/com/peter/jettip/MainActivity.kt:208-217 | right after the slider handler the outputs are those of the old percentage; after the next composition they are those of the new position |
| Form.SliderLagExample | app/src/main/java/com/peter/jettip/MainActivity.kt:208-217 | with bill 100 and the slider moved from 0 to 0.5 (a model input; the widget would snap to a tick at k/11), the handler leaves the tip at 0; the next composition shows 50 |
| Form.ClearedBillKeepsLastShare | app/src/main/java/com/peter/jettip/MainActivity.kt:115-149 | clearing the bill makes the form invalid and keeps the last tip and share unchanged |
| Form.Display | app/src/main/java/com/peter/jettip/MainActivity.kt:118-221 | the header always shows the stored share; the counter, tip and percentage are shown exactly when the last composition saw a valid bill; on a settled form with a valid bill the screen is the share, party size, tip and percentage computed from the current bill, counter and slider |
| Form.SplitThreeWays | app/src/main/java/com/peter/jettip/MainActivity.kt:143-185 | entering 150, sliding to 0.2 (a model input; the widget would snap to a tick at k/11) and pressing plus twice shows a share of 60, three persons, a tip of 30 and 20% |
| Form.BillForm.constructor | app/src/main/java/com/peter/jettip/MainActivity.kt:105-117 | the new form's fields equal the initial state |
| Form.BillForm.Recompose | app/src/main/java/com/peter/jettip/MainActivity.kt:143-149 | the fields after the composition are Compose of the fields before, and they are settled |
| Form.BillForm.EditBill | app/src/main/java/com/peter/jettip/components/Components.kt:38 | only the bill text and its value change |
| Form.BillForm.Decrement | app/src/main/java/com/peter/jettip/MainActivity.kt:163-171 | the fields after the click are OnMinus of the fields before, and the counter floor holds |
| Form.BillForm.Increment | app/src/main/java/com/peter/jettip/MainActivity.kt:178-185 | the fields after the click are OnPlus of the fields before, and the counter floor holds |
| Form.BillForm.SetSlider | app/src/main/java/com/peter/jettip/MainActivity.kt:208-217 | the fields after the slide are OnSlider of the fields before, with the new position |
| Form.BillForm.KeyboardAction | app/src/main/java/com/peter/jettip/MainActivity.kt:137-140 | nothing is reported on an invalid bill; otherwise the trimmed text is reported, and on a settled form it is non-empty with non-whitespace ends |

## Findings

| source | as written | input that shows it | evidently intended | confidence | as-written member | corrected member |
|---|---|---|---|---|---|---|
| app/src/main/java/com/peter/jettip/MainActivity.kt:179 | `personsCounter.value.inc()` on a 32-bit `Int` wraps from 2147483647 to -2147483648, and then minus never fires (`> 1` is false) while the share is divided by a negative count | the counter at 2147483647 (that many presses of plus), then one more press | each press adds one and the counter stays at least 1 | not executed; needs over two billion presses | Inputs.IncrementAtIntMaxBreaksFloor | Form.OnPlus |

## Left out

- The Compose UI is not modelled: layout, `MainActivity.onCreate`, `DefaultPreview`, `MyApp`, styling, and the widgets in `components/Components.kt`. `NumericInputField` and `RoundIconButton` only forward to Material widgets. Only the text field's change handler (`Components.kt:38`) is modelled, as `BillForm.EditBill`.
- Display formatting is not modelled: `"%.2f".format` and the `$` prefix are presentation. `Display` gives the numbers shown.
- The logging callback is not modelled: `onValChanged` only calls `Log.i`, which is I/O. `BillForm.KeyboardAction` returns the text that would be logged.
- Double and Float rounding are not modelled: amounts and the slider position are exact reals. This includes the Float product `sliderPosition * 100` before truncation.
- String-to-number parsing is not modelled: `toDouble()` belongs to the Kotlin library. The caller supplies the parsed value together with the text (`BillEdited`, `BillForm.EditBill`). A non-empty text that is not a number would throw a `NumberFormatException` at line 144; the model does not capture this.
- Calculator.CalculateTotalPerPerson: requires a non-zero party size. With 0, Double division gives Infinity or NaN, which reals cannot express. In the model the counter never reaches 0 (`Run`). The app's 32-bit counter can: after the wrap-around in Findings, further presses of plus bring it up to 0, and lines 166-170 and 180-184 then divide by zero.
- Recomposition scheduling is not modelled: Compose runs a composition after each state change. The model runs exactly one composition after each event. `remember(billState.value)` is modelled as recomputing the validity at every composition, which gives the same value.
- The Material slider's own behaviour is not modelled: clamping to [0, 1] and snapping to `steps = 10` (ticks at k/11, so resting percentages 0, 9, 18, ..., 90, 100) are done by the widget. The handler accepts any real position.
- Hidden controls are not modelled as clickable: the buttons and the slider exist only when the last composition saw a valid bill, so `Step` does not deliver their events otherwise. The pure handlers themselves are modelled as written, without that check.
- Inputs.IsWhitespace: follows Kotlin's `Char.isWhitespace` with current Unicode. U+180E, a space separator in older Unicode versions, is not included.
- Form.OnPlus and Form.BillForm.Increment: use an unbounded counter, not the 32-bit wrap-around of `Int.inc()` (see Findings).
