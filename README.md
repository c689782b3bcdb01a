# Calculator engines of Week4/Calculator/script.js, in Dafny

`Week4/Calculator/script.js` is a browser calculator. Under its DOM and
event code it holds two calculator engines that overlap. This project models both
as they are written, and proves properties of each.

- **ActionCalculator** (`action_calculator.dfy`): the engine of lines 5-195.
  Its state is four module-level variables: `currentValue` (the display
  text), `previousValue`, `currentOperator` and `shouldReset`. Its operators
  are named by action ("add", "divide", ...). They are looked up in the
  `operations` table, which reports a zero divisor for divide and modulo as NaN.
  `calculate` turns NaN and infinite results into the `Error` state, and only
  a digit, a point, clear or clear entry leave that state.
- **SymbolCalculator** (`symbol_calculator.dfy`): the engine of lines
  218-442. Its state is the `state` record, which also holds the memory register
  and the history list. The history is most recent first and at most ten long. Its
  operators are raw symbols ("+", "-", "*", "/", "^", "%"). It has no Error
  state:
  - dividing by zero shows 0;
  - a remainder by zero shows NaN;
  - `percent` has no guard;
  - `appendNumber` appends a point without checking for an earlier one, so on
    a display of "0" a point replaces the 0.
- **JsNumber** (`js_number.dfy`): JavaScript numbers. A finite number is an
  exact real. NaN and the two infinities follow the rules of `+`, `-`, `*`,
  `/` and `%`. `formatResult`'s rounding to ten places is defined exactly.
  `parseFloat`, `toString` and `Math.pow` are fields of a `FloatLib` value that
  every engine takes as a parameter. The model says nothing about them beyond
  what a lemma states in its `requires`.
- **DisplayText** (`display_text.dfy`) and **Wrappers** (`wrappers.dfy`):
  helpers. They count decimal points and leading zeros, and give `Option`, whose
  `None` plays the part of JavaScript's `null`.

Each engine is modelled twice:
- as a value `State`, with one pure transition function per handler. Lemmas about
  these functions state the properties.
- as a class `Calculator` whose fields are the source's variables. Its methods
  change those fields in place, statement by statement as the handlers do. Each
  method is proved to leave `Snapshot()` equal to the matching transition of
  the old state.

The file declares `setOperator`, `calculate` and `updateDisplay` twice. In a
browser the later declarations replace the earlier ones. Each engine here is
modelled against its own declarations, so ActionCalculator describes lines
5-195 as written.

Some behaviours of the code are easy to mistake for others. The model
keeps each of them as written:
- `evaluate` of lines 127-143 records no history entry; only the second
  engine's `calculate` does.
- `memoryAdd` and `memorySubtract` set `shouldReset`, as `memoryRecall` does.
- The second engine shows 0 on a division by zero rather than an error.
- `applyPercent` (lines 182-195) turns an unparsable display into "0", and
  on a number it also clears `shouldReset`.

Lines 33, 35 and 37 of `getOperatorSymbol` read 'âˆ’', 'Ã—' and 'Ã·': the
minus, times and division signs, garbled by a wrong re-encoding. The model
returns the intended U+2212, U+00D7 and U+00F7.

## Model

| member | source | states |
|---|---|---|
| JsNumber.Round10 | Week4/Calculator/script.js:110 | `Math.round(x * 1e10) / 1e10`. A finite value moves by at most half of 1e-10 and becomes a whole multiple of 1e-10. NaN and the infinities are kept. |
| JsNumber.FormatResult | Week4/Calculator/script.js:106-112 | A number prints as `toString` of its rounding to ten places; NaN and the infinities print as `toString` prints them. |
| JsNumber.FormatResultExact | Week4/Calculator/script.js:106-112 | Every number with at most ten decimal places prints exactly as `toString` prints it. |
| JsNumber.Round10Fixes | Week4/Calculator/script.js:110 | A number that is already a multiple of 1e-10 is its own rounding. |
| JsNumber.Add | Week4/Calculator/script.js:11 | JavaScript `+`: the real sum of finite operands; the result is finite exactly when both operands are; NaN exactly for a NaN operand or infinities of opposite sign; otherwise the infinity of the infinite operand. |
| JsNumber.Sub | Week4/Calculator/script.js:12 | JavaScript `-`: the real difference of finite operands; finite exactly when both are; NaN exactly for a NaN operand or infinities of the same sign; otherwise +Infinity when the first operand is +Infinity or the second is -Infinity, and -Infinity when the first is -Infinity or the second is +Infinity. |
| JsNumber.Mul | Week4/Calculator/script.js:13 | JavaScript `*`: the real product of finite operands; finite exactly when both are; NaN exactly for a NaN operand or an infinity times zero; otherwise an infinity whose sign is negative exactly when one operand is negative. |
| JsNumber.Div | Week4/Calculator/script.js:14 | JavaScript `/`: the real quotient for a finite non-zero divisor; NaN exactly for a NaN operand, 0/0 or an infinity over an infinity; a signed infinity for a finite non-zero number over 0 and for an infinity over a finite number; 0 for a finite number over an infinity. |
| JsNumber.Rem | Week4/Calculator/script.js:360 | JavaScript `%`: NaN exactly for a NaN operand, an infinite dividend or a zero divisor; a finite dividend over an infinite divisor is its own remainder. |
| JsNumber.Round10Whole | Week4/Calculator/script.js:106-112 | Rounding leaves a whole number unchanged, so `formatResult` of 8 prints `toString` of 8. |
| JsNumber.RemainderLaw | Week4/Calculator/script.js:360 | JavaScript `%` on a finite dividend and a finite non-zero divisor has four properties. The result is finite. It is smaller in magnitude than the divisor. It has the dividend's sign. It differs from the dividend by a whole multiple of the divisor. |
| ActionCalculator.OperationOf | Week4/Calculator/script.js:10-17 | `operations[action]` finds exactly the six action keys. Each found operation is stored under that key, and no operation is stored under any other string. |
| ActionCalculator.ActionNameRoundTrip | Week4/Calculator/script.js:10-17 | Every operation is found again under its own key. |
| ActionCalculator.OperatorSymbol | Week4/Calculator/script.js:28-45 | `getOperatorSymbol` is non-empty exactly for the six keys of the `operations` table. |
| ActionCalculator.OperatorSymbolsDistinct | Week4/Calculator/script.js:28-45 | Different operations are shown with different symbols. |
| ActionCalculator.Operate | Week4/Calculator/script.js:10-17 | Add, subtract and multiply are JavaScript `+`, `-` and `*` for every operand, which on finite operands is the real sum, difference and product. Divide gives the quotient, and modulo gives JavaScript `%`, for a non-zero divisor, and NaN for a zero one. Power is `Math.pow`. Every entry but power is finite on finite operands with a non-zero divisor. |
| ActionCalculator.Calculate | Week4/Calculator/script.js:95-104 | Without a known action it returns the second operand. With one, it either returns a finite number or fails. A zero divisor with divide or modulo fails for any first operand. Finite operands with a non-zero divisor never fail, except under power. With a known action the result is the table entry's value, returned exactly when that value is finite. |
| ActionCalculator.NumberEntered | Week4/Calculator/script.js:47-70 | From Error, the operand and operator are cleared. Otherwise both are kept. The entry flag is always cleared. On a fresh entry the display becomes the key, or "0." for a point. A point on a display that already has one changes nothing. Continuing an entry, the display becomes `Appended` of the old display, or of "0" after Error. |
| ActionCalculator.Appended | Week4/Calculator/script.js:61-67 | A point is appended exactly when the display has none; a digit replaces a bare "0" and is appended to anything else. |
| ActionCalculator.AppendedFacts | Week4/Calculator/script.js:61-67 | A digit or point continuing an entry never produces "Error" and never a second point. |
| ActionCalculator.NumberKeyFacts | Week4/Calculator/script.js:47-70 | A digit or point always leaves the Error state and never gives the display two decimal points. |
| ActionCalculator.OperatorSet | Week4/Calculator/script.js:72-93 | No effect on Error. With no first operand, the parsed display becomes the first operand. A second operator key in a row only replaces the pending action. After a typed second operand, the pending operation is carried out first. Its result becomes both the first operand and the formatted display, or the Error state if it fails. |
| ActionCalculator.Evaluated | Week4/Calculator/script.js:127-143 | No change exactly when no operator, no first operand or no typed second operand. Otherwise it clears the operation and sets the entry flag. A failed calculation gives the Error state; a successful one shows `formatResult` of the result. |
| ActionCalculator.EntryCleared | Week4/Calculator/script.js:153-161 | On Error it gives the state of `clearAll`. Otherwise the display becomes "0" and the entry flag false, and the pending operand and operator are kept. |
| ActionCalculator.Toggled | Week4/Calculator/script.js:176-178 | A leading '-' is removed, or one is put in front when there is none. |
| ActionCalculator.SignToggled | Week4/Calculator/script.js:172-180 | No effect on "0" and "Error". Otherwise it removes or adds exactly one leading '-' and changes nothing else. |
| ActionCalculator.PercentApplied | Week4/Calculator/script.js:182-195 | No effect on Error. An unparsable display becomes "0" with the entry flag kept. Otherwise the display shows the number divided by 100 and the entry flag is cleared. The operand and operator are kept. |
| ActionCalculator.HistoryPreview | Week4/Calculator/script.js:19-26 | The text above the display is non-empty exactly when a first operand is stored under a known action, and then it reads the operand, a space and the operator symbol. |
| ActionCalculator.StepKeepsConsistent | Week4/Calculator/script.js:47-195 | Every handler keeps two invariants. An operator is pending exactly when a first operand is stored. The Error display has neither and waits for a fresh entry. |
| ActionCalculator.RunKeepsConsistent | Week4/Calculator/script.js:5-195 | Any sequence of handler calls keeps those invariants. |
| ActionCalculator.ErrorExits | Week4/Calculator/script.js:48-52 | From Error, only a digit or point, clear or clear entry leave it. Every other event leaves the state unchanged. |
| ActionCalculator.ErrorEntries | Week4/Calculator/script.js:81-85 | Error is entered only by an operator or equals key whose calculation fails, and then exactly as `handleError` leaves it. |
| ActionCalculator.EvaluateTwice | Week4/Calculator/script.js:127-143 | A second equals right after the first changes nothing. |
| ActionCalculator.ZeroDivisorFails | Week4/Calculator/script.js:14-15 | Divide and modulo by zero end in the Error state, from equals or from any next operator key, whatever the first operand. |
| ActionCalculator.ClearEntryVersusClearAll | Week4/Calculator/script.js:145-161 | On Error, clear entry is clear all. Elsewhere it is clear all with the pending operand and operator kept. |
| ActionCalculator.RepeatedOperatorReplaces | Week4/Calculator/script.js:80 | Two operator keys in a row: the second only replaces the pending action. |
| ActionCalculator.ToggleTwice | Week4/Calculator/script.js:172-180 | Toggling twice restores the display exactly when it is not "-0", not "-Error" and does not start with "--". |
| ActionCalculator.ToggleTwiceRestores | Week4/Calculator/script.js:172-180 | On a consistent state, toggling twice restores every display except "-0" and one starting with "--". |
| ActionCalculator.TypingShowsKeys | Week4/Calculator/script.js:54-67 | Digits with at most one point, typed on a cleared display, show the typed text. Leading zeros are absorbed, "0" is put before a leading point, and nothing else changes. |
| ActionCalculator.TypedAppend | Week4/Calculator/script.js:61-67 | One more key extends the display of the keys typed so far to the display of the longer sequence. |
| ActionCalculator.ChainedOperators | Week4/Calculator/script.js:80-91 | "1 + 2 +" shows 3, with 3 stored as the first operand and add pending. |
| ActionCalculator.DivideByZeroScenario | Week4/Calculator/script.js:127-136 | "7 / 0 =" ends in Error. |
| ActionCalculator.Calculator.constructor | Week4/Calculator/script.js:5-8 | The variables start at "0", null, null and false. |
| ActionCalculator.Calculator.HandleNumber | Week4/Calculator/script.js:47-70 | Updates the variables in place exactly as `NumberEntered`. |
| ActionCalculator.Calculator.SetOperator | Week4/Calculator/script.js:72-93 | Updates the variables in place exactly as `OperatorSet`. |
| ActionCalculator.Calculator.Evaluate | Week4/Calculator/script.js:127-143 | Updates the variables in place exactly as `Evaluated`. |
| ActionCalculator.Calculator.ClearAll | Week4/Calculator/script.js:145-151 | Resets the variables to their initial values. |
| ActionCalculator.Calculator.ClearEntry | Week4/Calculator/script.js:153-161 | Updates the variables in place exactly as `EntryCleared`. |
| ActionCalculator.Calculator.HandleError | Week4/Calculator/script.js:163-170 | Sets "Error", null, null and true. |
| ActionCalculator.Calculator.ToggleSign | Week4/Calculator/script.js:172-180 | Updates the display in place exactly as `SignToggled`. |
| ActionCalculator.Calculator.ApplyPercent | Week4/Calculator/script.js:182-195 | Updates the variables in place exactly as `PercentApplied`. |
| SymbolCalculator.Pushed | Week4/Calculator/script.js:425-427 | The new entry is at index 0 and the old entries follow in order. The length grows by one up to ten and then stays put, so a history of at most ten stays at most ten. |
| SymbolCalculator.Apply | Week4/Calculator/script.js:343-364 | Defined exactly for the six symbols. "+", "-" and "*" are JavaScript `+`, `-` and `*` for every operand, which on finite numbers is the real sum, difference and product. "/" gives `/` for a non-zero divisor and 0 for a zero one. "%" is JavaScript `%` (NaN for a zero divisor) and "^" is `Math.pow`. |
| SymbolCalculator.Expression | Week4/Calculator/script.js:366 | The history entry reads, in order: the first operand ("null" when there is none), the operator between spaces, the second operand, " = " and the result. |
| SymbolCalculator.Calculated | Week4/Calculator/script.js:335-374 | No change without a known pending symbol. Otherwise it records `prev op current = result` in front of the history, shows the result and clears the operation. Memory is kept. |
| SymbolCalculator.OperatorSet | Week4/Calculator/script.js:325-333 | The operator becomes pending with the entry flag set, and the stored operand is the parsed display. A pending operation is carried out first. Memory is kept. |
| SymbolCalculator.NumberAppended | Week4/Calculator/script.js:315-323 | Only the display and the entry flag change. On a fresh entry or a display of "0" the key replaces the display; otherwise it is appended. |
| SymbolCalculator.Cleared | Week4/Calculator/script.js:376-383 | The display becomes "0" and the operation and entry flag are cleared. Memory and history are kept. |
| SymbolCalculator.LastDeleted | Week4/Calculator/script.js:385-388 | The display loses its last character, or becomes "0" when at most one character was left. Nothing else changes. |
| SymbolCalculator.PercentApplied | Week4/Calculator/script.js:390-393 | Only the display changes. It shows the number divided by 100. A display that parses to NaN or an infinity shows that value again. |
| SymbolCalculator.StepKeepsConsistent | Week4/Calculator/script.js:315-442 | Every handler keeps two invariants. An operator is pending exactly when a first operand is stored. The history holds at most ten entries. |
| SymbolCalculator.RunKeepsConsistent | Week4/Calculator/script.js:425-427 | Any sequence of handler calls keeps those invariants, so the history never exceeds ten entries. |
| SymbolCalculator.MemoryCleared | Week4/Calculator/script.js:395-399 | Memory becomes 0 and nothing else changes; the invariants are kept. |
| SymbolCalculator.MemoryRecalled | Week4/Calculator/script.js:401-405 | The display shows the memory and the entry flag is set; nothing else changes. |
| SymbolCalculator.MemoryAdded | Week4/Calculator/script.js:407-412 | Memory becomes JavaScript `+` of the memory and the parsed display. So a finite memory gains a finite display, a NaN memory or an unparsable display gives NaN, and a non-finite operand never gives a finite memory. The entry flag is set and nothing else changes. |
| SymbolCalculator.MemorySubtracted | Week4/Calculator/script.js:414-419 | Memory becomes JavaScript `-` of the memory and the parsed display. So a finite memory loses a finite display, a NaN memory or an unparsable display gives NaN, and a non-finite operand never gives a finite memory. The entry flag is set and nothing else changes. |
| SymbolCalculator.HistoryCleared | Week4/Calculator/script.js:438-442 | The history becomes empty and nothing else changes. |
| SymbolCalculator.HistoryNewestFirst | Week4/Calculator/script.js:425-430 | From an empty history, the history holds the last min(n, 10) entries added, most recent first. |
| SymbolCalculator.CalculateTwice | Week4/Calculator/script.js:335-374 | A second equals right after the first changes nothing. |
| SymbolCalculator.DivideByZeroShowsZero | Week4/Calculator/script.js:354 | Dividing by zero shows 0 whatever the first operand. |
| SymbolCalculator.RemainderByZeroShowsNaN | Week4/Calculator/script.js:360 | A remainder by zero shows NaN whatever the first operand. |
| SymbolCalculator.RepeatedOperatorCalculates | Week4/Calculator/script.js:326-329 | Two operator keys in a row apply the first operator to the displayed number twice and record it in the history. |
| SymbolCalculator.AppendThenDelete | Week4/Calculator/script.js:385-388 | A key typed on a non-empty entry is taken back by delete. |
| SymbolCalculator.MemoryAddThenSubtract | Week4/Calculator/script.js:407-419 | Memory plus, then memory minus on the same finite display, restores a finite memory. |
| SymbolCalculator.TypingShowsKeys | Week4/Calculator/script.js:315-323 | Any keys typed on a cleared display show the typed text without its leading zeros, or "0" if it was only zeros. |
| SymbolCalculator.PointsUnchecked | Week4/Calculator/script.js:320 | Typing ".5." shows ".5.", with no zero before the point and two points. |
| SymbolCalculator.AdditionScenario | Week4/Calculator/script.js:335-374 | "5 + 3 =" shows 8 and records "5 + 3 = 8" first in the history. |
| SymbolCalculator.MemoryScenario | Week4/Calculator/script.js:401-412 | From a memory of 0, memory plus on "4" then memory recall shows "4" with memory 4 and the entry flag set. |
| SymbolCalculator.Calculator.constructor | Week4/Calculator/script.js:218-225 | Memory is the parsed stored text, or 0 when that parses to NaN or 0. History is the stored list, or empty. The rest is at its initial value. |
| SymbolCalculator.Calculator.AppendNumber | Week4/Calculator/script.js:315-323 | Updates the fields in place exactly as `NumberAppended`. |
| SymbolCalculator.Calculator.SetOperator | Week4/Calculator/script.js:325-333 | Updates the fields in place exactly as `OperatorSet`. |
| SymbolCalculator.Calculator.Calculate | Week4/Calculator/script.js:335-374 | Updates the fields in place exactly as `Calculated`. |
| SymbolCalculator.Calculator.Clear | Week4/Calculator/script.js:376-383 | Updates the fields in place exactly as `Cleared`. |
| SymbolCalculator.Calculator.DeleteLast | Week4/Calculator/script.js:385-388 | Updates the display in place exactly as `LastDeleted`. |
| SymbolCalculator.Calculator.Percent | Week4/Calculator/script.js:390-393 | Updates the display in place exactly as `PercentApplied`. |
| SymbolCalculator.Calculator.MemoryClear | Week4/Calculator/script.js:395-399 | Sets memory to 0 and changes nothing else. |
| SymbolCalculator.Calculator.MemoryRecall | Week4/Calculator/script.js:401-405 | Shows the memory and sets the entry flag. |
| SymbolCalculator.Calculator.MemoryAdd | Week4/Calculator/script.js:407-412 | Adds the parsed display to memory and sets the entry flag. |
| SymbolCalculator.Calculator.MemorySubtract | Week4/Calculator/script.js:414-419 | Subtracts the parsed display from memory and sets the entry flag. |
| SymbolCalculator.Calculator.AddToHistory | Week4/Calculator/script.js:425-427 | `unshift` then at most one `pop`. The history becomes `Pushed` of the old one, and nothing else changes. |
| SymbolCalculator.Calculator.ClearHistory | Week4/Calculator/script.js:438-442 | Empties the history and changes nothing else. |

## Left out

- Floating point: finite numbers are exact reals. There is no IEEE rounding, no
  overflow to an infinity and no negative zero. `parseFloat`, `toString` and
  `Math.pow` are uninterpreted fields of `FloatLib`, so the scenario lemmas
  state the values they need of them as preconditions. The `.toFixed(2)` of
  the memory display is not modelled.
- `formatResult`'s branch for the string 'Error' (line 107) is not modelled:
  all three call sites (lines 87, 137 and 192) pass a number.
- Rendering: `updateDisplay` (both declarations), `updateHistoryDisplay`,
  `renderHistory`, `updateMemoryDisplay` and the writes to
  `historyDisplay.textContent` are output only. The first engine's text
  above the display is kept as the pure function `HistoryPreview`.
- Persistence: the `localStorage` reads and writes are not modelled. The
  stored memory text and the decoded stored history are parameters of the
  second engine's constructor.
- Event wiring, keyboard mapping, language, translations and theme (lines
  197-313) are not modelled. The `Event` datatypes only sequence the handlers
  for the invariant lemmas.
- `adjustFontSize` (lines 114-125) is cosmetic and not modelled.
- The replacement of the earlier `setOperator`, `calculate` and
  `updateDisplay` by the later declarations at load time is not modelled.
- Action keys that name inherited object properties ("toString", ...) are
  treated as unknown actions, not as entries of `operations`.
- ActionCalculator.StepKeepsConsistent: assumes a `toString` that never
  prints a capital E, as JavaScript's does not. Otherwise a formatted result
  could read "Error".
