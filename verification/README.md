# Calculator input state machine

A Dafny model of the input handling of `advanced_calculator.py`, a Tkinter
desktop calculator. The calculator keeps four pieces of state:

- the main **display** text;
- the **expression buffer**, the text that Python's `eval` eventually reads, in
  buffer notation (`/` and `*`);
- the **expression label** under the display, which shows the buffer in display
  notation (`÷` and `×`);
- the **history**, a list of `"<expression> = <result>"` strings capped at 20.

Every button and key press runs one handler that rewrites this record. The
model makes the record an immutable datatype (`Calculator.State`) and every
handler a pure function on it. The two numeric pieces are parameters:

- `Evaluator`: `eval` followed by `str`, as a partial function from buffer
  text to result text;
- `Numeric`: `float(display)` followed by `sin`/`cos`/`tan`/`sqrt` and `str`.

With those two parameters the model fixes every state effect of every handler
without modelling floating-point arithmetic.

Files and modules:

- `wrappers.dfy` (`Wrappers`): `Option`, the success-or-exception result of the
  two numeric parameters.
- `text.dfy` (`Text`): the operator characters and the rewrite between buffer
  and display notation.
- `calculator.dfy` (`Calculator`): the state and the handlers `add_number`,
  `add_operator`, `backspace`, `toggle_sign`, `clear`, `clear_history`,
  `calculate`, `apply_function` and `update_expression_display`.
- `input.dfy` (`Input`): the button grid and the keyboard handler
  `on_key_press`.
- `session.dfy` (`Session`): runs of user actions, the invariant every reachable
  state keeps, and lemmas relating the handlers to each other.

History entries are plain `"<expression> = <result>"` strings; an operator is
appended only to a non-empty buffer.

Toggling the sign twice does not always restore the display. For example, a
result of "0.5" toggled to "-0.5" and then backspaced twice reads "-0". The
next toggle gives "0", which the following toggle leaves alone.
`Calculator.ToggleSignTwice` states exactly when two toggles restore the state.

## Model

| member | source | states |
|---|---|---|
| Text.Replace | advanced_calculator.py:267 | `str.replace` of one character: same length, each matching position holds the replacement, every other position is unchanged |
| Text.Rewrite | advanced_calculator.py:263-268 | the label text has the buffer's length and contains no `/` or `*`; `/` becomes `÷`, `*` becomes `×`, every other character is kept |
| Text.RewriteRoundTrip | advanced_calculator.py:263-268 | the label loses nothing: mapping `÷`/`×` back to `/`/`*` recovers any buffer that has no `÷` or `×` |
| Calculator.Init | advanced_calculator.py:15-18 | start-up: display "0", empty buffer and label, no history |
| Calculator.Refresh | advanced_calculator.py:263-268 | `update_expression_display` puts the label in step with the buffer and changes nothing else |
| Calculator.AddNumber | advanced_calculator.py:164-173 | the typed text is always appended to the buffer; the display becomes the text when it read "0" or "Error" and is extended otherwise, so a "0" typed on "0" grows the buffer but not the display |
| Calculator.AddOperator | advanced_calculator.py:175-184 | when the buffer is non-empty and does not end in `+-*/`, the operator (with `÷`→`/`, `×`→`*`) is appended and the display becomes "0"; otherwise the whole state is unchanged |
| Calculator.Backspace | advanced_calculator.py:242-252 | the display drops its last character when longer than 1 and becomes "0" otherwise ("Error" becomes "Erro"); a non-empty buffer drops its last character and an empty buffer stays empty with its label untouched |
| Calculator.ToggleSign | advanced_calculator.py:254-261 | buffer, label and history never change; "0" and "Error" are left alone; otherwise exactly one leading `-` is removed or added |
| Calculator.ToggleSignTwice | advanced_calculator.py:254-261 | toggling twice restores the state if and only if the display is a placeholder, has no leading `-`, or has a leading `-` followed by text that is neither a placeholder nor starts with `-` |
| Calculator.Clear | advanced_calculator.py:236-240 | clear returns to the start-up state but keeps the history |
| Calculator.ClearHistory | advanced_calculator.py:323-325 | only the history is emptied |
| Calculator.Record | advanced_calculator.py:221-224 | the new entry becomes the last one; the oldest entry is dropped exactly when 20 were already kept, so a history of at most 20 stays at most 20 |
| Calculator.Calculate | advanced_calculator.py:210-234 | no-op on an empty buffer; the display is appended before evaluation only when the buffer ends in an operator; on success display and buffer become the result and the history records `text = result`; on failure the display is "Error", buffer and label are empty, and the history is unchanged |
| Calculator.ApplyFunctionAsWritten | advanced_calculator.py:186-208 | on success display and buffer become the function's result; on failure, or for a name that is not one of the four function buttons, the display is "Error" and the buffer empty while the label is left as it was |
| Calculator.ApplyFunctionLeavesStaleLabel | advanced_calculator.py:206-208 | a failing function on a display of "." leaves the label showing "3+." over an empty buffer |
| Calculator.ApplyFunction | advanced_calculator.py:186-208 | the same display and buffer effects as the source, with the label always in step with the buffer |
| Input.PressButton | advanced_calculator.py:108-127 | with the corrected `apply_function` on the function buttons, the handler bound to each grid button keeps the history cap and the label in step with the buffer |
| Input.PressButtonAsWritten | advanced_calculator.py:108-127 | the grid as bound: every button other than the four function buttons has the corrected grid's effect, the function buttons run `apply_function` as written, and the history cap and the weaker label invariant (in step with the buffer, or the buffer empty) are kept |
| Input.ContainsCharacter | advanced_calculator.py:281 | Python's substring test on a key is membership for a one-character key and is true for the empty key |
| Input.KeyOperator | advanced_calculator.py:281-283 | the keyboard turns `/` and `*` into the button signs, and the operator map of `add_operator` turns each operator key back into itself |
| Input.EmptyKeyResetsDisplay | advanced_calculator.py:281-283 | as written, a key press with an empty character, whatever its key name, resets the display to "0" and refreshes the label whenever the buffer would accept an operator, with the buffer unchanged |
| Input.ShiftClearsDisplay | advanced_calculator.py:281-283 | pressing Shift while the display reads "12" turns it into "0" |
| Input.OnKey | advanced_calculator.py:275-289 | digits and `.` reach `add_number`, the four operator keys reach `add_operator` as themselves, and a key with no character and no BackSpace/Escape name changes nothing; the history cap and label stay intact |
| Input.OnKeyAsWritten | advanced_calculator.py:275-289 | `on_key_press` as written agrees with the corrected handler on every key that produces one character; a key with an empty character always goes to `add_operator` with an empty operator and never reaches the Enter, BackSpace or Escape tests, so it resets the display to "0" (buffer unchanged) when the buffer accepts an operator and changes nothing otherwise; the history cap and the weaker label invariant are kept |
| Input.LongKeyJoinsOperators | advanced_calculator.py:281-283 | as written, a key text of two operator characters such as "+-" passes the substring test and is appended whole, leaving two adjacent operators in the buffer |
| Input.KeyButton | advanced_calculator.py:98-105 | every key that stands for a button names a label on the grid, and every digit, `.`, operator and Enter key stands for one |
| Input.KeyMatchesButton | advanced_calculator.py:275-289 | with the corrected keyboard routing, a key press has exactly the effect of pressing the button it stands for, and none when it stands for none |
| Input.KeyMatchesButtonAsWritten | advanced_calculator.py:275-289 | with the handlers as written, a key press that produces one character and stands for a button has exactly the effect of pressing that button |
| Session.Step | advanced_calculator.py:129 | one user action with the corrected handlers (a grid button, a key press or the "Clear History" menu entry) keeps the history cap and the label in step with the buffer |
| Session.RunValid | advanced_calculator.py:221-224 | with the corrected handlers (function buttons refresh the label on failure, the keyboard routes only one-character operators), any sequence of buttons, keys and "Clear History" keeps the history at most 20 long and the label in step with the buffer |
| Session.ReachableValid | advanced_calculator.py:15-18 | with the corrected handlers, every state reachable from start-up has at most 20 history entries and a label in step with its buffer |
| Session.StepAsWritten | advanced_calculator.py:129 | one user action as the source binds it: a grid button (line 129), a key press (line 272) or the "Clear History" menu entry (line 147), with the handlers as written, keeps the history cap and the label in step unless the buffer is empty |
| Session.RunAsWrittenValid | advanced_calculator.py:221-224 | with the handlers as written, any sequence of buttons, keys and "Clear History" keeps the history at most 20 long, and the label is out of step with the buffer only while the buffer is empty |
| Session.ReachableAsWrittenValid | advanced_calculator.py:15-18 | every state the program as written reaches from start-up has at most 20 history entries, and a label in step with its buffer unless the buffer is empty |
| Session.StaleLabelReachable | advanced_calculator.py:206-208 | the stale label is reachable from start-up: pressing 3, +, . and sin, where `float(".")` raises, leaves the label "3+." over an empty buffer |
| Session.AddNumberKeepsOperatorsApart | advanced_calculator.py:172 | typing a digit or `.` never creates two adjacent operators in the buffer |
| Session.AddOperatorKeepsOperatorsApart | advanced_calculator.py:181-182 | adding a one-character operator never creates two adjacent operators |
| Session.BackspaceKeepsOperatorsApart | advanced_calculator.py:250-251 | backspace never creates two adjacent operators |
| Session.CalculateKeepsOperatorsApart | advanced_calculator.py:213-228 | `calculate` keeps the buffer free of adjacent operators when the stored result text is |
| Session.AddOperatorAbsorbs | advanced_calculator.py:181-184 | once an operator is accepted, a second operator press changes nothing |
| Session.BackspaceUndoesAddNumber | advanced_calculator.py:242-252 | backspace undoes one typed character if and only if the display was neither empty nor "Error" and the label matched the buffer |
| Session.CalculateIgnoresDisplay | advanced_calculator.py:213-219 | when the buffer is non-empty and does not end in an operator, the display has no influence on `calculate` |
| Session.TypeTextExtends | advanced_calculator.py:164-172 | typing digits and `.` onto a display that is neither empty nor a placeholder extends the display and the buffer by the same text |
| Session.TypeTextFromPlaceholder | advanced_calculator.py:164-172 | typing a number onto "0" (or onto "Error", with at least one character) shows it without its leading zeros, while the buffer keeps every character |

## Findings

| source | as written | input that shows it | evidently intended | confidence | as-written member | corrected member |
|---|---|---|---|---|---|---|
| advanced_calculator.py:281 | `key in '+-*/'` is a substring test, and the empty string is a substring of every string | Shift pressed (`event.char == ''`) with display and buffer "12": the display becomes "0" | only the four operator characters reach `add_operator`; other keys fall through to the key-name tests | high; not executed | Input.EmptyKeyResetsDisplay | Input.OnKey |
| advanced_calculator.py:206-208 | the failure path of `apply_function` empties the buffer but does not call `update_expression_display` | buffer "3+.", display ".", press "sin": `float(".")` raises, the label still reads "3+." over an empty buffer | the label is refreshed, as the failure path of `calculate` does | medium; not executed | Calculator.ApplyFunctionLeavesStaleLabel | Calculator.ApplyFunction |

`Input.OnKeyAsWritten`, `Calculator.ApplyFunctionAsWritten`,
`Input.PressButtonAsWritten` and `Session.RunAsWritten` keep the code as
written, and `Session.RunAsWrittenValid` states what survives of the invariant
there. `Input.PressButton`, `Input.OnKey` and `Session.Run` use the corrected
`Calculator.ApplyFunction` and the corrected keyboard routing.

## Left out

- The Tkinter interface: styles, window, display widgets, button grid layout, menus, `show_history`, `show_shortcuts`, `show_about`, and the message box shown by `clear_history`. These draw the state and do not change it.
- The arithmetic of `eval` over Python floats, including precedence and the exact text of results. It is the `Evaluator` parameter of `Calculate`.
- `float` parsing and `math.sin`/`cos`/`tan`/`sqrt`/`radians` in `apply_function`. They are the `Numeric` parameter; only their success or failure and the result text matter to the state.
- Input.IsDigitText: Python's `str.isdigit` also accepts non-ASCII digits such as `²`; the model accepts only `0`–`9`.
- Input.PressButton: holds for the corrected `apply_function`; the grid as bound is `Input.PressButtonAsWritten`, which keeps only the weaker label invariant.
- Input.OnKeyAsWritten: the contract fixes the result for keys of at most one character only; a longer `event.char` is not described, and as written such a key can put two operators next to each other (`Input.LongKeyJoinsOperators`).
- Session.RunValid: holds for the corrected handlers; for the handlers as written see `Session.RunAsWrittenValid`.
- Session.ReachableValid: holds for the corrected handlers; for the handlers as written see `Session.ReachableAsWrittenValid` and `Session.StaleLabelReachable`.
- Input.KeyMatchesButton: stated for key presses that produce at most one character, as Tk delivers; a longer `event.char` has no button. It holds for the corrected keyboard routing: in the source a key that produces no character (Shift, an arrow key) stands for no button and yet can change the state, see `Input.EmptyKeyResetsDisplay`; `Input.KeyMatchesButtonAsWritten` states the one-character half for the source.
- Session.CalculateKeepsOperatorsApart: assumes the result text has no adjacent operators, since the text of `eval`'s results is not modelled.
- Number formatting, statistics, the memory register, bitwise operations, the history timestamp, and settings and session files: none of them occurs in `advanced_calculator.py`, so there is no code to model them from.
