/**
 How user input reaches the handlers: the button grid, where each label is
 bound to one handler, and the keyboard handler, which routes a key press by
 the character it produced and, failing that, by its key name.
 */
module Input {
  import opened Wrappers
  import opened Text
  import opened Calculator

  const BackspaceSign: char := '\U{232B}'
  const PlusMinusSign: char := '\U{00B1}'

  /** Every label on the button grid. */
  const ButtonLabels: set<string> := {
    "C", [BackspaceSign], [PlusMinusSign], [DivideSign],
    "sin", "cos", "tan", [TimesSign],
    "7", "8", "9", "-",
    "4", "5", "6", "+",
    "1", "2", "3", "=",
    [SquareRootSign], "0", "."
  }

  /** The operator buttons. */
  const OperatorButtons: set<string> := {[DivideSign], [TimesSign], "-", "+"}

  /** The handler a button is bound to, tried in the order the grid is built. */
  function PressButton(s: State, button: string, ev: Evaluator, num: Numeric): (r: State)
    ensures Valid(s) ==> Valid(r)
  {
    if button == "=" then Calculate(s, ev)
    else if button == "C" then Clear(s)
    else if button == [BackspaceSign] then Backspace(s)
    else if button == [PlusMinusSign] then ToggleSign(s)
    else if button in OperatorButtons then AddOperator(s, button)
    else if button in FunctionNames then ApplyFunction(s, button, num)
    else AddNumber(s, button)
  }

  /**
   The grid as the source binds it, with the function buttons running
   `apply_function` as written.
   */
  function PressButtonAsWritten(s: State, button: string, ev: Evaluator, num: Numeric): (r: State)
    ensures button !in FunctionNames ==> r == PressButton(s, button, ev, num)
    ensures button in FunctionNames ==> r == ApplyFunctionAsWritten(s, button, num)
    ensures ValidAsWritten(s) ==> ValidAsWritten(r)
  {
    if button == "=" then Calculate(s, ev)
    else if button == "C" then Clear(s)
    else if button == [BackspaceSign] then Backspace(s)
    else if button == [PlusMinusSign] then ToggleSign(s)
    else if button in OperatorButtons then AddOperator(s, button)
    else if button in FunctionNames then ApplyFunctionAsWritten(s, button, num)
    else AddNumber(s, button)
  }

  predicate IsDigit(c: char) {
    '0' <= c <= '9'
  }

  /** Python's `str.isdigit` on ASCII text: non-empty and all digits. */
  predicate IsDigitText(key: string) {
    |key| > 0 && forall i :: 0 <= i < |key| ==> IsDigit(key[i])
  }

  /** Python's `needle in hay` on strings: `needle` occurs contiguously in `hay`. */
  predicate Contains(hay: string, needle: string)
    decreases |hay|
  {
    needle <= hay || (|hay| > 0 && Contains(hay[1..], needle))
  }

  /** Python's substring test is plain membership for a one-character needle, and always holds for the empty one. */
  lemma {:induction false} ContainsCharacter(hay: string, key: string)
    requires |key| <= 1
    ensures Contains(hay, key) <==> key == "" || key[0] in hay
    decreases |hay|
  {
    if |hay| > 0 {
      ContainsCharacter(hay[1..], key);
      if key != "" {
        assert hay == [hay[0]] + hay[1..];
        assert key[0] in hay <==> key[0] == hay[0] || key[0] in hay[1..];
      }
    }
  }

  /**
   The keyboard's `op_map`, which turns '/' and '*' into the button signs;
   the operator map of `add_operator` turns them back, so every operator key
   reaches the buffer as itself.
   */
  function KeyOperator(key: string): (r: string)
    ensures |key| == 1 && IsOperator(key[0]) ==> BufferOperator(r) == key
    ensures key == "/" || key == "*" ==> r in OperatorButtons && r != key
  {
    if key == "/" then [DivideSign] else if key == "*" then [TimesSign] else key
  }

  /** The Enter and '=' keys. */
  predicate IsEnter(key: string) {
    key == "\r" || key == "="
  }

  /**
   A key that produces no character (Shift, an arrow key) resets the display
   to "0" whenever the buffer would accept an operator, although the buffer
   itself does not change.
   */
  lemma EmptyKeyResetsDisplay(s: State, keysym: string, ev: Evaluator)
    requires AcceptsOperator(s)
    ensures OnKeyAsWritten(s, "", keysym, ev) == Refresh(s.(display := "0"))
  {
    ContainsCharacter(OperatorChars, "");
    assert s.expr + BufferOperator(KeyOperator("")) == s.expr;
  }

  /** An instance: Shift pressed while the display reads "12". */
  lemma ShiftClearsDisplay(ev: Evaluator)
    ensures
      var s := State("12", "12", "12", []);
      var r := OnKeyAsWritten(s, "", "Shift_L", ev);
      r.display == "0" && r.expr == "12" && r != s
  {
    EmptyKeyResetsDisplay(State("12", "12", "12", []), "Shift_L", ev);
    RewriteNoOperatorSigns("12");
  }

  /**
   The substring test also lets a multi-character key text such as "+-"
   through, which puts two operators next to each other in the buffer.
   */
  lemma LongKeyJoinsOperators(ev: Evaluator)
    ensures
      var r := OnKeyAsWritten(State("3", "3", "3", []), "+-", "", ev);
      r.expr == "3+-" && !NoAdjacentOperators(r.expr)
  {
    assert "+-" <= OperatorChars;
    assert !IsDigit("+-"[0]);
    assert OperatorPairAt("3+-", 1);
  }

  /** Whether a key's character is one of the four operators. */
  predicate IsOperatorKey(key: string) {
    |key| == 1 && IsOperator(key[0])
  }

  /**
   `on_key_press` with the operator test applied to single characters only:
   a key that produces no character falls through to the key-name tests.
   */
  function OnKey(s: State, key: string, keysym: string, ev: Evaluator): (r: State)
    ensures IsDigitText(key) || key == "." ==> r == AddNumber(s, key)
    ensures IsOperatorKey(key) ==> r == AddOperator(s, key)
    ensures key == "" && keysym != "BackSpace" && keysym != "Escape" ==> r == s
    ensures Valid(s) ==> Valid(r)
  {
    if IsDigitText(key) || key == "." then AddNumber(s, key)
    else if IsOperatorKey(key) then AddOperator(s, KeyOperator(key))
    else if IsEnter(key) then Calculate(s, ev)
    else if keysym == "BackSpace" then Backspace(s)
    else if keysym == "Escape" then Clear(s)
    else s
  }

  /**
   `on_key_press` as the source writes it. The operator test is Python's
   substring test, which the empty character of a modifier or arrow key also
   passes, so such a key press reaches `add_operator` with an empty operator.
   */
  function OnKeyAsWritten(s: State, key: string, keysym: string, ev: Evaluator): (r: State)
    ensures |key| == 1 ==> r == OnKey(s, key, keysym, ev)
    ensures key == "" ==> r == AddOperator(s, "")
    ensures key == "" && AcceptsOperator(s) ==> r == Refresh(s.(display := "0"))
    ensures ValidAsWritten(s) ==> ValidAsWritten(r)
  {
    assert |key| <= 1 ==> (Contains(OperatorChars, key) <==> key == "" || key[0] in OperatorChars) by {
      if |key| <= 1 { ContainsCharacter(OperatorChars, key); }
    }
    if IsDigitText(key) || key == "." then AddNumber(s, key)
    else if Contains(OperatorChars, key) then AddOperator(s, KeyOperator(key))
    else if IsEnter(key) then Calculate(s, ev)
    else if keysym == "BackSpace" then Backspace(s)
    else if keysym == "Escape" then Clear(s)
    else s
  }

  /** A one-character operator key is one of the four operator keys. */
  lemma OperatorKeyCases(key: string)
    requires IsOperatorKey(key)
    ensures key == "+" || key == "-" || key == "*" || key == "/"
  {
    assert key == [key[0]];
    assert key[0] in OperatorChars;
  }

  /** Every digit key has a button. */
  lemma DigitButton(c: char)
    requires IsDigit(c)
    ensures [c] in ButtonLabels && [c] !in OperatorButtons && [c] !in FunctionNames
  {
    assert [c] in {"0", "1", "2", "3", "4", "5", "6", "7", "8", "9"};
  }

  /** The button a key stands for, when there is one. */
  function KeyButton(key: string, keysym: string): (r: Option<string>)
    ensures r.Some? ==> r.value in ButtonLabels
    ensures |key| == 1 && (IsDigit(key[0]) || key == "." || IsOperator(key[0]) || IsEnter(key)) ==> r.Some?
  {
    if (|key| == 1 && IsDigit(key[0])) || key == "." then
      if key == "." then Some(key)
      else
        DigitButton(key[0]);
        assert key == [key[0]];
        Some(key)
    else if IsOperatorKey(key) then
      OperatorKeyCases(key);
      Some(KeyOperator(key))
    else if IsEnter(key) then Some("=")
    else if keysym == "BackSpace" then Some([BackspaceSign])
    else if keysym == "Escape" then Some("C")
    else None
  }

  /**
   A key press that produces at most one character has exactly the effect of
   pressing the button it stands for, and no effect when it stands for none.
   */
  lemma KeyMatchesButton(s: State, key: string, keysym: string, ev: Evaluator, num: Numeric)
    requires |key| <= 1
    ensures KeyButton(key, keysym).Some? ==>
      OnKey(s, key, keysym, ev) == PressButton(s, KeyButton(key, keysym).value, ev, num)
    ensures KeyButton(key, keysym).None? ==> OnKey(s, key, keysym, ev) == s
  {
    if |key| == 1 && IsDigit(key[0]) {
      DigitKeyMatchesButton(s, key, keysym, ev, num);
    } else if key == "." {
      assert PressButton(s, key, ev, num) == AddNumber(s, key);
    } else if IsOperatorKey(key) {
      OperatorKeyMatchesButton(s, key, keysym, ev, num);
    } else {
      assert !IsDigitText(key);
    }
  }

  /**
   With the handlers as written, a key press that produces one character still
   has exactly the effect of pressing the button it stands for.
   */
  lemma KeyMatchesButtonAsWritten(s: State, key: string, keysym: string, ev: Evaluator, num: Numeric)
    requires |key| == 1 && KeyButton(key, keysym).Some?
    ensures OnKeyAsWritten(s, key, keysym, ev) == PressButtonAsWritten(s, KeyButton(key, keysym).value, ev, num)
  {
    KeyMatchesButton(s, key, keysym, ev, num);
    assert KeyButton(key, keysym).value !in FunctionNames;
  }

  lemma DigitKeyMatchesButton(s: State, key: string, keysym: string, ev: Evaluator, num: Numeric)
    requires |key| == 1 && IsDigit(key[0])
    ensures KeyButton(key, keysym) == Some(key)
    ensures OnKey(s, key, keysym, ev) == PressButton(s, key, ev, num)
  {
    DigitButton(key[0]);
    assert key == [key[0]];
    assert IsDigitText(key);
  }

  lemma OperatorKeyMatchesButton(s: State, key: string, keysym: string, ev: Evaluator, num: Numeric)
    requires IsOperatorKey(key)
    ensures KeyButton(key, keysym) == Some(KeyOperator(key))
    ensures OnKey(s, key, keysym, ev) == PressButton(s, KeyOperator(key), ev, num)
  {
    OperatorKeyCases(key);
    assert !IsDigitText(key);
  }
}
