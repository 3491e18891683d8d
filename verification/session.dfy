/**
 Sequences of user actions and the properties that hold across them: the
 invariant every reachable state keeps, the buffer's operator discipline, and
 how handlers undo or absorb one another.
 */
module Session {
  import opened Wrappers
  import opened Text
  import opened Calculator
  import opened Input

  /** One user action: a button, a key press, or the "Clear History" menu entry. */
  datatype Event =
    | Press(button: string)
    | Key(text: string, keysym: string)
    | ClearHistoryMenu

  function Step(s: State, e: Event, ev: Evaluator, num: Numeric): (r: State)
    ensures Valid(s) ==> Valid(r)
  {
    match e
    case Press(b) => PressButton(s, b, ev, num)
    case Key(c, k) => OnKey(s, c, k, ev)
    case ClearHistoryMenu => ClearHistory(s)
  }

  /** The state after the actions `es`, first to last. */
  function Run(s: State, es: seq<Event>, ev: Evaluator, num: Numeric): (r: State)
    decreases |es|
  {
    if es == [] then s else Run(Step(s, es[0], ev, num), es[1..], ev, num)
  }

  /**
   Whatever the user does, the history never holds more than 20 entries and
   the label always shows the buffer in display notation.
   */
  lemma {:induction false} RunValid(s: State, es: seq<Event>, ev: Evaluator, num: Numeric)
    requires Valid(s)
    ensures Valid(Run(s, es, ev, num))
    decreases |es|
  {
    if es != [] {
      RunValid(Step(s, es[0], ev, num), es[1..], ev, num);
    }
  }

  /** Every state reachable from start-up is valid. */
  lemma ReachableValid(es: seq<Event>, ev: Evaluator, num: Numeric)
    ensures |Run(Init(), es, ev, num).history| <= HistoryCap
    ensures LabelInSync(Run(Init(), es, ev, num))
  {
    RunValid(Init(), es, ev, num);
  }

  /** One user action, with the handlers as the source writes them. */
  function StepAsWritten(s: State, e: Event, ev: Evaluator, num: Numeric): (r: State)
    ensures ValidAsWritten(s) ==> ValidAsWritten(r)
  {
    match e
    case Press(b) => PressButtonAsWritten(s, b, ev, num)
    case Key(c, k) => OnKeyAsWritten(s, c, k, ev)
    case ClearHistoryMenu => ClearHistory(s)
  }

  /** The state after the actions `es` with the handlers as the source writes them. */
  function RunAsWritten(s: State, es: seq<Event>, ev: Evaluator, num: Numeric): (r: State)
    decreases |es|
  {
    if es == [] then s else RunAsWritten(StepAsWritten(s, es[0], ev, num), es[1..], ev, num)
  }

  /**
   With the handlers as written, any run keeps the history at most 20 long,
   and the label can be out of step with the buffer only while the buffer is
   empty.
   */
  lemma {:induction false} RunAsWrittenValid(s: State, es: seq<Event>, ev: Evaluator, num: Numeric)
    requires ValidAsWritten(s)
    ensures ValidAsWritten(RunAsWritten(s, es, ev, num))
    decreases |es|
  {
    if es != [] {
      RunAsWrittenValid(StepAsWritten(s, es[0], ev, num), es[1..], ev, num);
    }
  }

  /** Every state the program as written reaches from start-up. */
  lemma ReachableAsWrittenValid(es: seq<Event>, ev: Evaluator, num: Numeric)
    ensures |RunAsWritten(Init(), es, ev, num).history| <= HistoryCap
    ensures LabelInSync(RunAsWritten(Init(), es, ev, num)) || RunAsWritten(Init(), es, ev, num).expr == ""
  {
    RunAsWrittenValid(Init(), es, ev, num);
  }

  /**
   The label does fall out of step in the program as written: pressing 3, +,
   . and sin from start-up, where `float(".")` raises.
   */
  lemma StaleLabelReachable(ev: Evaluator, num: Numeric)
    requires num("sin", ".") == None
    ensures
      var r := RunAsWritten(Init(), [Press("3"), Press("+"), Press("."), Press("sin")], ev, num);
      r.expr == "" && r.exprLabel == "3+." && !LabelInSync(r)
  {
    var es := [Press("3"), Press("+"), Press("."), Press("sin")];
    var s1, s2, s3, s4 := StaleLabelSteps(ev, num);
    assert RunAsWritten(s4, es[4..], ev, num) == s4;
    assert RunAsWritten(s3, es[3..], ev, num) == s4;
    assert RunAsWritten(s2, es[2..], ev, num) == s4;
    assert RunAsWritten(s1, es[1..], ev, num) == s4;
    assert RunAsWritten(Init(), es, ev, num) == s4;
    assert Rewrite("") == "";
  }

  /** The four states of that run, one button at a time. */
  lemma StaleLabelSteps(ev: Evaluator, num: Numeric) returns (s1: State, s2: State, s3: State, s4: State)
    requires num("sin", ".") == None
    ensures s1 == StepAsWritten(Init(), Press("3"), ev, num)
    ensures s2 == StepAsWritten(s1, Press("+"), ev, num)
    ensures s3 == StepAsWritten(s2, Press("."), ev, num)
    ensures s4 == StepAsWritten(s3, Press("sin"), ev, num)
    ensures s4.expr == "" && s4.exprLabel == "3+."
  {
    s1 := AddNumber(Init(), "3");
    s2 := AddOperator(s1, "+");
    s3 := AddNumber(s2, ".");
    s4 := ApplyFunctionAsWritten(s3, "sin", num);
    DigitPressAsWritten(Init(), '3', ev, num);
    OperatorPressAsWritten(s1, "+", ev, num);
    PointPressAsWritten(s2, ev, num);
    FunctionPressAsWritten(s3, "sin", ev, num);
    TypedThreePlusPoint();
  }

  /** Typing 3, + and . from start-up shows "." over the buffer and label "3+.". */
  lemma TypedThreePlusPoint()
    ensures
      var s3 := AddNumber(AddOperator(AddNumber(Init(), "3"), "+"), ".");
      s3.display == "." && s3.expr == "3+." && s3.exprLabel == "3+."
  {
    var s1 := AddNumber(Init(), "3");
    assert s1.expr == "3" && !IsOperator('3');
    assert AcceptsOperator(s1);
    var s2 := AddOperator(s1, "+");
    assert s2.display == "0" && s2.expr == "3+";
    var s3 := AddNumber(s2, ".");
    assert IsPlaceholder(s2.display) && s3.display == ".";
    assert s3.expr == "3+.";
    RewriteNoOperatorSigns("3+.");
  }

  /** A digit button runs `add_number`. */
  lemma DigitPressAsWritten(s: State, c: char, ev: Evaluator, num: Numeric)
    requires IsDigit(c)
    ensures StepAsWritten(s, Press([c]), ev, num) == AddNumber(s, [c])
  {
    DigitButton(c);
  }

  /** An operator button runs `add_operator`. */
  lemma OperatorPressAsWritten(s: State, op: string, ev: Evaluator, num: Numeric)
    requires op in OperatorButtons
    ensures StepAsWritten(s, Press(op), ev, num) == AddOperator(s, op)
  {
  }

  /** A function button runs `apply_function` as written. */
  lemma FunctionPressAsWritten(s: State, f: string, ev: Evaluator, num: Numeric)
    requires f in FunctionNames
    ensures StepAsWritten(s, Press(f), ev, num) == ApplyFunctionAsWritten(s, f, num)
  {
  }

  /** The '.' button runs `add_number`. */
  lemma PointPressAsWritten(s: State, ev: Evaluator, num: Numeric)
    ensures StepAsWritten(s, Press("."), ev, num) == AddNumber(s, ".")
  {
    assert "." != [BackspaceSign] && "." != [PlusMinusSign];
    assert "." !in OperatorButtons && "." !in FunctionNames;
  }

  /** Typing a digit or '.' never puts two operators next to each other. */
  lemma AddNumberKeepsOperatorsApart(s: State, d: char)
    requires NoAdjacentOperators(s.expr)
    requires d == '.' || IsDigit(d)
    ensures NoAdjacentOperators(AddNumber(s, [d]).expr)
  {
    assert !IsOperator(d);
    NoAdjacentOperatorsAppend(s.expr, [d]);
  }

  /** Neither does an operator of at most one character: the guard refuses a second operator. */
  lemma AddOperatorKeepsOperatorsApart(s: State, op: string)
    requires NoAdjacentOperators(s.expr)
    requires |op| <= 1
    ensures NoAdjacentOperators(AddOperator(s, op).expr)
  {
    if AcceptsOperator(s) {
      NoAdjacentOperatorsAppend(s.expr, BufferOperator(op));
    }
  }

  /** Nor backspace, which only shortens the buffer. */
  lemma BackspaceKeepsOperatorsApart(s: State)
    requires NoAdjacentOperators(s.expr)
    ensures NoAdjacentOperators(Backspace(s).expr)
  {
    if s.expr != "" {
      NoAdjacentOperatorsPrefix(s.expr, |s.expr| - 1);
    }
  }

  /**
   `calculate` leaves a buffer without adjacent operators provided the result
   text it stores has none: on failure the buffer is empty.
   */
  lemma CalculateKeepsOperatorsApart(s: State, ev: Evaluator)
    requires s.expr != "" && ev(Submitted(s)).Some? ==> NoAdjacentOperators(ev(Submitted(s)).value)
    requires NoAdjacentOperators(s.expr)
    ensures NoAdjacentOperators(Calculate(s, ev).expr)
  {
  }

  /**
   An operator is absorbed by the one before it: once an operator has been
   accepted, a second one changes nothing.
   */
  lemma AddOperatorAbsorbs(s: State, op: string, op2: string)
    requires |BufferOperator(op)| == 1 && IsOperator(BufferOperator(op)[0])
    ensures AddOperator(AddOperator(s, op), op2) == AddOperator(s, op)
  {
    if AcceptsOperator(s) {
      var e := s.expr + BufferOperator(op);
      assert e[|e| - 1] == BufferOperator(op)[0];
    }
  }

  /**
   Backspace undoes one typed character exactly when the display was neither
   empty nor "Error" and the label was in step with the buffer.
   */
  lemma BackspaceUndoesAddNumber(s: State, c: char)
    ensures Backspace(AddNumber(s, [c])) == s <==>
      LabelInSync(s) && s.display != "" && s.display != ErrorText
  {
    var t := AddNumber(s, [c]);
    assert t.expr[..|t.expr| - 1] == s.expr;
    if !IsPlaceholder(s.display) && s.display != "" {
      assert t.display[..|t.display| - 1] == s.display;
    }
  }

  /**
   When the buffer does not end in an operator, `calculate` does not look at
   the display: any display gives the same outcome.
   */
  lemma CalculateIgnoresDisplay(s: State, d: string, ev: Evaluator)
    requires s.expr != "" && !EndsWithOperator(s.expr)
    ensures Calculate(s, ev) == Calculate(s.(display := d), ev)
  {
  }

  /** The digits and '.' a user may type into a number. */
  predicate IsNumberText(ds: string) {
    forall i :: 0 <= i < |ds| ==> ds[i] == '.' || IsDigit(ds[i])
  }

  /** Typing `ds` one character at a time. */
  function TypeText(s: State, ds: string): (r: State)
    decreases |ds|
  {
    if ds == [] then s else TypeText(AddNumber(s, [ds[0]]), ds[1..])
  }

  /** The text without its leading zeros. */
  function DropLeadingZeros(ds: string): (r: string)
    ensures |r| <= |ds| && r == ds[|ds| - |r|..]
    ensures r == [] || r[0] != '0'
    ensures forall i :: 0 <= i < |ds| - |r| ==> ds[i] == '0'
    decreases |ds|
  {
    if ds != [] && ds[0] == '0' then DropLeadingZeros(ds[1..]) else ds
  }

  /** What the display shows after `ds` is typed onto a display of "0". */
  function TypedNumber(ds: string): (r: string) {
    var t := DropLeadingZeros(ds);
    if t == [] then "0" else t
  }

  /** The rest of a number text is a number text. */
  lemma NumberTextTail(ds: string)
    requires ds != [] && IsNumberText(ds)
    ensures IsNumberText(ds[1..])
    ensures ds[0] == '.' || IsDigit(ds[0])
  {
    assert forall i :: 1 <= i < |ds| ==> ds[1..][i - 1] == ds[i];
  }

  /** Appending a digit or '.' to a non-empty display never yields a placeholder. */
  lemma ExtendedIsNotPlaceholder(d: string, c: char)
    requires d != ""
    requires c == '.' || IsDigit(c)
    ensures d + [c] != "" && !IsPlaceholder(d + [c])
  {
    var e := d + [c];
    assert |e| >= 2;
    assert e[|e| - 1] == c;
    assert ErrorText[4] == 'r';
  }

  /** One typed character, as the typing lemmas use it. */
  lemma TypeOne(s: State, ds: string)
    requires ds != [] && IsNumberText(ds)
    ensures IsNumberText(ds[1..])
    ensures ds[0] == '.' || IsDigit(ds[0])
    ensures AddNumber(s, [ds[0]]).expr + ds[1..] == s.expr + ds
    ensures AddNumber(s, [ds[0]]).history == s.history
  {
    NumberTextTail(ds);
    var e := AddNumber(s, [ds[0]]).expr;
    assert e == s.expr + [ds[0]];
    assert ds == [ds[0]] + ds[1..];
    assert e + ds[1..] == s.expr + ([ds[0]] + ds[1..]);
  }

  /** Typing onto a display that is neither empty nor a placeholder extends it. */
  lemma {:induction false} TypeTextExtends(s: State, ds: string)
    requires IsNumberText(ds)
    requires s.display != "" && !IsPlaceholder(s.display)
    ensures TypeText(s, ds).display == s.display + ds
    ensures TypeText(s, ds).expr == s.expr + ds
    ensures TypeText(s, ds).history == s.history
    decreases |ds|
  {
    if ds != [] {
      TypeOne(s, ds);
      var t := AddNumber(s, [ds[0]]);
      ExtendedIsNotPlaceholder(s.display, ds[0]);
      TypeTextExtends(t, ds[1..]);
      assert s.display + ds == t.display + ds[1..];
    }
  }

  /**
   Typing a number onto a display of "0" (or onto "Error", once at least one
   character is typed) shows it without its leading zeros, while the buffer
   keeps every character typed.
   */
  lemma {:induction false} TypeTextFromPlaceholder(s: State, ds: string)
    requires IsNumberText(ds)
    requires s.display == "0" || (s.display == ErrorText && ds != [])
    ensures TypeText(s, ds).display == TypedNumber(ds)
    ensures TypeText(s, ds).expr == s.expr + ds
    ensures TypeText(s, ds).history == s.history
    decreases |ds|
  {
    if ds != [] {
      TypeOne(s, ds);
      var t := AddNumber(s, [ds[0]]);
      assert t.display == [ds[0]];
      if ds[0] == '0' {
        TypeTextFromPlaceholder(t, ds[1..]);
      } else {
        assert DropLeadingZeros(ds) == ds;
        TypeTextExtends(t, ds[1..]);
        assert t.display + ds[1..] == ds;
      }
    }
  }
}
