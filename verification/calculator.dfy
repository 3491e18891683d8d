/**
 The calculator's input state machine: the value shown on the main display,
 the expression buffer that `eval` will read, the expression label shown under
 the display, and the list of past calculations. Every handler is a pure
 transition on that record.
 */
module Calculator {
  import opened Wrappers
  import opened Text

  /** The text the main display shows after a failed evaluation or function. */
  const ErrorText: string := "Error"

  /** History keeps only this many of the most recent calculations. */
  const HistoryCap: nat := 20

  /** The function buttons, in the order of the button grid. */
  const SquareRootSign: char := '\U{221A}'
  const FunctionNames: set<string> := {"sin", "cos", "tan", [SquareRootSign]}

  datatype State = State(
    display: string,      // the main display's text
    expr: string,         // the expression buffer, in buffer notation ('/', '*')
    exprLabel: string,    // the expression label under the display
    history: seq<string>  // "<expression> = <result>" entries, oldest first
  )

  /** Python's `eval` on a buffer followed by `str` of the value; `None` when it raises. */
  type Evaluator = string -> Option<string>

  /** `float(display)` followed by the named math function and `str`; `None` when either raises. */
  type Numeric = (string, string) -> Option<string>

  /** The state right after start-up: display "0", empty buffer, empty label, no history. */
  function Init(): (s: State)
    ensures s.display == "0" && s.expr == "" && s.history == []
    ensures s.exprLabel == Rewrite(s.expr)
  {
    State("0", "", "", [])
  }

  /** The label is the buffer in display notation. */
  predicate LabelInSync(s: State) {
    s.exprLabel == Rewrite(s.expr)
  }

  /** The invariant every state reachable from `Init` keeps under the corrected handlers. */
  predicate Valid(s: State) {
    |s.history| <= HistoryCap && LabelInSync(s)
  }

  /**
   The invariant the handlers as written keep: the label may fall out of step
   with the buffer, but only while the buffer is empty.
   */
  predicate ValidAsWritten(s: State) {
    |s.history| <= HistoryCap && (LabelInSync(s) || s.expr == "")
  }

  /** `update_expression_display`: the label is recomputed from the buffer, nothing else changes. */
  function Refresh(s: State): (r: State)
    ensures LabelInSync(r)
    ensures r.display == s.display && r.expr == s.expr && r.history == s.history
  {
    s.(exprLabel := Rewrite(s.expr))
  }

  /** Whether a display shows a placeholder that the next typed digit replaces. */
  predicate IsPlaceholder(display: string) {
    display == "0" || display == ErrorText
  }

  /**
   `add_number`: the typed text always goes to the end of the buffer; the
   display is replaced when it shows "0" or "Error" and extended otherwise.
   Typing "0" on a display of "0" therefore grows the buffer but not the display.
   */
  function AddNumber(s: State, number: string): (r: State)
    ensures r.expr == s.expr + number
    ensures IsPlaceholder(s.display) ==> r.display == number
    ensures !IsPlaceholder(s.display) ==> r.display == s.display + number
    ensures s.display == "0" && number == "0" ==> r.display == "0" && |r.expr| == |s.expr| + 1
    ensures LabelInSync(r)
    ensures r.history == s.history
  {
    var d := if IsPlaceholder(s.display) then number else s.display + number;
    Refresh(s.(display := d, expr := s.expr + number))
  }

  /** The `op_map` of `add_operator`: the two display signs become buffer operators. */
  function BufferOperator(op: string): (r: string) {
    if op == [DivideSign] then "/" else if op == [TimesSign] then "*" else op
  }

  /** The guard of `add_operator`: the buffer is non-empty and does not end in an operator. */
  predicate AcceptsOperator(s: State) {
    s.expr != "" && !EndsWithOperator(s.expr)
  }

  /**
   `add_operator`: when the buffer is non-empty and its last character is not
   an operator, the operator (with '÷' and '×' mapped to '/' and '*') is
   appended and the display is reset to "0"; otherwise the state is unchanged.
   */
  function AddOperator(s: State, op: string): (r: State)
    ensures AcceptsOperator(s) ==>
      && r.expr == s.expr + BufferOperator(op)
      && r.display == "0"
      && LabelInSync(r)
      && r.history == s.history
    ensures !AcceptsOperator(s) ==> r == s
  {
    if AcceptsOperator(s) then
      Refresh(s.(expr := s.expr + BufferOperator(op), display := "0"))
    else
      s
  }

  /**
   `backspace`: the display loses its last character when it has more than
   one, and otherwise becomes "0"; the buffer loses its last character when it
   has one. The label is only recomputed when the buffer was non-empty.
   */
  function Backspace(s: State): (r: State)
    ensures |s.display| > 1 ==> r.display == s.display[..|s.display| - 1]
    ensures |s.display| <= 1 ==> r.display == "0"
    ensures s.display == ErrorText ==> r.display == "Erro"
    ensures s.expr != "" ==> r.expr == s.expr[..|s.expr| - 1] && LabelInSync(r)
    ensures s.expr == "" ==> r.expr == "" && r.exprLabel == s.exprLabel
    ensures r.history == s.history
  {
    var d := if |s.display| > 1 then s.display[..|s.display| - 1] else "0";
    if s.expr != "" then
      Refresh(s.(display := d, expr := s.expr[..|s.expr| - 1]))
    else
      s.(display := d)
  }

  /** Whether a display text starts with a minus sign. */
  predicate IsNegated(display: string) {
    |display| > 0 && display[0] == '-'
  }

  /**
   `toggle_sign`: on any display other than "0" and "Error" one leading '-' is
   removed or added. Buffer, label and history are never touched, so the
   buffer does not see the sign.
   */
  function ToggleSign(s: State): (r: State)
    ensures r.expr == s.expr && r.exprLabel == s.exprLabel && r.history == s.history
    ensures IsPlaceholder(s.display) ==> r == s
    ensures !IsPlaceholder(s.display) && IsNegated(s.display) ==> "-" + r.display == s.display
    ensures !IsPlaceholder(s.display) && !IsNegated(s.display) ==> r.display == "-" + s.display
  {
    if IsPlaceholder(s.display) then s
    else if IsNegated(s.display) then s.(display := s.display[1..])
    else s.(display := "-" + s.display)
  }

  /**
   Toggling twice restores the display except when a leading '-' is removed
   and what remains is a placeholder ("-0", "-Error") or starts with '-' again.
   */
  lemma ToggleSignTwice(s: State)
    ensures ToggleSign(ToggleSign(s)) == s <==>
      || IsPlaceholder(s.display)
      || !IsNegated(s.display)
      || (!IsPlaceholder(s.display[1..]) && !IsNegated(s.display[1..]))
  {
    var d := s.display;
    var r := ToggleSign(ToggleSign(s));
    if !IsPlaceholder(d) {
      if IsNegated(d) {
        var t := d[1..];
        assert d == "-" + t;
        assert ToggleSign(s) == s.(display := t);
        if IsPlaceholder(t) {
          assert r.display == t;
          assert |r.display| < |d|;
        } else if IsNegated(t) {
          assert r.display == t[1..];
          assert |r.display| < |d|;
        } else {
          assert r.display == "-" + t;
        }
      } else {
        var m := "-" + d;
        assert ToggleSign(s) == s.(display := m);
        assert m[0] == '-' && m[1..] == d;
        assert m != "0" && m != ErrorText;
        assert r.display == d;
      }
    }
  }

  /** `clear`: display "0" and an empty buffer and label; history is kept. */
  function Clear(s: State): (r: State)
    ensures r == Init().(history := s.history)
  {
    Refresh(s.(display := "0", expr := ""))
  }

  /** `clear_history`: only the history is emptied. */
  function ClearHistory(s: State): (r: State)
    ensures r.history == []
    ensures r.display == s.display && r.expr == s.expr && r.exprLabel == s.exprLabel
  {
    s.(history := [])
  }

  /** Appends a calculation and drops the oldest entry once there are more than `HistoryCap`. */
  function Record(h: seq<string>, entry: string): (r: seq<string>)
    ensures |h| <= HistoryCap ==> |r| <= HistoryCap
    ensures |r| > 0 && r[|r| - 1] == entry
    ensures |h| < HistoryCap ==> r == h + [entry]
    ensures |h| == HistoryCap ==> r == h[1..] + [entry]
  {
    var g := h + [entry];
    if |g| > HistoryCap then g[1..] else g
  }

  /**
   The text `calculate` hands to `eval`: the buffer, followed by the display
   when it ends in an operator. The buffer is always a prefix of it.
   */
  function Submitted(s: State): (e: string)
    ensures s.expr <= e
  {
    if EndsWithOperator(s.expr) then s.expr + s.display else s.expr
  }

  /**
   `calculate`: a no-op on an empty buffer. Otherwise the submitted text is
   evaluated; on success the history gains "<text> = <result>" and display,
   buffer and label show the result; on failure the display reads "Error",
   buffer and label are emptied and the history is unchanged.
   */
  function Calculate(s: State, ev: Evaluator): (r: State)
    ensures s.expr == "" ==> r == s
    ensures s.expr != "" && ev(Submitted(s)).Some? ==>
      var res := ev(Submitted(s)).value;
      && r.display == res && r.expr == res && LabelInSync(r)
      && r.history == Record(s.history, Submitted(s) + " = " + res)
    ensures s.expr != "" && ev(Submitted(s)).None? ==>
      r == Init().(display := ErrorText, history := s.history)
    ensures |s.history| <= HistoryCap ==> |r.history| <= HistoryCap
  {
    if s.expr == "" then s
    else
      var e := Submitted(s);
      match ev(e)
      case Some(res) =>
        Refresh(s.(display := res, expr := res, history := Record(s.history, e + " = " + res)))
      case None =>
        Refresh(s.(display := ErrorText, expr := ""))
  }

  /**
   `apply_function` as the source writes it: on success display, buffer and
   label show the result; on failure the display reads "Error" and the buffer
   is emptied, but the label is left as it was. A name other than the four
   function buttons fails, since no result is ever bound for it.
   */
  function ApplyFunctionAsWritten(s: State, f: string, num: Numeric): (r: State)
    ensures r.history == s.history
    ensures f !in FunctionNames ==> r == s.(display := ErrorText, expr := "")
    ensures f in FunctionNames && num(f, s.display).Some? ==>
      r.display == num(f, s.display).value && r.expr == r.display && LabelInSync(r)
    ensures f in FunctionNames && num(f, s.display).None? ==>
      r == s.(display := ErrorText, expr := "")
    ensures ValidAsWritten(s) ==> ValidAsWritten(r)
  {
    var outcome := if f in FunctionNames then num(f, s.display) else None;
    match outcome
    case Some(res) => Refresh(s.(display := res, expr := res))
    case None => s.(display := ErrorText, expr := "")
  }

  /**
   A failed function leaves a stale label: `float(".")` raises, so pressing
   "sin" on a display of "." empties the buffer while the label still shows
   the previous expression.
   */
  lemma ApplyFunctionLeavesStaleLabel(num: Numeric)
    requires num("sin", ".") == None
    ensures
      var s := State(".", "3+.", "3+.", []);
      var r := ApplyFunctionAsWritten(s, "sin", num);
      LabelInSync(s) && r.expr == "" && r.exprLabel == "3+." && !LabelInSync(r)
  {
  }

  /**
   `apply_function` with the failure path also recomputing the label, as the
   failure path of `calculate` does; otherwise identical to the source.
   */
  function ApplyFunction(s: State, f: string, num: Numeric): (r: State)
    ensures LabelInSync(r)
    ensures r.history == s.history
    ensures r.display == ApplyFunctionAsWritten(s, f, num).display
    ensures r.expr == ApplyFunctionAsWritten(s, f, num).expr
    ensures (r.display == ErrorText && r.expr == "") || r.display == r.expr
  {
    Refresh(ApplyFunctionAsWritten(s, f, num))
  }
}
