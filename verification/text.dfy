/**
 Character-level vocabulary of the calculator: the four operator characters
 the expression buffer may hold, the two display symbols the expression label
 uses in their place, and the rewrite between the two notations.
 */
module Text {

  /** The division and multiplication signs shown on buttons and in the label. */
  const DivideSign: char := '\U{00F7}'
  const TimesSign: char := '\U{00D7}'

  /** The operator characters of the buffer, in the order the source lists them. */
  const OperatorChars: string := "+-*/"

  predicate IsOperator(c: char) {
    c in OperatorChars
  }

  /** True iff the buffer is non-empty and its last character is an operator. */
  predicate EndsWithOperator(s: string) {
    |s| > 0 && IsOperator(s[|s| - 1])
  }

  /** Positions `i` and `i + 1` both hold operator characters. */
  predicate OperatorPairAt(s: string, i: int)
    requires 0 <= i < |s| - 1
  {
    IsOperator(s[i]) && IsOperator(s[i + 1])
  }

  /** The buffer invariant: two operators never stand next to each other. */
  predicate NoAdjacentOperators(s: string) {
    forall i :: 0 <= i < |s| - 1 ==> !OperatorPairAt(s, i)
  }

  /** Python's `s.replace(a, b)` for single characters `a` and `b`. */
  function Replace(s: string, a: char, b: char): (r: string)
    ensures |r| == |s|
    ensures forall i :: 0 <= i < |s| ==> r[i] == (if s[i] == a then b else s[i])
  {
    if s == [] then [] else [if s[0] == a then b else s[0]] + Replace(s[1..], a, b)
  }

  /** The label text of a buffer: `replace('/', '÷').replace('*', '×')`. */
  function Rewrite(s: string): (r: string)
    ensures |r| == |s|
    ensures '/' !in r && '*' !in r
    ensures forall i :: 0 <= i < |s| ==>
      && (s[i] == '/' ==> r[i] == DivideSign)
      && (s[i] == '*' ==> r[i] == TimesSign)
      && (s[i] != '/' && s[i] != '*' ==> r[i] == s[i])
  {
    Replace(Replace(s, '/', DivideSign), '*', TimesSign)
  }

  /** The reverse notation change, from display symbols back to buffer operators. */
  function Unrewrite(s: string): (r: string)
    ensures |r| == |s|
  {
    Replace(Replace(s, DivideSign, '/'), TimesSign, '*')
  }

  /**
   The label loses nothing: a buffer that holds no display symbol is recovered
   from its label.
   */
  lemma RewriteRoundTrip(s: string)
    requires DivideSign !in s && TimesSign !in s
    ensures Unrewrite(Rewrite(s)) == s
  {
    var r := Unrewrite(Rewrite(s));
    forall i | 0 <= i < |s|
      ensures r[i] == s[i]
    {
      assert s[i] != DivideSign && s[i] != TimesSign by {
        assert s[i] in s;
      }
    }
  }

  /** A text without '/' and '*' is its own label. */
  lemma RewriteNoOperatorSigns(t: string)
    requires '/' !in t && '*' !in t
    ensures Rewrite(t) == t
  {
    forall i | 0 <= i < |t|
      ensures Rewrite(t)[i] == t[i]
    {
      assert t[i] in t;
    }
  }

  /** A prefix of a buffer without adjacent operators has none either. */
  lemma NoAdjacentOperatorsPrefix(s: string, n: nat)
    requires n <= |s|
    requires NoAdjacentOperators(s)
    ensures NoAdjacentOperators(s[..n])
  {
    var p := s[..n];
    forall i | 0 <= i < |p| - 1
      ensures !OperatorPairAt(p, i)
    {
      assert p[i] == s[i] && p[i + 1] == s[i + 1];
      assert !OperatorPairAt(s, i);
    }
  }

  /**
   Appending one character keeps the buffer free of adjacent operators unless
   both the old last character and the new one are operators.
   */
  lemma NoAdjacentOperatorsAppend(s: string, c: string)
    requires |c| <= 1
    requires NoAdjacentOperators(s)
    requires |c| == 1 && IsOperator(c[0]) ==> !EndsWithOperator(s)
    ensures NoAdjacentOperators(s + c)
  {
    var t := s + c;
    forall i | 0 <= i < |t| - 1
      ensures !OperatorPairAt(t, i)
    {
      assert t[i] == s[i];
      if i < |s| - 1 {
        assert t[i + 1] == s[i + 1];
        assert !OperatorPairAt(s, i);
      } else {
        assert t[i + 1] == c[0];
      }
    }
  }
}
