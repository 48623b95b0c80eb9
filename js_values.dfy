/** JavaScript numbers and values as the dashboard script sees them: the
    readings' JSON values, `Number()` coercion, the comparison operators,
    `Math.max`, `Math.min`, `Math.round` and the decimal text of an integer. */
module JsValues {

  datatype Option<+T> = None | Some(value: T)

  /** A JavaScript number: finite, one of the two infinities, or NaN. */
  datatype Num = Finite(r: real) | PosInf | NegInf | NaN

  /** A JavaScript value read from the API's JSON: `null`, `undefined` (a
      missing field) or a number.  A numeric string is represented by the
      number `Number()` makes of it. */
  datatype JsValue = Null | Undefined | Val(n: Num)

  /** `Number(v)`: note that `Number(null)` is 0 and `Number(undefined)` is NaN. */
  function ToNumber(v: JsValue): (n: Num)
    ensures v.Val? ==> n == v.n
    ensures v.Null? ==> n == Finite(0.0)
    ensures v.Undefined? ==> n.NaN?
  {
    match v
    case Null => Finite(0.0)
    case Undefined => NaN
    case Val(x) => x
  }

  /** `parseFloat(v)` for the values the API sends: `null` and `undefined`
      give NaN, a number gives itself. */
  function ParseFloat(v: JsValue): (n: Num)
    ensures v.Val? ==> n == v.n
    ensures !v.Val? ==> n.NaN?
  {
    if v.Val? then v.n else NaN
  }

  /** `Number.isFinite(n)` */
  predicate IsFinite(n: Num) {
    n.Finite?
  }

  /** `isNaN(v)`, which coerces its argument with `Number()` first. */
  predicate IsNaN(v: JsValue) {
    ToNumber(v).NaN?
  }

  /** `a <= b`: false as soon as either side is NaN. */
  predicate Le(a: Num, b: Num) {
    if a.NaN? || b.NaN? then false
    else if a.NegInf? || b.PosInf? then true
    else if a.PosInf? || b.NegInf? then false
    else a.r <= b.r
  }

  /** `a < b`: false as soon as either side is NaN. */
  predicate Lt(a: Num, b: Num) {
    Le(a, b) && a != b
  }

  /** `v <= c`, `v < c`, `v >= c` and `v > c` for a literal `c`. */
  predicate AtMost(v: Num, c: real) { Le(v, Finite(c)) }
  predicate Below(v: Num, c: real) { Lt(v, Finite(c)) }
  predicate AtLeast(v: Num, c: real) { Le(Finite(c), v) }
  predicate Above(v: Num, c: real) { Lt(Finite(c), v) }

  lemma LeTotal(a: Num, b: Num)
    requires !a.NaN? && !b.NaN?
    ensures Le(a, b) || Le(b, a)
  {
  }

  lemma LeTransitive(a: Num, b: Num, c: Num)
    requires Le(a, b) && Le(b, c)
    ensures Le(a, c)
  {
  }

  /** `Math.max(a, b)` */
  function Max2(a: Num, b: Num): Num {
    if a.NaN? || b.NaN? then NaN else if Le(a, b) then b else a
  }

  /** `Math.min(a, b)` */
  function Min2(a: Num, b: Num): Num {
    if a.NaN? || b.NaN? then NaN else if Le(a, b) then a else b
  }

  /** `Math.max(...xs)`: -Infinity for no arguments, NaN if any argument is NaN. */
  function JsMax(xs: seq<Num>): Num {
    if |xs| == 0 then NegInf else Max2(JsMax(xs[..|xs| - 1]), xs[|xs| - 1])
  }

  /** `Math.min(...xs)`: Infinity for no arguments, NaN if any argument is NaN. */
  function JsMin(xs: seq<Num>): Num {
    if |xs| == 0 then PosInf else Min2(JsMin(xs[..|xs| - 1]), xs[|xs| - 1])
  }

  /** A non-empty list is its prefix without the last element, then that element. */
  lemma SplitLast(xs: seq<Num>)
    requires |xs| > 0
    ensures forall i :: 0 <= i < |xs| - 1 ==> xs[..|xs| - 1][i] == xs[i]
    ensures forall x :: x in xs <==> x in xs[..|xs| - 1] || x == xs[|xs| - 1]
  {
    assert xs == xs[..|xs| - 1] + [xs[|xs| - 1]];
  }

  /** `Math.max` is NaN exactly when some argument is; otherwise it is an upper
      bound of its arguments and, when there are any, one of them. */
  lemma {:induction false} JsMaxIsGreatest(xs: seq<Num>)
    ensures JsMax(xs).NaN? <==> NaN in xs
    ensures NaN !in xs ==> forall i :: 0 <= i < |xs| ==> Le(xs[i], JsMax(xs))
    ensures NaN !in xs && |xs| > 0 ==> JsMax(xs) in xs
  {
    if |xs| > 0 {
      var init, last := xs[..|xs| - 1], xs[|xs| - 1];
      SplitLast(xs);
      JsMaxIsGreatest(init);
      var m0 := JsMax(init);
      assert NaN in xs <==> NaN in init || last.NaN?;
      if NaN !in xs {
        LeTotal(m0, last);
        assert JsMax(xs) == if !Le(m0, last) then m0 else last;
        assert Le(last, JsMax(xs));
        if !Le(m0, last) {
          assert |init| > 0 ==> m0 in init;
          assert |init| == 0 ==> m0 == last;
        }
        forall i | 0 <= i < |xs| - 1
          ensures Le(xs[i], JsMax(xs))
        {
          if !Le(m0, last) {
            LeTransitive(xs[i], m0, JsMax(xs));
          } else {
            LeTransitive(xs[i], m0, last);
          }
        }
      }
    }
  }

  /** `Math.min` is NaN exactly when some argument is; otherwise it is a lower
      bound of its arguments and, when there are any, one of them. */
  lemma {:induction false} JsMinIsLeast(xs: seq<Num>)
    ensures JsMin(xs).NaN? <==> NaN in xs
    ensures NaN !in xs ==> forall i :: 0 <= i < |xs| ==> Le(JsMin(xs), xs[i])
    ensures NaN !in xs && |xs| > 0 ==> JsMin(xs) in xs
  {
    if |xs| > 0 {
      var init, last := xs[..|xs| - 1], xs[|xs| - 1];
      SplitLast(xs);
      JsMinIsLeast(init);
      var m0 := JsMin(init);
      assert NaN in xs <==> NaN in init || last.NaN?;
      if NaN !in xs {
        LeTotal(m0, last);
        assert JsMin(xs) == if Le(m0, last) then m0 else last;
        assert Le(JsMin(xs), last);
        if Le(m0, last) {
          assert |init| > 0 ==> m0 in init;
          assert |init| == 0 ==> m0 == last;
        }
        forall i | 0 <= i < |xs| - 1
          ensures Le(JsMin(xs), xs[i])
        {
          if Le(m0, last) {
            LeTransitive(JsMin(xs), m0, xs[i]);
          } else {
            LeTransitive(last, m0, xs[i]);
          }
        }
      }
    }
  }

  /** `Math.round(n)`: halves go up, infinities and NaN are unchanged. */
  function Round(n: Num): (m: Num)
    ensures n.Finite? <==> m.Finite?
    ensures n.Finite? ==> m.r == m.r.Floor as real && m.r - 0.5 <= n.r < m.r + 0.5
    ensures !n.Finite? ==> m == n
  {
    if n.Finite? then Finite((n.r + 0.5).Floor as real) else n
  }

  /** The decimal digit character of `d`. */
  function DigitChar(d: nat): (c: char)
    requires d < 10
    ensures DigitValue(c) == d
  {
    "0123456789"[d]
  }

  /** The value of a decimal digit character. */
  function DigitValue(c: char): int {
    if '0' <= c <= '9' then (c as int) - ('0' as int) else -1
  }

  /** The decimal text of a natural number, without leading zeros. */
  function NatToString(n: nat): (s: string)
    decreases n
  {
    if n < 10 then [DigitChar(n)] else NatToString(n / 10) + [DigitChar(n % 10)]
  }

  /** The decimal text of an integer, as JavaScript writes an integral number. */
  function IntToString(i: int): string {
    if i < 0 then "-" + NatToString(-i) else NatToString(i)
  }

  /** Reads a string of decimal digits back as a number; -1 if some character
      is not a digit or the string is empty. */
  function DigitsValue(s: string): int
    decreases |s|
  {
    if |s| == 0 then -1
    else if DigitValue(s[|s| - 1]) < 0 then -1
    else if |s| == 1 then DigitValue(s[0])
    else
      var rest := DigitsValue(s[..|s| - 1]);
      if rest < 0 then -1 else rest * 10 + DigitValue(s[|s| - 1])
  }

  /** Reads the decimal text of an integer back. */
  function ParseInt(s: string): Option<int> {
    if |s| > 0 && s[0] == '-' then
      var v := DigitsValue(s[1..]);
      if v < 0 then None else Some(-v)
    else
      var v := DigitsValue(s);
      if v < 0 then None else Some(v)
  }

  lemma {:induction false} NatToStringRoundTrip(n: nat)
    ensures |NatToString(n)| > 0
    ensures NatToString(n)[0] != '-'
    ensures DigitsValue(NatToString(n)) == n
    decreases n
  {
    if n >= 10 {
      var q, d := n / 10, n % 10;
      NatToStringRoundTrip(q);
      var p := NatToString(q);
      var s := p + [DigitChar(d)];
      assert NatToString(n) == s;
      assert s[..|s| - 1] == p && s[|s| - 1] == DigitChar(d) && s[0] == p[0];
      assert DigitsValue(s) == q * 10 + d;
    }
  }

  /** The decimal text of an integer reads back as that integer. */
  lemma IntToStringRoundTrip(i: int)
    ensures ParseInt(IntToString(i)) == Some(i)
  {
    var n: nat := if i < 0 then -i else i;
    var digits := NatToString(n);
    NatToStringRoundTrip(n);
    assert IntToString(i) == if i < 0 then "-" + digits else digits;
    ParseSigned(i, digits);
  }

  /** A sign in front of a string of digits that does not start with one. */
  lemma ParseSigned(i: int, digits: string)
    requires |digits| > 0 && digits[0] != '-'
    requires DigitsValue(digits) == if i < 0 then -i else i
    ensures ParseInt(if i < 0 then "-" + digits else digits) == Some(i)
  {
    if i < 0 {
      assert ("-" + digits)[1..] == digits;
    }
  }
}
