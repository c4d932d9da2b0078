/**
 * Text helpers shared by the migration engine and the chat side: splitting a
 * string at a separator character, and decimal numbers.
 */
module Text {

  /** Everything before the first `sep` of `s`, or all of `s` when it has none (`split(sep).next()`). */
  function BeforeFirst(s: string, sep: char): (t: string)
    ensures t <= s
    ensures sep !in t
    ensures |t| < |s| ==> s[|t|] == sep
  {
    if s == [] || s[0] == sep then [] else [s[0]] + BeforeFirst(s[1..], sep)
  }

  /** The second half of `split_once(sep)`, or the empty string when `s` has no `sep`. */
  function AfterFirst(s: string, sep: char): (t: string)
    ensures sep in s ==> s == BeforeFirst(s, sep) + [sep] + t
    ensures sep !in s ==> t == []
  {
    var head := BeforeFirst(s, sep);
    if |head| < |s| then
      assert s == head + [sep] + s[|head| + 1..];
      s[|head| + 1..]
    else []
  }

  /** Everything after the last `sep` of `s`, or all of `s` when it has none (`split(sep).next_back()`). */
  function AfterLast(s: string, sep: char): (t: string)
    ensures sep !in t
    ensures |t| <= |s| && t == s[|s| - |t|..]
    ensures |t| < |s| ==> s[|s| - |t| - 1] == sep
  {
    if s == [] || s[|s| - 1] == sep then []
    else
      var t := AfterLast(s[..|s| - 1], sep) + [s[|s| - 1]];
      assert s[|s| - |t|..] == s[..|s| - 1][|s| - |t|..] + [s[|s| - 1]];
      t
  }

  /** Splitting at the first separator takes back apart what joining put together. */
  lemma {:induction false} SplitFirstJoin(w: string, sep: char, rest: string)
    requires sep !in w
    ensures BeforeFirst(w + [sep] + rest, sep) == w
    ensures AfterFirst(w + [sep] + rest, sep) == rest
  {
    var s := w + [sep] + rest;
    if w != [] {
      assert s[1..] == w[1..] + [sep] + rest;
      SplitFirstJoin(w[1..], sep, rest);
    }
  }

  /** The piece after the last separator of a join is the last piece joined. */
  lemma {:induction false} SplitLastJoin(p: string, sep: char, w: string)
    requires sep !in w
    ensures AfterLast(p + [sep] + w, sep) == w
  {
    var s := p + [sep] + w;
    if w != [] {
      assert s[..|s| - 1] == p + [sep] + w[..|w| - 1];
      SplitLastJoin(p, sep, w[..|w| - 1]);
    }
  }

  predicate IsDigit(c: char) {
    '0' <= c <= '9'
  }

  predicate AllDigits(s: string) {
    forall i :: 0 <= i < |s| ==> IsDigit(s[i])
  }

  function DigitValue(c: char): nat
    requires IsDigit(c)
  {
    c as int - '0' as int
  }

  /** The value of a string of decimal digits, most significant first. */
  function DigitsValue(s: string): nat
    requires AllDigits(s)
  {
    if s == [] then 0 else DigitsValue(s[..|s| - 1]) * 10 + DigitValue(s[|s| - 1])
  }

  /** The decimal rendering of a number, as `to_string` writes it. */
  function Decimal(n: nat): (s: string)
    ensures |s| > 0 && AllDigits(s)
  {
    var last := ['0' + (n % 10) as char];
    if n < 10 then last else Decimal(n / 10) + last
  }

  /** Reading a decimal rendering back gives the number. */
  lemma {:induction false} DecimalValue(n: nat)
    ensures DigitsValue(Decimal(n)) == n
  {
    var s := Decimal(n);
    if n >= 10 {
      assert s[..|s| - 1] == Decimal(n / 10);
      DecimalValue(n / 10);
    }
  }

  lemma DecimalInjective(a: nat, b: nat)
    requires Decimal(a) == Decimal(b)
    ensures a == b
  {
    DecimalValue(a);
    DecimalValue(b);
  }
}
