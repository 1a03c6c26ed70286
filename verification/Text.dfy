/** Decimal numerals as `std::to_string` prints them and `std::stoi` reads them, string order and string search. */
module Text {
  import opened Bytes

  predicate IsDigit(c: char)
  {
    '0' <= c <= '9'
  }

  predicate AllDigits(s: string)
  {
    forall i :: 0 <= i < |s| ==> IsDigit(s[i])
  }

  function Digit(d: nat): (c: char)
    requires d < 10
    ensures IsDigit(c)
  {
    '0' + d as char
  }

  function DigitValue(c: char): (d: nat)
    requires IsDigit(c)
    ensures d < 10
  {
    (c - '0') as nat
  }

  /** `std::to_string` of a non-negative number. */
  function Dec(n: nat): (s: string)
    ensures s != [] && AllDigits(s)
  {
    if n < 10 then [Digit(n)] else Dec(n / 10) + [Digit(n % 10)]
  }

  /** The number a string of digits stands for. */
  function Value(s: string): (n: nat)
    requires AllDigits(s)
  {
    if s == [] then 0 else 10 * Value(s[..|s| - 1]) + DigitValue(s[|s| - 1])
  }

  lemma {:induction false} ValueOfDec(n: nat)
    ensures Value(Dec(n)) == n
  {
    if n >= 10 {
      ValueOfDec(n / 10);
      assert Dec(n)[..|Dec(n)| - 1] == Dec(n / 10);
    }
  }

  /** Different numbers print differently. */
  lemma DecInjective(m: nat, n: nat)
    requires Dec(m) == Dec(n)
    ensures m == n
  {
    ValueOfDec(m);
    ValueOfDec(n);
  }

  lemma {:induction false} DecLength(m: nat, n: nat)
    requires m <= n
    ensures |Dec(m)| <= |Dec(n)|
  {
    if m >= 10 {
      DecLength(m / 10, n / 10);
    }
  }

  // ----- padding with zeros

  function Zeros(k: nat): (s: string)
    ensures |s| == k && forall i :: 0 <= i < k ==> s[i] == '0'
  {
    seq(k, i => '0')
  }

  lemma {:induction false} ValuePadded(k: nat, s: string)
    requires AllDigits(s)
    ensures Value(Zeros(k) + s) == Value(s)
  {
    var t := Zeros(k) + s;
    if s != [] {
      assert t[..|t| - 1] == Zeros(k) + s[..|s| - 1];
      ValuePadded(k, s[..|s| - 1]);
    } else {
      assert t == Zeros(k);
      ValueZeros(k);
    }
  }

  lemma {:induction false} ValueZeros(k: nat)
    ensures Value(Zeros(k)) == 0
  {
    if k > 0 {
      assert Zeros(k)[..k - 1] == Zeros(k - 1);
      ValueZeros(k - 1);
    }
  }

  // ----- order of strings

  /** `a < b` as `std::string` compares. */
  predicate LexLess(a: string, b: string)
  {
    b != [] && (a == [] || a[0] < b[0] || (a[0] == b[0] && LexLess(a[1..], b[1..])))
  }

  lemma {:induction false} LexPrefix(p: string, a: string, b: string)
    requires LexLess(a, b)
    ensures LexLess(p + a, p + b)
  {
    if p == [] {
      assert p + a == a && p + b == b;
    } else {
      assert (p + a)[1..] == p[1..] + a && (p + b)[1..] == p[1..] + b;
      LexPrefix(p[1..], a, b);
    }
  }

  function Pow10(k: nat): (r: nat)
    ensures r > 0
  {
    if k == 0 then 1 else 10 * Pow10(k - 1)
  }

  lemma {:induction false} ValueFront(s: string)
    requires AllDigits(s) && s != []
    ensures Value(s) == DigitValue(s[0]) * Pow10(|s| - 1) + Value(s[1..])
    ensures Value(s[1..]) < Pow10(|s| - 1)
  {
    var n := |s| - 1;
    if n > 0 {
      var front, tail := s[..n], s[1..];
      ValueFront(front);
      assert front[1..] == tail[..n - 1];
      TenTimes(DigitValue(s[0]), Pow10(n - 1));
      assert Value(tail) == 10 * Value(front[1..]) + DigitValue(s[n]);
    } else {
      assert Value(s[..0]) == 0;
    }
  }

  lemma TenTimes(d: nat, p: nat)
    ensures 10 * (d * p) == d * (10 * p)
  {
  }

  /** The leading digit decides unless the leading digits agree. */
  lemma LeadingDigit(da: nat, ra: nat, db: nat, rb: nat, p: nat)
    requires ra < p && rb < p
    ensures da < db ==> da * p + ra < db * p + rb
    ensures da == db ==> (da * p + ra < db * p + rb <==> ra < rb)
  {
    if da < db {
      assert (da + 1) * p <= db * p;
    }
  }

  /** Between numerals of equal length, string order is number order. */
  lemma {:induction false} LexIsNumeric(a: string, b: string)
    requires AllDigits(a) && AllDigits(b) && |a| == |b|
    ensures LexLess(a, b) <==> Value(a) < Value(b)
  {
    if a != [] {
      ValueFront(a);
      ValueFront(b);
      LexIsNumeric(a[1..], b[1..]);
      var da, ra, db, rb, p := DigitValue(a[0]), Value(a[1..]), DigitValue(b[0]), Value(b[1..]), Pow10(|a| - 1);
      LeadingDigit(da, ra, db, rb, p);
      LeadingDigit(db, rb, da, ra, p);
    }
  }

  // ----- reading

  const INT_MAX: int := 0x7FFF_FFFF

  predicate IsSpace(c: char)
  {
    c == ' ' || ('\t' <= c <= '\r')
  }

  /** The longest run of digits at the front. */
  function DigitRun(s: string): (r: string)
    ensures AllDigits(r) && r <= s
  {
    if s == [] || !IsDigit(s[0]) then [] else [s[0]] + DigitRun(s[1..])
  }

  function SkipSpace(s: string): (r: string)
    ensures |r| <= |s|
  {
    if s != [] && IsSpace(s[0]) then SkipSpace(s[1..]) else s
  }

  /** `std::stoi`: spaces, a sign, digits; what follows is ignored. Throws without digits or out of range. */
  function Stoi(s: string): (r: Option<int>)
  {
    var t := SkipSpace(s);
    var negative := t != [] && t[0] == '-';
    var digits := DigitRun(if t != [] && (t[0] == '-' || t[0] == '+') then t[1..] else t);
    if digits == [] then None
    else
      var v: int := if negative then 0 - Value(digits) else Value(digits);
      if -INT_MAX - 1 <= v <= INT_MAX then Some(v) else None
  }

  lemma {:induction false} DigitRunWhole(s: string)
    requires AllDigits(s)
    ensures DigitRun(s) == s
  {
    if s != [] {
      DigitRunWhole(s[1..]);
    }
  }

  /** Printing then reading gives the number back exactly when it fits an `int`. */
  lemma StoiOfDec(n: nat)
    ensures Stoi(Dec(n)) == (if n <= INT_MAX then Some(n) else None)
  {
    DigitRunWhole(Dec(n));
    ValueOfDec(n);
    assert IsDigit(Dec(n)[0]);
  }

  // ----- searching

  /** Where the first `c` stands, or the length when there is none. */
  function Find(s: string, c: char): (i: nat)
    ensures i <= |s|
    ensures c !in s[..i]
    ensures i < |s| ==> s[i] == c
  {
    if s == [] || s[0] == c then 0 else 1 + Find(s[1..], c)
  }

  lemma {:induction false} FindAfter(a: string, c: char, b: string)
    requires c !in a
    ensures Find(a + [c] + b, c) == |a|
  {
    if a == [] {
      assert a + [c] + b == [c] + b;
    } else {
      assert (a + [c] + b)[1..] == a[1..] + [c] + b;
      assert a[0] in a;
      FindAfter(a[1..], c, b);
    }
  }
}
