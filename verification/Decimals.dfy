// Decimal numerals: printing, parsing, and the order of equally long ones.
module Decimals {
  import opened Rows

  predicate IsDigit(c: char) {
    '0' <= c <= '9'
  }

  predicate AllDigits(s: string) {
    forall i :: 0 <= i < |s| ==> IsDigit(s[i])
  }

  function Digit(c: char): (d: nat)
    requires IsDigit(c)
    ensures d < 10
  {
    (c - '0') as int
  }

  function Pow10(n: nat): (p: nat)
    ensures 0 < p
  {
    if n == 0 then 1 else 10 * Pow10(n - 1)
  }

  /** The number a string of digits stands for, leading zeros allowed. */
  function Value(s: string): (v: nat)
    requires AllDigits(s)
    ensures v < Pow10(|s|)
  {
    if s == [] then 0 else 10 * Value(s[..|s| - 1]) + Digit(s[|s| - 1])
  }

  /** Byte-wise string order. */
  predicate Less(a: string, b: string) {
    if b == [] then false
    else if a == [] then true
    else a[0] < b[0] || (a[0] == b[0] && Less(a[1..], b[1..]))
  }

  /** The first place at which the strings differ. */
  ghost predicate FirstDifference(a: string, b: string, k: int) {
    0 <= k < |a| && k < |b| && a[k] != b[k] && forall i :: 0 <= i < k ==> a[i] == b[i]
  }

  /** A string comes before another if it is a proper prefix of it, or smaller where they first differ. */
  lemma {:induction false} LessIff(a: string, b: string)
    ensures Less(a, b) <==> a < b || exists k :: FirstDifference(a, b, k) && a[k] < b[k]
    decreases |a|
  {
    if a != [] && b != [] {
      var x, y := a[1..], b[1..];
      if a[0] == b[0] {
        LessIff(x, y);
        forall k | 0 <= k
          ensures FirstDifference(x, y, k) <==> FirstDifference(a, b, k + 1)
        {
          if FirstDifference(a, b, k + 1) {
            assert forall i :: 0 <= i < k ==> x[i] == a[i + 1] && y[i] == b[i + 1];
          }
          if FirstDifference(x, y, k) {
            assert forall i :: 0 < i < k + 1 ==> a[i] == x[i - 1] && b[i] == y[i - 1];
          }
        }
        assert a == [a[0]] + x && b == [b[0]] + y;
        if k :| FirstDifference(a, b, k) && a[k] < b[k] {
          assert FirstDifference(x, y, k - 1);
        }
        if k :| FirstDifference(x, y, k) && x[k] < y[k] {
          assert FirstDifference(a, b, k + 1) && a[k + 1] < b[k + 1];
        }
      } else {
        assert FirstDifference(a, b, 0);
      }
    }
  }

  lemma {:induction false} ValueHead(s: string)
    requires AllDigits(s) && s != []
    ensures AllDigits(s[1..]) && Value(s) == Digit(s[0]) * Pow10(|s| - 1) + Value(s[1..])
  {
    var n := |s| - 1;
    if n == 0 {
      assert s[..0] == [] && s[1..] == [];
    } else {
      var front := s[..n];
      ValueHead(front);
      assert front[1..] == s[1..][..n - 1] && s[1..][n - 1] == s[n] && front[0] == s[0];
      assert Value(s[1..]) == 10 * Value(front[1..]) + Digit(s[n]);
      Scale(Digit(s[0]), n - 1);
    }
  }

  lemma Scale(d: nat, n: nat)
    ensures 10 * (d * Pow10(n)) == d * Pow10(n + 1)
  {
  }

  lemma LeadingDigit(d: nat, e: nat, p: nat, x: nat, y: nat)
    requires x < p && y < p && d < e
    ensures d * p + x < e * p + y
  {
    assert (d + 1) * p <= e * p;
  }

  /** For numerals of one length, string order is numeric order. */
  lemma {:induction false} LessIsSmaller(a: string, b: string)
    requires AllDigits(a) && AllDigits(b) && |a| == |b|
    ensures Less(a, b) <==> Value(a) < Value(b)
    decreases |a|
  {
    if a != [] {
      ValueHead(a);
      ValueHead(b);
      LessIsSmaller(a[1..], b[1..]);
      var d, e, p := Digit(a[0]), Digit(b[0]), Pow10(|a| - 1);
      if d < e {
        LeadingDigit(d, e, p, Value(a[1..]), Value(b[1..]));
      } else if e < d {
        LeadingDigit(e, d, p, Value(b[1..]), Value(a[1..]));
      }
    }
  }

  /** Decimal printing, without leading zeros. */
  function Print(n: nat): (s: string)
    ensures s != [] && AllDigits(s)
  {
    var c := '0' + (n % 10) as char;
    if n < 10 then [c] else Print(n / 10) + [c]
  }

  lemma {:induction false} PrintValue(n: nat)
    ensures Value(Print(n)) == n
  {
    var s := Print(n);
    if n < 10 {
      assert s[..0] == [];
    } else {
      PrintValue(n / 10);
      assert s[..|s| - 1] == Print(n / 10);
    }
  }

  /** strconv.ParseUint(s, 10, 32). */
  function ParseUint32(s: string): Option<nat> {
    if s == [] || !AllDigits(s) then None
    else if Value(s) < 0x1_0000_0000 then Some(Value(s))
    else None
  }

  lemma {:induction false} ParsePrint(n: nat)
    requires n < 0x1_0000_0000
    ensures ParseUint32(Print(n)) == Some(n)
  {
    PrintValue(n);
  }
}
