/**
 * The text forms the pooler's files are made of: decimal numbers, zero-padded
 * fields, lines and tab-separated fields, as Rust's formatting and `str`
 * methods read and write them.
 */
module Text {

  datatype Option<+T> = None | Some(value: T)

  const U64: nat := 0x1_0000_0000_0000_0000

  function Pow10(w: nat): (p: nat)
    ensures p > 0
  {
    if w == 0 then 1 else 10 * Pow10(w - 1)
  }

  function Digit(d: nat): char
    requires d < 10
  {
    '0' + d as char
  }

  predicate IsDigit(c: char) { '0' <= c <= '9' }

  function DigitValue(c: char): nat
    requires IsDigit(c)
  {
    (c - '0') as nat
  }

  /** `{n}`: the decimal digits of `n`, no leading zero. */
  function Decimal(n: nat): string {
    if n < 10 then [Digit(n)] else Decimal(n / 10) + [Digit(n % 10)]
  }

  /** `{n:0w}`: at least `w` digits, zeros in front. */
  function Padded(n: nat, w: nat): string {
    var s := Decimal(n);
    if |s| >= w then s else seq(w - |s|, _ => '0') + s
  }

  /** Exactly `w` digits. */
  function Fixed(n: nat, w: nat): (s: string)
    ensures |s| == w
  {
    if w == 0 then [] else Fixed(n / 10, w - 1) + [Digit(n % 10)]
  }

  lemma {:induction false} DecimalIsFixed(n: nat, w: nat)
    requires w > 0 && n < Pow10(w) && (w > 1 ==> n >= Pow10(w - 1))
    ensures Decimal(n) == Fixed(n, w)
  {
    if w > 1 {
      assert n / 10 < Pow10(w - 1);
      assert n >= 10;
      DecimalIsFixed(n / 10, w - 1);
    }
  }

  lemma {:induction false} FixedLeadingZero(n: nat, w: nat)
    requires n < Pow10(w)
    ensures Fixed(n, w + 1) == ['0'] + Fixed(n, w)
  {
    if w == 0 {
      assert Fixed(n, 1) == Fixed(0, 0) + [Digit(0)];
    } else {
      FixedLeadingZero(n / 10, w - 1);
    }
  }

  lemma {:induction false} PaddedIsFixed(n: nat, w: nat)
    requires w > 0 && n < Pow10(w)
    ensures Padded(n, w) == Fixed(n, w)
  {
    if w == 1 || n >= Pow10(w - 1) {
      DecimalIsFixed(n, w);
    } else {
      PaddedIsFixed(n, w - 1);
      FixedLeadingZero(n, w - 1);
      var s := Decimal(n);
      if |s| >= w - 1 {
        assert |s| == w - 1;
        assert seq(1, _ => '0') == ['0'];
      } else {
        assert seq(w - |s|, _ => '0') == ['0'] + seq(w - 1 - |s|, _ => '0');
      }
    }
  }

  // ---- order -----------------------------------------------------------------

  /** Byte-wise string order. */
  predicate Before(a: string, b: string) {
    if a == [] then b != []
    else b != [] && (a[0] < b[0] || (a[0] == b[0] && Before(a[1..], b[1..])))
  }

  lemma {:induction false} BeforeConcat(a: string, a': string, b: string, b': string)
    requires |a| == |a'|
    ensures Before(a + b, a' + b') <==> Before(a, a') || (a == a' && Before(b, b'))
  {
    if a == [] {
      assert a + b == b && a' + b' == b';
    } else {
      assert (a + b)[1..] == a[1..] + b && (a' + b')[1..] == a'[1..] + b';
      BeforeConcat(a[1..], a'[1..], b, b');
      assert a == [a[0]] + a[1..] && a' == [a'[0]] + a'[1..];
    }
  }

  lemma {:induction false} FixedOrder(m: nat, n: nat, w: nat)
    requires m < Pow10(w) && n < Pow10(w)
    ensures Before(Fixed(m, w), Fixed(n, w)) <==> m < n
    ensures Fixed(m, w) == Fixed(n, w) <==> m == n
  {
    if w > 0 {
      FixedOrder(m / 10, n / 10, w - 1);
      var last, last' := [Digit(m % 10)], [Digit(n % 10)];
      BeforeConcat(Fixed(m / 10, w - 1), Fixed(n / 10, w - 1), last, last');
      assert last[0] == Digit(m % 10) && last'[0] == Digit(n % 10);
      assert last[1..] == [] && last'[1..] == [];
      assert Fixed(m, w)[..w - 1] == Fixed(m / 10, w - 1) && Fixed(n, w)[..w - 1] == Fixed(n / 10, w - 1);
      assert Fixed(m, w)[w - 1] == Digit(m % 10) && Fixed(n, w)[w - 1] == Digit(n % 10);
    }
  }

  // ---- reading ---------------------------------------------------------------

  predicate AllDigits(s: string) { forall i :: 0 <= i < |s| ==> IsDigit(s[i]) }

  function Value(s: string): nat
    requires AllDigits(s)
  {
    if s == [] then 0 else 10 * Value(s[..|s| - 1]) + DigitValue(s[|s| - 1])
  }

  /** `s.parse::<u64>()`: an optional plus sign, then digits, within range. */
  function ParseU64(s: string): Option<nat> {
    var body := if s != [] && s[0] == '+' then s[1..] else s;
    if body == [] || !AllDigits(body) || Value(body) >= U64 then None else Some(Value(body))
  }

  lemma {:induction false} DecimalReads(n: nat)
    ensures Decimal(n) != [] && AllDigits(Decimal(n)) && Value(Decimal(n)) == n
  {
    var s := Decimal(n);
    if n < 10 {
      assert s[..0] == [];
    } else {
      DecimalReads(n / 10);
      assert s[..|s| - 1] == Decimal(n / 10);
    }
  }

  /** What `{n}` prints, `parse::<u64>` reads back. */
  lemma DecimalRoundTrip(n: nat)
    requires n < U64
    ensures ParseU64(Decimal(n)) == Some(n)
  {
    DecimalReads(n);
    assert IsDigit(Decimal(n)[0]);
  }

  /** The position of the first `c` in `s`, or its length. */
  function IndexOf(s: string, c: char): (i: nat)
    ensures i <= |s| && c !in s[..i] && (i < |s| ==> s[i] == c)
  {
    if s == [] || s[0] == c then 0 else
      var j := IndexOf(s[1..], c);
      assert s[..j + 1] == [s[0]] + s[1..][..j];
      j + 1
  }

  /** `s.split(c)`. */
  function Split(s: string, c: char): (fields: seq<string>)
    ensures fields != []
  {
    var i := IndexOf(s, c);
    if i == |s| then [s] else [s[..i]] + Split(s[i + 1..], c)
  }

  function StripCr(s: string): string {
    if s != [] && s[|s| - 1] == '\r' then s[..|s| - 1] else s
  }

  /** `s.lines()`: split at newlines, a trailing carriage return dropped with
      its newline, no empty last line. */
  function Lines(s: string): seq<string> {
    if s == [] then [] else
      var i := IndexOf(s, '\n');
      if i == |s| then [s] else [StripCr(s[..i])] + Lines(s[i + 1..])
  }

  lemma IndexOfFirst(a: string, c: char, rest: string)
    requires c !in a
    ensures IndexOf(a + [c] + rest, c) == |a|
  {
    var s := a + [c] + rest;
    assert s[|a|] == c && forall k :: 0 <= k < |a| ==> s[k] == a[k];
    assert forall i :: |a| < i <= |s| ==> s[|a|] in s[..i];
  }

  lemma SplitFirst(a: string, c: char, rest: string)
    requires c !in a
    ensures Split(a + [c] + rest, c) == [a] + Split(rest, c)
  {
    var s := a + [c] + rest;
    IndexOfFirst(a, c, rest);
    assert s[..|a|] == a && s[|a| + 1..] == rest;
  }

  lemma SplitWhole(a: string, c: char)
    requires c !in a
    ensures Split(a, c) == [a]
  {
    assert forall i :: 0 <= i < |a| ==> a[i] in a;
  }

  lemma LinesFirst(a: string, rest: string)
    requires '\n' !in a && (a == [] || a[|a| - 1] != '\r')
    ensures Lines(a + "\n" + rest) == [a] + Lines(rest)
  {
    var s := a + ['\n'] + rest;
    IndexOfFirst(a, '\n', rest);
    assert s == a + "\n" + rest && s[..|a|] == a && s[|a| + 1..] == rest;
  }

  lemma {:induction false} DecimalClean(n: nat)
    ensures '\t' !in Decimal(n) && '\n' !in Decimal(n)
  {
    DecimalReads(n);
    assert !IsDigit('\t') && !IsDigit('\n');
  }

  lemma LastLine(a: string)
    requires a != [] && a[|a| - 1] == '\n'
    ensures IndexOf(a, '\n') < |a|
  {
    assert a[|a| - 1] in a;
    assert a[..|a|] == a;
  }

  lemma LinesSplit(a: string, i: nat)
    requires i < |a| && a[i] == '\n' && '\n' !in a[..i]
    ensures Lines(a) == [StripCr(a[..i])] + Lines(a[i + 1..])
  {
    assert a == a[..i] + ['\n'] + a[i + 1..];
    IndexOfFirst(a[..i], '\n', a[i + 1..]);
  }

  lemma {:induction false} LinesAppend(a: string, line: string)
    requires a == [] || a[|a| - 1] == '\n'
    requires '\n' !in line && line != [] && line[|line| - 1] != '\r'
    ensures Lines(a + line + "\n") == Lines(a) + [line]
  {
    hide Lines, StripCr, IndexOf;
    if a == [] {
      LinesFirst(line, "");
      NoLines();
      assert a + line + "\n" == line + "\n" + "";
      assert [line] + [] == [] + [line];
    } else {
      LastLine(a);
      var i := IndexOf(a, '\n');
      var whole := a + line + "\n";
      var rest := a[i + 1..];
      assert whole[..i] == a[..i] && whole[i + 1..] == rest + line + "\n";
      LinesSplit(a, i);
      LinesSplit(whole, i);
      LinesAppend(rest, line);
      assert [StripCr(a[..i])] + (Lines(rest) + [line]) == ([StripCr(a[..i])] + Lines(rest)) + [line];
    }
  }

  /** Whole lines and what comes after them are read apart. */
  lemma {:induction false} LinesConcat(a: string, b: string)
    requires a == [] || a[|a| - 1] == '\n'
    ensures Lines(a + b) == Lines(a) + Lines(b)
  {
    hide Lines, StripCr, IndexOf;
    if a == [] {
      NoLines();
      assert a + b == b;
    } else {
      LastLine(a);
      var i := IndexOf(a, '\n');
      var rest := a[i + 1..];
      assert (a + b)[..i] == a[..i] && (a + b)[i + 1..] == rest + b;
      LinesSplit(a, i);
      LinesSplit(a + b, i);
      LinesConcat(rest, b);
    }
  }

  lemma NoLines()
    ensures Lines("") == []
  {
  }
}
