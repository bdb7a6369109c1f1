/** Splitting text at a separator, decimal numbers and square names. */
module Text {
  import opened Wrappers
  import opened Chess

  // ---- Splitting ----

  /** The pieces of `s` between separators; always at least one. */
  function Split(s: string, sep: char): (parts: seq<string>)
    ensures |parts| >= 1
  {
    if s == "" then [""]
    else
      var rest := Split(s[1..], sep);
      if s[0] == sep then [""] + rest else [[s[0]] + rest[0]] + rest[1..]
  }

  lemma {:induction false} SplitWhole(s: string, sep: char)
    requires sep !in s
    ensures Split(s, sep) == [s]
  {
    if s != "" {
      SplitWhole(s[1..], sep);
      assert s == [s[0]] + s[1..];
    }
  }

  /** Splitting undoes joining two texts, the first of which is free of separators. */
  lemma {:induction false} SplitJoined(a: string, b: string, sep: char)
    requires sep !in a
    ensures Split(a + [sep] + b, sep) == [a] + Split(b, sep)
  {
    var s := a + [sep] + b;
    if a == "" {
      assert s[1..] == b;
    } else {
      SplitJoined(a[1..], b, sep);
      assert s[1..] == a[1..] + [sep] + b;
      assert a == [a[0]] + a[1..];
    }
  }

  // ---- Decimal numbers ----

  predicate IsDigit(c: char) {
    '0' <= c <= '9'
  }

  function DigitValue(c: char): (d: nat)
    requires IsDigit(c)
    ensures d <= 9
  {
    c as int - '0' as int
  }

  function DigitChar(d: nat): (c: char)
    requires d <= 9
    ensures IsDigit(c) && DigitValue(c) == d
  {
    (d + '0' as int) as char
  }

  predicate AllDigits(s: string) {
    forall i :: 0 <= i < |s| ==> IsDigit(s[i])
  }

  function Value(s: string): nat
    requires AllDigits(s)
  {
    if s == "" then 0 else 10 * Value(s[..|s| - 1]) + DigitValue(s[|s| - 1])
  }

  /** Digits only, at least one, and a value that fits; leading zeros are let through. */
  function ParseDecimal(s: string, max: nat): Option<nat> {
    if s != "" && AllDigits(s) && Value(s) <= max then Some(Value(s)) else None
  }

  function Decimal(n: nat): string {
    if n < 10 then [DigitChar(n)] else Decimal(n / 10) + [DigitChar(n % 10)]
  }

  lemma {:induction false} DecimalValue(n: nat)
    ensures Decimal(n) != "" && AllDigits(Decimal(n)) && Value(Decimal(n)) == n
  {
    if n >= 10 {
      DecimalValue(n / 10);
      var s := Decimal(n);
      assert s[..|s| - 1] == Decimal(n / 10);
    } else {
      assert Decimal(n)[..0] == "";
    }
  }

  /** The number reader, one character at a time, as a loop. */
  method ReadDecimal(s: string, max: nat) returns (r: Option<nat>)
    ensures r == ParseDecimal(s, max)
  {
    if s == "" {
      return None;
    }
    var n := 0;
    for i := 0 to |s|
      invariant AllDigits(s[..i]) && n == Value(s[..i])
      invariant n <= max
    {
      if !IsDigit(s[i]) {
        return None;
      }
      ghost var prefix := s[..i + 1];
      assert prefix[..i] == s[..i];
      var next := 10 * n + DigitValue(s[i]);
      if next > max {
        if AllDigits(s) { ValueGrows(s, i + 1); }
        return None;
      }
      n := next;
    }
    assert s[..|s|] == s;
    return Some(n);
  }

  lemma {:induction false} ValueGrows(s: string, i: nat)
    requires AllDigits(s) && i <= |s|
    ensures Value(s) >= Value(s[..i])
  {
    if i < |s| {
      var t := s[..|s| - 1];
      ValueGrows(t, i);
      assert t[..i] == s[..i];
    } else {
      assert s[..i] == s;
    }
  }

  // ---- Square names ----

  function FileChar(f: Coordinate): char {
    (f + 'a' as int) as char
  }

  function RankChar(r: Coordinate): char {
    (r + '1' as int) as char
  }

  function SquareName(s: Square): string {
    [FileChar(File(s)), RankChar(Rank(s))]
  }

  function ParseSquare(t: string): Option<Square> {
    if |t| == 2 && 'a' <= t[0] <= 'h' && '1' <= t[1] <= '8'
    then Some(At(t[0] as int - 'a' as int, t[1] as int - '1' as int))
    else None
  }

  /** Reading a square name is the exact inverse of writing one. */
  lemma SquareNames(t: string, s: Square)
    ensures ParseSquare(t) == Some(s) <==> t == SquareName(s)
  {
    if ParseSquare(t) == Some(s) {
      assert File(s) == t[0] as int - 'a' as int && Rank(s) == t[1] as int - '1' as int;
      assert t == [t[0], t[1]];
    }
  }
}
