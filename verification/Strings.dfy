/** Splitting text at a separator, and decimal numerals. */
module Strings {
  /** `s.split(separator)` for a one-character separator. */
  function Split(separator: char, s: string): (r: seq<string>)
    ensures r != []
  {
    if s == "" then [""]
    else
      var r := Split(separator, s[..|s| - 1]);
      if s[|s| - 1] == separator then r + [""] else r[..|r| - 1] + [r[|r| - 1] + [s[|s| - 1]]]
  }

  /** The parts with a separator between any two. */
  function Join(separator: char, parts: seq<string>): string
    requires parts != []
  {
    if |parts| == 1 then parts[0] else Join(separator, parts[..|parts| - 1]) + [separator] + parts[|parts| - 1]
  }

  lemma JoinLast(separator: char, parts: seq<string>, c: char)
    requires parts != []
    ensures Join(separator, parts + [""]) == Join(separator, parts) + [separator]
    ensures Join(separator, parts[..|parts| - 1] + [parts[|parts| - 1] + [c]]) == Join(separator, parts) + [c]
  {
    assert (parts + [""])[..|parts|] == parts;
    var grown := parts[..|parts| - 1] + [parts[|parts| - 1] + [c]];
    assert grown[..|grown| - 1] == parts[..|parts| - 1];
  }

  /** Splitting loses nothing, and no part holds a separator. */
  lemma {:induction false} JoinOfSplit(separator: char, s: string)
    ensures Join(separator, Split(separator, s)) == s
    ensures forall part :: part in Split(separator, s) ==> separator !in part
  {
    if s != "" {
      JoinOfSplit(separator, s[..|s| - 1]);
      JoinLast(separator, Split(separator, s[..|s| - 1]), s[|s| - 1]);
      assert s == s[..|s| - 1] + [s[|s| - 1]];
    }
  }

  lemma {:induction false} SplitConcat(separator: char, s: string, part: string)
    requires separator !in part
    ensures Split(separator, s + [separator] + part) == Split(separator, s) + [part]
  {
    if part == "" {
      assert (s + [separator] + part)[..|s|] == s;
    } else {
      var init, c := part[..|part| - 1], part[|part| - 1];
      assert part == init + [c];
      SplitConcat(separator, s, init);
      var all := s + [separator] + part;
      assert all[..|all| - 1] == s + [separator] + init;
      assert (Split(separator, s) + [init])[..|Split(separator, s)|] == Split(separator, s);
    }
  }

  lemma {:induction false} SplitWhole(separator: char, part: string)
    requires separator !in part
    ensures Split(separator, part) == [part]
  {
    if part != "" {
      assert part == part[..|part| - 1] + [part[|part| - 1]];
      SplitWhole(separator, part[..|part| - 1]);
    }
  }

  /** It gives back the parts of any text joined from parts without separators. */
  lemma {:induction false} SplitOfJoin(separator: char, parts: seq<string>)
    requires parts != [] && forall part :: part in parts ==> separator !in part
    ensures Split(separator, Join(separator, parts)) == parts
  {
    var last := parts[|parts| - 1];
    if |parts| == 1 {
      SplitWhole(separator, last);
    } else {
      var init := parts[..|parts| - 1];
      assert parts == init + [last];
      SplitOfJoin(separator, init);
      SplitConcat(separator, Join(separator, init), last);
    }
  }

  predicate IsDigit(c: char) { '0' <= c <= '9' }

  function Digit(d: nat): (c: char)
    requires d < 10
    ensures IsDigit(c)
  {
    ['0', '1', '2', '3', '4', '5', '6', '7', '8', '9'][d]
  }

  function Decimal(n: nat): string {
    if n < 10 then [Digit(n)] else Decimal(n / 10) + [Digit(n % 10)]
  }

  lemma {:induction false} DecimalDigits(n: nat)
    ensures Decimal(n) != [] && forall i :: 0 <= i < |Decimal(n)| ==> IsDigit(Decimal(n)[i])
  {
    if n >= 10 {
      DecimalDigits(n / 10);
    }
  }

  lemma DigitInjective(d: nat, e: nat)
    requires d < 10 && e < 10 && Digit(d) == Digit(e)
    ensures d == e
  {
  }

  lemma DecimalShape(n: nat)
    ensures n < 10 ==> Decimal(n) == [Digit(n)]
    ensures n >= 10 ==> Decimal(n) == Decimal(n / 10) + [Digit(n % 10)] && Decimal(n / 10) != []
  {
    DecimalDigits(n / 10);
  }

  lemma LastApart(a: string, x: char, b: string, y: char)
    requires a + [x] == b + [y]
    ensures a == b && x == y
  {
    assert a == (a + [x])[..|a|] && b == (b + [y])[..|b|];
    assert (a + [x])[|a|] == x && (b + [y])[|b|] == y;
  }

  lemma {:induction false} DecimalInjective(m: nat, n: nat)
    requires Decimal(m) == Decimal(n)
    ensures m == n
  {
    DecimalShape(m);
    DecimalShape(n);
    hide Decimal, Digit;
    if m >= 10 && n >= 10 {
      LastApart(Decimal(m / 10), Digit(m % 10), Decimal(n / 10), Digit(n % 10));
      DecimalInjective(m / 10, n / 10);
      DigitInjective(m % 10, n % 10);
    } else if m < 10 && n < 10 {
      DigitInjective(m, n);
    } else {
      assert false;
    }
  }
}
