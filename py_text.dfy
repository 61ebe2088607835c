/**
 * The few Python string built-ins the batch renderer relies on:
 * `str.strip()`, `str.lower()`, `str.split(sep)`, `int(text)` and `str(n)`,
 * written over `string` (a `seq<char>` of Unicode scalar values).
 */
module PyText {

  /** Non-ASCII code points that Python's `str.isspace()` accepts. */
  predicate IsWideSpace(n: int) {
    n == 0x85 || n == 0xA0 || n == 0x1680 || (0x2000 <= n <= 0x200A) ||
    n == 0x2028 || n == 0x2029 || n == 0x202F || n == 0x205F || n == 0x3000
  }

  /** Whitespace as `str.strip()` with no argument removes it (`str.isspace()`). */
  predicate IsStripSpace(c: char) {
    var n := c as int;
    (9 <= n <= 13) || (28 <= n <= 32) || IsWideSpace(n)
  }

  /**
   * Whitespace as `int()` skips it around a literal: the ASCII blanks
   * tab, line feed, vertical tab, form feed, carriage return and space,
   * plus the non-ASCII whitespace. The ASCII separators 0x1C-0x1F, which
   * `str.strip()` removes, are not skipped by `int()`.
   */
  predicate IsIntSpace(c: char) {
    var n := c as int;
    (9 <= n <= 13) || n == 32 || IsWideSpace(n)
  }

  /** The two notions of whitespace: that of `str.strip()` and that of `int()`. */
  datatype Blanks = StripBlanks | IntBlanks

  predicate IsBlank(c: char, blanks: Blanks) {
    if blanks == StripBlanks then IsStripSpace(c) else IsIntSpace(c)
  }

  /** Drops the leading characters that satisfy `ws`. */
  function TrimLeft(s: string, ws: Blanks): (r: string)
    ensures |r| <= |s|
  {
    if s != [] && IsBlank(s[0], ws) then TrimLeft(s[1..], ws) else s
  }

  /** Drops the trailing characters that satisfy `ws`. */
  function TrimRight(s: string, ws: Blanks): (r: string)
    ensures |r| <= |s|
  {
    if s != [] && IsBlank(s[|s| - 1], ws) then TrimRight(s[..|s| - 1], ws) else s
  }

  /**
   * `TrimLeft` removes exactly the longest prefix of blanks: what remains is
   * a suffix of the text, everything removed is blank, and what remains does
   * not start with a blank.
   */
  lemma {:induction false} TrimLeftSpec(s: string, ws: Blanks)
    ensures var r := TrimLeft(s, ws);
      && r == s[|s| - |r|..]
      && (forall i :: 0 <= i < |s| - |r| ==> IsBlank(s[i], ws))
      && (r == [] || !IsBlank(r[0], ws))
  {
    if s != [] && IsBlank(s[0], ws) {
      TrimLeftSpec(s[1..], ws);
    }
  }

  /**
   * `TrimRight` removes exactly the longest suffix of blanks: what remains is
   * a prefix of the text, everything removed is blank, and what remains does
   * not end with a blank.
   */
  lemma {:induction false} TrimRightSpec(s: string, ws: Blanks)
    ensures var r := TrimRight(s, ws);
      && r == s[..|r|]
      && (forall i :: |r| <= i < |s| ==> IsBlank(s[i], ws))
      && (r == [] || !IsBlank(r[|r| - 1], ws))
  {
    if s != [] && IsBlank(s[|s| - 1], ws) {
      TrimRightSpec(s[..|s| - 1], ws);
    }
  }

  /** Python `s.strip()`. */
  function Strip(s: string): string {
    TrimRight(TrimLeft(s, StripBlanks), StripBlanks)
  }

  /** `str.lower()` on one character, for the ASCII letters. */
  function LowerChar(c: char): char {
    if 'A' <= c <= 'Z' then (c as int + 32) as char else c
  }

  /** Python `s.lower()`, ASCII letters only. */
  function Lower(s: string): (r: string)
    ensures |r| == |s|
  {
    seq(|s|, i requires 0 <= i < |s| => LowerChar(s[i]))
  }

  /** `lower()` leaves a text without capital letters as it is. */
  lemma LowerUntouched(s: string)
    requires forall i :: 0 <= i < |s| ==> !('A' <= s[i] <= 'Z')
    ensures Lower(s) == s
  {
  }

  /** Python `s.split(sep)` for a one-character separator. */
  function Split(s: string, sep: char): (parts: seq<string>)
    ensures |parts| >= 1
    ensures forall k :: 0 <= k < |parts| ==> sep !in parts[k]
  {
    if s == [] then [[]]
    else
      var rest := Split(s[1..], sep);
      if s[0] == sep then [[]] + rest
      else [[s[0]] + rest[0]] + rest[1..]
  }

  /** A text with exactly one separator splits into the parts around it. */
  lemma SplitInTwo(a: string, sep: char, b: string)
    requires sep !in a && sep !in b
    ensures Split(a + [sep] + b, sep) == [a, b]
  {
    SplitAtSeparator(a, sep, b);
    SplitNoSeparator(b, sep);
  }

  /** Python `sep.join(parts)`, the inverse of `Split`. */
  function Join(parts: seq<string>, sep: char): string
    requires |parts| >= 1
  {
    if |parts| == 1 then parts[0] else parts[0] + [sep] + Join(parts[1..], sep)
  }

  /** Splitting and joining again gives the original text. */
  lemma {:induction false} JoinSplit(s: string, sep: char)
    ensures Join(Split(s, sep), sep) == s
  {
    if s != [] {
      JoinSplit(s[1..], sep);
      var rest := Split(s[1..], sep);
      if s[0] != sep {
        if |rest| == 1 {
          assert [s[0]] + rest[0] == s;
        } else {
          calc {
            Join(Split(s, sep), sep);
            ([s[0]] + rest[0]) + [sep] + Join(rest[1..], sep);
            [s[0]] + (rest[0] + [sep] + Join(rest[1..], sep));
            [s[0]] + Join(rest, sep);
            s;
          }
        }
      }
    }
  }

  /** A text without the separator is one part. */
  lemma {:induction false} SplitNoSeparator(s: string, sep: char)
    requires sep !in s
    ensures Split(s, sep) == [s]
  {
    if s != [] {
      SplitNoSeparator(s[1..], sep);
      assert [s[0]] + s[1..] == s;
    }
  }

  /** A separator-free prefix followed by the separator is the first part. */
  lemma {:induction false} SplitAtSeparator(a: string, sep: char, b: string)
    requires sep !in a
    ensures Split(a + [sep] + b, sep) == [a] + Split(b, sep)
  {
    if a == [] {
      assert a + [sep] + b == [sep] + b;
      assert ([sep] + b)[1..] == b;
    } else {
      SplitAtSeparator(a[1..], sep, b);
      assert (a + [sep] + b)[1..] == a[1..] + [sep] + b;
      assert [a[0]] + a[1..] == a;
    }
  }

  /** Joining parts that hold no separator and splitting again gives the parts back. */
  lemma {:induction false} SplitJoin(parts: seq<string>, sep: char)
    requires |parts| >= 1
    requires forall k :: 0 <= k < |parts| ==> sep !in parts[k]
    ensures Split(Join(parts, sep), sep) == parts
  {
    if |parts| == 1 {
      SplitNoSeparator(parts[0], sep);
    } else {
      SplitJoin(parts[1..], sep);
      SplitAtSeparator(parts[0], sep, Join(parts[1..], sep));
      assert [parts[0]] + parts[1..] == parts;
    }
  }

  predicate IsDigit(c: char) {
    '0' <= c <= '9'
  }

  /** Decimal digits, with single underscores allowed between digits. */
  predicate IsDigitRun(d: string) {
    && |d| > 0 && IsDigit(d[0]) && IsDigit(d[|d| - 1])
    && (forall i :: 0 <= i < |d| ==> IsDigit(d[i]) || d[i] == '_')
    && (forall i :: 0 <= i < |d| - 1 && d[i] == '_' ==> d[i + 1] != '_')
  }

  /** The text `int()` reads the sign and digits from. */
  function IntTrim(s: string): string {
    TrimRight(TrimLeft(s, IntBlanks), IntBlanks)
  }

  /** The digits after an optional leading sign. */
  function Unsigned(t: string): string {
    if |t| > 0 && (t[0] == '+' || t[0] == '-') then t[1..] else t
  }

  /**
   * The texts Python's `int(s)` accepts in base 10: optional whitespace,
   * an optional sign, a digit run, optional whitespace. This stands in for
   * the interpreter's own parser.
   */
  predicate IsIntLiteral(s: string) {
    IsDigitRun(Unsigned(IntTrim(s)))
  }

  function DigitValue(c: char): nat
    requires IsDigit(c)
  {
    c as int - '0' as int
  }

  /** The decimal value of a digit run, underscores ignored. */
  function DigitsValue(d: string): nat {
    if d == [] then 0
    else if d[|d| - 1] == '_' then DigitsValue(d[..|d| - 1])
    else if IsDigit(d[|d| - 1]) then DigitsValue(d[..|d| - 1]) * 10 + DigitValue(d[|d| - 1])
    else DigitsValue(d[..|d| - 1])
  }

  /** The value of `int(s)` for a text `int()` accepts. */
  function IntValue(s: string): int
    requires IsIntLiteral(s)
  {
    var t := IntTrim(s);
    var v: int := DigitsValue(Unsigned(t));
    if t[0] == '-' then -v else v
  }

  function DigitChar(d: nat): (c: char)
    requires d < 10
    ensures IsDigit(c) && DigitValue(c) == d
  {
    ('0' as int + d) as char
  }

  /** Python `str(n)` for `n >= 0`: the shortest decimal numeral. */
  function NatStr(n: nat): (s: string)
    ensures |s| > 0
  {
    if n < 10 then [DigitChar(n)] else NatStr(n / 10) + [DigitChar(n % 10)]
  }

  /** The numeral is made of digits only and has no leading zero. */
  lemma {:induction false} NatStrShape(n: nat)
    ensures forall i :: 0 <= i < |NatStr(n)| ==> IsDigit(NatStr(n)[i])
    ensures |NatStr(n)| > 1 ==> NatStr(n)[0] != '0'
  {
    if n >= 10 {
      NatStrShape(n / 10);
    }
  }

  /** Python `str(n)`: the numeral of `n`, with a minus sign when negative. */
  function Str(n: int): string {
    if n < 0 then "-" + NatStr(-n) else NatStr(n)
  }

  lemma {:induction false} NatStrValue(n: nat)
    ensures DigitsValue(NatStr(n)) == n
  {
    var s := NatStr(n);
    if n >= 10 {
      NatStrValue(n / 10);
      assert s[..|s| - 1] == NatStr(n / 10);
    }
  }

  /** Trimming leaves a text alone whose two ends are not blanks. */
  lemma TrimUntouched(s: string, ws: Blanks)
    requires s != [] && !IsBlank(s[0], ws) && !IsBlank(s[|s| - 1], ws)
    ensures TrimRight(TrimLeft(s, ws), ws) == s
  {
  }

  /** A numeral `str` produces for a natural number is a digit run. */
  lemma NatStrIsDigitRun(n: nat)
    ensures IsDigitRun(NatStr(n))
  {
    NatStrShape(n);
  }

  /** `int(str(n)) == n`: every numeral `str` produces is read back by `int()`. */
  lemma StrRoundTrip(n: int)
    ensures IsIntLiteral(Str(n)) && IntValue(Str(n)) == n
  {
    var s := Str(n);
    var m: nat := if n < 0 then -n else n;
    var d := NatStr(m);
    NatStrIsDigitRun(m);
    NatStrValue(m);
    assert IsDigit(d[0]) && IsDigit(d[|d| - 1]);
    if n < 0 {
      assert s == "-" + d;
      assert s[|s| - 1] == d[|d| - 1];
      TrimUntouched(s, IntBlanks);
      assert Unsigned(s) == d;
    } else {
      assert s == d;
      TrimUntouched(s, IntBlanks);
      assert Unsigned(s) == d;
    }
  }

  /**
   * `str(w) + "x" + str(h)` is left alone by `strip()` and `lower()`: it
   * starts with a digit or a minus sign, ends with a digit and holds no
   * capital letter.
   */
  lemma SizeTextUntouched(w: int, h: int)
    ensures var s := Str(w) + "x" + Str(h);
      Strip(s) == s && Lower(s) == s && 'x' !in Str(w) && 'x' !in Str(h)
  {
    var a, b := Str(w), Str(h);
    var s := a + "x" + b;
    StrShape(w);
    StrShape(h);
    assert s[0] == a[0] && s[|s| - 1] == b[|b| - 1];
    TrimUntouched(s, StripBlanks);
    forall i | 0 <= i < |s|
      ensures !('A' <= s[i] <= 'Z')
    {
      if i < |a| {
        assert s[i] == a[i];
      } else if i > |a| {
        assert s[i] == b[i - |a| - 1];
      }
    }
    LowerUntouched(s);
  }

  /** `str(n)` is digits after an optional minus sign, and ends in a digit. */
  lemma StrShape(n: int)
    ensures Str(n) != [] && IsDigit(Str(n)[|Str(n)| - 1])
    ensures forall i :: 0 <= i < |Str(n)| ==> IsDigit(Str(n)[i]) || (i == 0 && Str(n)[i] == '-')
  {
    var m: nat := if n < 0 then -n else n;
    NatStrShape(m);
    if n < 0 {
      assert forall i :: 1 <= i < |Str(n)| ==> Str(n)[i] == NatStr(m)[i - 1];
    }
  }
}
