/**
 * The java.lang.String, Long and List operations the modelled code relies on,
 * written out over `seq<char>`: trim, indexOf/lastIndexOf, Long.parseLong and
 * Long.toString, String.hashCode (32-bit wrap-around) and joining.
 */
module JavaStrings {
  import opened Wrappers

  const LONG_MIN: int := -0x8000_0000_0000_0000
  const LONG_MAX: int := 0x7FFF_FFFF_FFFF_FFFF

  /** String.trim removes every character whose code is at most U+0020. */
  predicate IsTrimmed(c: char) {
    c <= ' '
  }

  /** True when `trim()` of the string is empty. */
  predicate IsBlank(s: string) {
    forall k :: 0 <= k < |s| ==> IsTrimmed(s[k])
  }

  /** Number of leading characters trim removes. */
  function Lead(s: string): (n: nat)
    ensures n <= |s|
    ensures forall k :: 0 <= k < n ==> IsTrimmed(s[k])
    ensures n < |s| ==> !IsTrimmed(s[n])
  {
    if |s| == 0 || !IsTrimmed(s[0]) then 0 else 1 + Lead(s[1..])
  }

  /** String.trim(): blank characters dropped at both ends. */
  function Trim(s: string): (r: string)
    ensures |r| <= |s|
    ensures r == [] <==> IsBlank(s)
    ensures r != [] ==> !IsTrimmed(r[0]) && !IsTrimmed(r[|r| - 1])
    decreases |s|
  {
    if s == [] then []
    else if IsTrimmed(s[0]) then
      assert forall k :: 1 <= k < |s| ==> s[k] == s[1..][k - 1];
      Trim(s[1..])
    else if IsTrimmed(s[|s| - 1]) then
      assert forall k :: 0 <= k < |s| - 1 ==> s[k] == s[..|s| - 1][k];
      Trim(s[..|s| - 1])
    else s
  }

  /** The string is blank, then its trimmed text, then blank again. */
  predicate TrimSplits(s: string) {
    && Lead(s) + |Trim(s)| <= |s|
    && s == s[..Lead(s)] + Trim(s) + s[Lead(s) + |Trim(s)|..]
    && IsBlank(s[..Lead(s)]) && IsBlank(s[Lead(s) + |Trim(s)|..])
  }

  lemma SplitsAfterLeading(s: string)
    requires s != [] && IsTrimmed(s[0]) && TrimSplits(s[1..])
    ensures TrimSplits(s)
  {
    var t := s[1..];
    var a, r := Lead(t), Trim(t);
    assert Lead(s) == a + 1 && Trim(s) == r;
    var p := s[..a + 1];
    assert p == [s[0]] + t[..a];
    assert IsBlank(p) by {
      forall k | 0 <= k < |p|
        ensures IsTrimmed(p[k])
      {
        if k > 0 {
          assert p[k] == t[..a][k - 1];
        }
      }
    }
    assert s[a + 1 + |r|..] == t[a + |r|..];
  }

  lemma SplitsBeforeTrailing(s: string)
    requires s != [] && !IsTrimmed(s[0]) && IsTrimmed(s[|s| - 1]) && TrimSplits(s[..|s| - 1])
    ensures TrimSplits(s)
  {
    var t := s[..|s| - 1];
    var r := Trim(t);
    assert Lead(s) == 0 && Lead(t) == 0 && Trim(s) == r;
    assert s[|r|..] == t[|r|..] + [s[|s| - 1]];
    assert s == t + [s[|s| - 1]];
  }

  /** Trim keeps exactly what lies between the leading and the trailing blanks. */
  lemma {:induction false} TrimSplit(s: string)
    ensures TrimSplits(s)
    decreases |s|
  {
    if s == [] {
    } else if IsTrimmed(s[0]) {
      TrimSplit(s[1..]);
      SplitsAfterLeading(s);
    } else if IsTrimmed(s[|s| - 1]) {
      TrimSplit(s[..|s| - 1]);
      SplitsBeforeTrailing(s);
    } else {
      assert Lead(s) == 0;
    }
  }

  lemma TrimOfTrimmed(f: string)
    requires f == [] || (!IsTrimmed(f[0]) && !IsTrimmed(f[|f| - 1]))
    ensures Trim(f) == f
  {
  }

  /** Blank padding around a string with non-blank ends is exactly what trim removes. */
  lemma {:induction false} TrimPadded(a: string, f: string, b: string)
    requires IsBlank(a) && IsBlank(b)
    requires f != [] && !IsTrimmed(f[0]) && !IsTrimmed(f[|f| - 1])
    ensures Trim(a + f + b) == f
    decreases |a|
  {
    var s := a + f + b;
    if |a| > 0 {
      assert s[1..] == a[1..] + f + b by {
        assert a == [a[0]] + a[1..];
        assert s == [a[0]] + (a[1..] + f + b);
      }
      assert Trim(s) == Trim(s[1..]) by {
        assert s[0] == a[0];
      }
      TrimPadded(a[1..], f, b);
    } else {
      assert s == f + b;
      TrimTrailing(f, b);
    }
  }

  /** Blank padding after a string with non-blank ends is what trim removes. */
  lemma {:induction false} TrimTrailing(f: string, b: string)
    requires IsBlank(b)
    requires f != [] && !IsTrimmed(f[0]) && !IsTrimmed(f[|f| - 1])
    ensures Trim(f + b) == f
    decreases |b|
  {
    var s := f + b;
    if |b| > 0 {
      var n := |b| - 1;
      assert s[..|s| - 1] == f + b[..n];
      assert Trim(s) == Trim(s[..|s| - 1]) by {
        assert s[0] == f[0] && s[|s| - 1] == b[n];
      }
      TrimTrailing(f, b[..n]);
    } else {
      assert s == f;
      assert Trim(f) == f;
    }
  }

  lemma TrimIdempotent(s: string)
    ensures Trim(Trim(s)) == Trim(s)
  {
    TrimOfTrimmed(Trim(s));
  }

  /**
   * String.indexOf(c, from): the first position at or after `from` holding `c`,
   * or -1; a negative `from` counts as 0.
   */
  function IndexOfFrom(s: string, c: char, from: int): (r: int)
    ensures r == -1 || (0 <= r < |s| && from <= r && s[r] == c)
    ensures forall k :: 0 <= k < |s| && from <= k && (r == -1 || k < r) ==> s[k] != c
    decreases |s| - from
  {
    if from < 0 then IndexOfFrom(s, c, 0)
    else if from >= |s| then -1
    else if s[from] == c then from
    else IndexOfFrom(s, c, from + 1)
  }

  /** String.indexOf(c). */
  function IndexOf(s: string, c: char): (r: int)
    ensures r == -1 <==> c !in s
    ensures r != -1 ==> 0 <= r < |s| && s[r] == c && c !in s[..r]
  {
    var r := IndexOfFrom(s, c, 0);
    assert r != -1 ==> forall k :: 0 <= k < r ==> s[..r][k] != c;
    assert r == -1 ==> forall k :: 0 <= k < |s| ==> s[k] != c;
    r
  }

  /** String.lastIndexOf(c): the last position holding `c`, or -1. */
  function LastIndexOf(s: string, c: char): (r: int)
    ensures r == -1 <==> c !in s
    ensures r != -1 ==> 0 <= r < |s| && s[r] == c && c !in s[r + 1..]
  {
    if |s| == 0 then -1
    else if s[|s| - 1] == c then |s| - 1
    else
      var r := LastIndexOf(s[..|s| - 1], c);
      assert s == s[..|s| - 1] + [s[|s| - 1]];
      assert r != -1 ==> s[r + 1..] == s[..|s| - 1][r + 1..] + [s[|s| - 1]];
      r
  }

  predicate IsDigit(c: char) {
    '0' <= c <= '9'
  }

  predicate AllDigits(s: string) {
    forall k :: 0 <= k < |s| ==> IsDigit(s[k])
  }

  function DigitValue(c: char): nat
    requires IsDigit(c)
  {
    c as int - '0' as int
  }

  function DigitChar(d: nat): (c: char)
    requires d < 10
    ensures IsDigit(c) && DigitValue(c) == d
  {
    ('0' as int + d) as char
  }

  /** The number a non-empty string of decimal digits denotes. */
  function DigitsValue(s: string): nat
    requires AllDigits(s)
  {
    if s == [] then 0 else DigitsValue(s[..|s| - 1]) * 10 + DigitValue(s[|s| - 1])
  }

  /** Long.toString for a non-negative value: decimal digits with no leading zero. */
  function NatToString(n: nat): (r: string)
    ensures r != [] && AllDigits(r)
    ensures |r| > 1 ==> r[0] != '0'
  {
    if n < 10 then [DigitChar(n)]
    else
      var p := NatToString(n / 10);
      assert (p + [DigitChar(n % 10)])[0] == p[0];
      p + [DigitChar(n % 10)]
  }

  lemma {:induction false} NatToStringValue(n: nat)
    ensures DigitsValue(NatToString(n)) == n
  {
    if n >= 10 {
      NatToStringValue(n / 10);
      var p := NatToString(n / 10);
      assert (p + [DigitChar(n % 10)])[..|p|] == p;
    }
  }

  /** Long.toString: an optional minus sign followed by the digits of the magnitude. */
  function LongToString(n: int): string {
    if n < 0 then "-" + NatToString(-n) else NatToString(n)
  }

  /**
   * Long.parseLong: an optional `-` or `+`, then one or more decimal digits,
   * denoting a value in the signed 64-bit range; anything else fails.
   */
  function ParseLong(s: string): (r: Option<int>)
    ensures r.Some? ==> LONG_MIN <= r.value <= LONG_MAX
  {
    if s == [] then None
    else
      var signed := s[0] == '-' || s[0] == '+';
      var digits := if signed then s[1..] else s;
      if digits == [] || !AllDigits(digits) then None
      else
        var magnitude: int := DigitsValue(digits);
        var v := if s[0] == '-' then 0 - magnitude else magnitude;
        if LONG_MIN <= v <= LONG_MAX then Some(v) else None
  }

  /** Long.parseLong undoes Long.toString on the whole 64-bit range. */
  lemma LongRoundTrip(n: int)
    requires LONG_MIN <= n <= LONG_MAX
    ensures ParseLong(LongToString(n)) == Some(n)
  {
    var t := LongToString(n);
    if n < 0 {
      var m: nat := -n;
      NatToStringValue(m);
      assert t[0] == '-' && t[1..] == NatToString(m);
      assert DigitsValue(t[1..]) == m;
    } else {
      NatToStringValue(n);
      assert IsDigit(t[0]) && DigitsValue(t) == n;
    }
  }

  /** The text Long.toString produces has no blank at either end and no special character. */
  lemma LongTextChars(n: int)
    ensures var t := LongToString(n);
      t != [] && forall k :: 0 <= k < |t| ==> t[k] == '-' || IsDigit(t[k])
  {
    if n < 0 {
      var t := LongToString(n);
      assert forall k :: 1 <= k < |t| ==> t[k] == NatToString(-n)[k - 1];
    }
  }

  /** Two's-complement reinterpretation of an unsigned 32-bit value. */
  function ToInt32(u: int): (r: int)
    requires 0 <= u < 0x1_0000_0000
    ensures -0x8000_0000 <= r < 0x8000_0000
  {
    if u >= 0x8000_0000 then u - 0x1_0000_0000 else u
  }

  /** The UTF-16 code units of one character: itself below U+10000,
    * otherwise its high and low surrogates. */
  function CodeUnits(c: char): (r: seq<int>)
    ensures 1 <= |r| <= 2
    ensures forall k :: 0 <= k < |r| ==> 0 <= r[k] < 0x1_0000
    ensures |r| == 1 <==> c as int < 0x1_0000
    ensures |r| == 1 ==> r[0] == c as int
    ensures |r| == 2 ==>
      0xD800 <= r[0] < 0xDC00 <= r[1] < 0xE000 && c as int == 0x1_0000 + (r[0] - 0xD800) * 0x400 + (r[1] - 0xDC00)
  {
    var v := c as int;
    if v < 0x1_0000 then [v]
    else [0xD800 + (v - 0x1_0000) / 0x400, 0xDC00 + (v - 0x1_0000) % 0x400]
  }

  /** The UTF-16 code units of a string, the `char`s a Java String holds. */
  function Utf16(s: string): (r: seq<int>)
    ensures |s| <= |r| <= 2 * |s|
    ensures forall k :: 0 <= k < |r| ==> 0 <= r[k] < 0x1_0000
  {
    if s == [] then [] else Utf16(s[..|s| - 1]) + CodeUnits(s[|s| - 1])
  }

  /** The unsigned 32-bit state of String.hashCode's `h = 31 * h + c` loop over code units. */
  function HashAccumulator(units: seq<int>): (h: int)
    ensures 0 <= h < 0x1_0000_0000
  {
    if units == [] then 0
    else (31 * HashAccumulator(units[..|units| - 1]) + units[|units| - 1]) % 0x1_0000_0000
  }

  /** String.hashCode with Java's 32-bit `int` overflow. */
  function StringHash(s: string): (r: int)
    ensures -0x8000_0000 <= r < 0x8000_0000
  {
    ToInt32(HashAccumulator(Utf16(s)))
  }

  /** A string without supplementary characters is its own code units. */
  lemma {:induction false} Utf16Bmp(s: string)
    requires forall k :: 0 <= k < |s| ==> s[k] as int < 0x1_0000
    ensures |Utf16(s)| == |s|
    ensures forall k :: 0 <= k < |s| ==> Utf16(s)[k] == s[k] as int
  {
    if s != [] {
      Utf16Bmp(s[..|s| - 1]);
    }
  }

  /** The code units of a concatenation are those of its parts. */
  lemma {:induction false} Utf16Append(s: string, t: string)
    ensures Utf16(s + t) == Utf16(s) + Utf16(t)
    decreases |t|
  {
    if t == [] {
      assert s + t == s;
    } else {
      var t' := t[..|t| - 1];
      assert (s + t)[..|s + t| - 1] == s + t';
      Utf16Append(s, t');
    }
  }

  /** Hashing extends one code unit at a time. */
  lemma HashAccumulatorStep(units: seq<int>, u: int)
    ensures HashAccumulator(units + [u]) == (31 * HashAccumulator(units) + u) % 0x1_0000_0000
  {
    assert (units + [u])[..|units|] == units;
  }

  /** U+1F600 is the surrogate pair 0xD83D 0xDE00. */
  lemma SurrogateUnits()
    ensures Utf16("\U{1F600}") == [0xD83D, 0xDE00]
  {
    var c := '\U{1F600}';
    assert c as int == 0x1F600;
    assert CodeUnits(c) == [0xD83D, 0xDE00];
    assert "\U{1F600}"[..0] == [];
  }

  /** A supplementary character hashes as its two surrogates, so U+1F600
    * hashes to 31 * 0xD83D + 0xDE00, not to 0x1F600. */
  lemma SurrogateHash()
    ensures StringHash("\U{1F600}") == 1772899
  {
    SurrogateUnits();
    HashAccumulatorStep([], 0xD83D);
    HashAccumulatorStep([0xD83D], 0xDE00);
    assert [0xD83D] + [0xDE00] == [0xD83D, 0xDE00];
  }

  /** A two-letter ASCII string hashes to `31 * c0 + c1`. */
  lemma AsciiHash()
    ensures StringHash("ab") == 31 * 97 + 98
  {
    assert "ab"[..1] == "a" && "a"[..0] == [];
    assert Utf16("ab") == [97, 98];
    HashAccumulatorStep([], 97);
    HashAccumulatorStep([97], 98);
    assert [97] + [98] == [97, 98];
  }

  /** `parts` joined with `sep` between neighbours. */
  function Join(parts: seq<string>, sep: string): string {
    if parts == [] then ""
    else if |parts| == 1 then parts[0]
    else parts[0] + sep + Join(parts[1..], sep)
  }

  /** Joining one more part adds the separator and the part at the end. */
  lemma {:induction false} JoinSnoc(ps: seq<string>, p: string, sep: string)
    ensures Join(ps + [p], sep) == if ps == [] then p else Join(ps, sep) + sep + p
    decreases |ps|
  {
    if |ps| > 1 {
      assert (ps + [p])[1..] == ps[1..] + [p];
      JoinSnoc(ps[1..], p, sep);
    } else if |ps| == 1 {
      assert (ps + [p])[1..] == [p];
    }
  }

  /** Number of characters of `s` that belong to `chars`. */
  function CountIn(s: string, chars: string): nat {
    if s == [] then 0
    else CountIn(s[..|s| - 1], chars) + (if s[|s| - 1] in chars then 1 else 0)
  }

  /** Counting over a concatenation adds the counts. */
  lemma {:induction false} CountInAppend(a: string, b: string, chars: string)
    ensures CountIn(a + b, chars) == CountIn(a, chars) + CountIn(b, chars)
    decreases |b|
  {
    if b != [] {
      var b' := b[..|b| - 1];
      assert (a + b)[..|a + b| - 1] == a + b';
      CountInAppend(a, b', chars);
    } else {
      assert a + b == a;
    }
  }

  /** A text without any of the characters counts none. */
  lemma {:induction false} CountInNone(s: string, chars: string)
    requires forall i :: 0 <= i < |s| ==> s[i] !in chars
    ensures CountIn(s, chars) == 0
    decreases |s|
  {
    if s != [] {
      CountInNone(s[..|s| - 1], chars);
    }
  }
}
