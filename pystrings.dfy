/** The handful of Python `str` operations the library relies on. */
module PyStrings {
  import opened Wrappers

  /** `s.startswith(prefix)` */
  predicate StartsWith(s: string, prefix: string)
  {
    |prefix| <= |s| && s[..|prefix|] == prefix
  }

  /** `s` with `prefix` put in front unless it already starts with it. */
  function EnsurePrefix(s: string, prefix: string): (r: string)
    ensures StartsWith(r, prefix)
    ensures StartsWith(s, prefix) ==> r == s
    ensures !StartsWith(s, prefix) ==> r == prefix + s
  {
    if StartsWith(s, prefix) then s else assert (prefix + s)[..|prefix|] == prefix; prefix + s
  }

  /** `str.lower()` on ASCII letters; every other character is left as it is. */
  function LowerChar(c: char): char
  {
    if 'A' <= c <= 'Z' then (c as int + 32) as char else c
  }

  function Lower(s: string): (r: string)
    ensures |r| == |s|
    ensures forall i :: 0 <= i < |s| ==> r[i] == LowerChar(s[i])
  {
    seq(|s|, i requires 0 <= i < |s| => LowerChar(s[i]))
  }

  // ---------------------------------------------------------------------------
  // Decimal rendering (`str(n)`) and parsing (`int(s)`)

  predicate IsDigit(c: char)
  {
    '0' <= c <= '9'
  }

  function DigitChar(d: nat): (c: char)
    requires d < 10
    ensures IsDigit(c)
  {
    ('0' as int + d) as char
  }

  function DigitValue(c: char): (d: nat)
    requires IsDigit(c)
    ensures d < 10 && DigitChar(d) == c
  {
    c as int - '0' as int
  }

  /** `str(n)` for a natural number: its decimal digits, no leading zero. */
  function NatToString(n: nat): (r: string)
    ensures |r| >= 1
    ensures forall i :: 0 <= i < |r| ==> IsDigit(r[i])
    decreases n
  {
    if n < 10 then [DigitChar(n)] else NatToString(n / 10) + [DigitChar(n % 10)]
  }

  /** `str(i)` for any int. */
  function IntToString(i: int): string
  {
    if i < 0 then "-" + NatToString(-i) else NatToString(i)
  }

  predicate AllDigits(s: string)
  {
    forall i :: 0 <= i < |s| ==> IsDigit(s[i])
  }

  /** The number a string of decimal digits denotes. */
  function DigitsValue(s: string): nat
    requires AllDigits(s)
    decreases |s|
  {
    if |s| == 0 then 0 else DigitsValue(s[..|s| - 1]) * 10 + DigitValue(s[|s| - 1])
  }

  /** `int(s)` for a string: an optional sign and at least one decimal digit. */
  function ParseInt(s: string): (r: Option<int>)
    ensures r.Some? ==> |s| >= 1
  {
    if |s| >= 1 && (s[0] == '-' || s[0] == '+') then
      var digits := s[1..];
      if |digits| >= 1 && AllDigits(digits) then
        var v: int := DigitsValue(digits);
        Some(if s[0] == '-' then -v else v)
      else None
    else if |s| >= 1 && AllDigits(s) then Some(DigitsValue(s))
    else None
  }

  lemma {:induction false} DigitsValueOfNatToString(n: nat)
    ensures AllDigits(NatToString(n)) && DigitsValue(NatToString(n)) == n
    decreases n
  {
    var r := NatToString(n);
    if n >= 10 {
      DigitsValueOfNatToString(n / 10);
      var prefix := NatToString(n / 10);
      assert r[..|r| - 1] == prefix;
      assert r[|r| - 1] == DigitChar(n % 10);
    }
  }

  /** `int(str(i)) == i` */
  lemma ParseIntOfIntToString(i: int)
    ensures ParseInt(IntToString(i)) == Some(i)
  {
    if i < 0 {
      var digits := NatToString(-i);
      DigitsValueOfNatToString(-i);
      ParseSigned('-', digits);
      assert IntToString(i) == "-" + digits;
    } else {
      var digits := NatToString(i);
      DigitsValueOfNatToString(i);
      ParseUnsigned(digits);
    }
  }

  /** A sign followed by digits parses to the digits' value with that sign. */
  lemma ParseSigned(sign: char, digits: string)
    requires sign == '-' || sign == '+'
    requires |digits| >= 1 && AllDigits(digits)
    ensures var v: int := DigitsValue(digits); ParseInt([sign] + digits) == Some(if sign == '-' then -v else v)
  {
    assert ([sign] + digits)[1..] == digits;
  }

  /** Digits alone parse to their value. */
  lemma ParseUnsigned(digits: string)
    requires |digits| >= 1 && AllDigits(digits)
    ensures ParseInt(digits) == Some(DigitsValue(digits))
  {
    assert IsDigit(digits[0]);
  }

  // ---------------------------------------------------------------------------
  // Hexadecimal rendering (`hex(n)`)

  function HexChar(d: nat): char
    requires d < 16
  {
    if d < 10 then DigitChar(d) else ('a' as int + d - 10) as char
  }

  predicate IsHexDigit(c: char)
  {
    IsDigit(c) || 'a' <= c <= 'f'
  }

  function HexDigits(n: nat): (r: string)
    ensures |r| >= 1
    ensures forall i :: 0 <= i < |r| ==> IsHexDigit(r[i])
    decreases n
  {
    if n < 16 then [HexChar(n)] else HexDigits(n / 16) + [HexChar(n % 16)]
  }

  /** `hex(i)`: "0x" and lower-case digits, with a leading "-" for a negative number. */
  function Hex(i: int): string
  {
    if i < 0 then "-0x" + HexDigits(-i) else "0x" + HexDigits(i)
  }

  /** `s.rpartition(sep)` for a one-character separator: the text before the last
      `sep`, the separator, and the text after it; `("", "", s)` when `sep` does
      not occur. */
  function RPartition(s: string, sep: char): (r: (string, string, string))
    ensures sep !in s ==> r == ("", "", s)
    ensures sep in s ==> r.1 == [sep] && s == r.0 + [sep] + r.2 && sep !in r.2
    decreases |s|
  {
    if |s| == 0 then ("", "", "")
    else if s[|s| - 1] == sep then (s[..|s| - 1], [sep], "")
    else
      var p := RPartition(s[..|s| - 1], sep);
      assert s == s[..|s| - 1] + [s[|s| - 1]];
      (p.0, p.1, p.2 + [s[|s| - 1]])
  }

  /** A string built as `a + sep + b` with no `sep` in `b` partitions back into
      `a` and `b` at its last separator. */
  lemma {:induction false} RPartitionOfJoin(a: string, sep: char, b: string)
    requires sep !in b
    ensures RPartition(a + [sep] + b, sep) == (a, [sep], b)
    decreases |b|
  {
    var s := a + [sep] + b;
    if |b| == 0 {
      assert s[..|s| - 1] == a;
    } else {
      var init := b[..|b| - 1];
      assert s[..|s| - 1] == a + [sep] + init;
      assert s[|s| - 1] == b[|b| - 1];
      assert sep !in init by {
        assert forall k :: 0 <= k < |init| ==> init[k] == b[k];
      }
      RPartitionOfJoin(a, sep, init);
      assert init + [b[|b| - 1]] == b;
    }
  }

  // ---------------------------------------------------------------------------
  // `s.split(sep)` for a one-character separator, and its inverse `sep.join(parts)`

  function Split(s: string, sep: char): (r: seq<string>)
    ensures |r| >= 1
    decreases |s|
  {
    if |s| == 0 then [""]
    else
      var rest := Split(s[1..], sep);
      if s[0] == sep then [""] + rest else [[s[0]] + rest[0]] + rest[1..]
  }

  function Join(parts: seq<string>, sep: string): string
    decreases |parts|
  {
    if |parts| == 0 then ""
    else if |parts| == 1 then parts[0]
    else parts[0] + sep + Join(parts[1..], sep)
  }

  /** Splitting and joining again with the same separator gives back the string. */
  lemma {:induction false} JoinSplit(s: string, sep: char)
    ensures Join(Split(s, sep), [sep]) == s
    decreases |s|
  {
    if |s| > 0 {
      var rest := Split(s[1..], sep);
      JoinSplit(s[1..], sep);
      if s[0] == sep {
        assert Split(s, sep) == [""] + rest;
        assert Join([""] + rest, [sep]) == "" + [sep] + Join(rest, [sep]);
        assert s == [s[0]] + s[1..];
      } else {
        var parts := [[s[0]] + rest[0]] + rest[1..];
        assert Split(s, sep) == parts;
        if |rest| == 1 {
          assert Join(parts, [sep]) == [s[0]] + rest[0];
          assert s == [s[0]] + s[1..];
        } else {
          assert parts[1..] == rest[1..];
          assert Join(rest, [sep]) == rest[0] + [sep] + Join(rest[1..], [sep]);
          assert s == [s[0]] + s[1..];
        }
      }
    }
  }

  /** No part of a split contains the separator. */
  lemma {:induction false} SplitPartsExcludeSep(s: string, sep: char)
    ensures forall k :: 0 <= k < |Split(s, sep)| ==> sep !in Split(s, sep)[k]
    decreases |s|
  {
    if |s| > 0 {
      SplitPartsExcludeSep(s[1..], sep);
    }
  }

  /** A string without the separator splits into itself alone. */
  lemma {:induction false} SplitWithoutSep(s: string, sep: char)
    requires sep !in s
    ensures Split(s, sep) == [s]
    decreases |s|
  {
    if |s| > 0 {
      assert sep !in s[1..];
      SplitWithoutSep(s[1..], sep);
      assert s == [s[0]] + s[1..];
    }
  }

  /** A separator in the middle splits the string into the parts on either side. */
  lemma {:induction false} SplitAppend(a: string, b: string, sep: char)
    ensures Split(a + [sep] + b, sep) == Split(a, sep) + Split(b, sep)
    decreases |a|
  {
    if |a| == 0 {
      assert a + [sep] + b == [sep] + b;
      SplitCons(sep, b, sep);
    } else {
      var t := a[1..];
      SplitAppend(t, b, sep);
      assert a == [a[0]] + t;
      assert a + [sep] + b == [a[0]] + (t + [sep] + b);
      SplitCons(a[0], t, sep);
      SplitCons(a[0], t + [sep] + b, sep);
      ConsParts(a[0] == sep, a[0], Split(t, sep), Split(b, sep));
    }
  }

  /** Splitting a string that starts with `c` looks at `c`, then at the rest. */
  lemma SplitCons(c: char, t: string, sep: char)
    ensures var rest := Split(t, sep);
      Split([c] + t, sep) == if c == sep then [""] + rest else [[c] + rest[0]] + rest[1..]
  {
    assert ([c] + t)[0] == c;
    assert ([c] + t)[1..] == t;
  }

  /** The list identity behind `SplitAppend`'s step. */
  lemma ConsParts(atSep: bool, c: char, head: seq<string>, more: seq<string>)
    requires |head| >= 1
    ensures var rest := head + more;
      (if atSep then [""] + rest else [[c] + rest[0]] + rest[1..])
      == (if atSep then [""] + head else [[c] + head[0]] + head[1..]) + more
  {
    var rest := head + more;
    if !atSep {
      assert rest[0] == head[0];
      assert rest[1..] == head[1..] + more;
    }
  }

  // ---------------------------------------------------------------------------
  // `s.strip(c)` for a single character

  /** How many times `c` occurs at the start of `s`. */
  function Leading(s: string, c: char): (n: nat)
    ensures n <= |s|
    ensures forall k :: 0 <= k < n ==> s[k] == c
    ensures n == |s| || s[n] != c
    decreases |s|
  {
    if |s| > 0 && s[0] == c then 1 + Leading(s[1..], c) else 0
  }

  /** How many times `c` occurs at the end of `s`. */
  function Trailing(s: string, c: char): (n: nat)
    ensures n <= |s|
    ensures forall k :: |s| - n <= k < |s| ==> s[k] == c
    ensures n == |s| || s[|s| - n - 1] != c
    decreases |s|
  {
    if |s| > 0 && s[|s| - 1] == c then 1 + Trailing(s[..|s| - 1], c) else 0
  }

  /** `s.strip(c)`: removes every leading and trailing occurrence of `c`. The
      result is the slice of `s` after its leading run of `c`, and everything
      after the result is `c` too. */
  function Strip(s: string, c: char): (r: string)
    ensures |r| == 0 || (r[0] != c && r[|r| - 1] != c)
    ensures Leading(s, c) + |r| <= |s| && r == s[Leading(s, c)..Leading(s, c) + |r|]
    ensures forall k :: Leading(s, c) + |r| <= k < |s| ==> s[k] == c
  {
    var lead := Leading(s, c);
    var rest := s[lead..];
    var r := rest[..|rest| - Trailing(rest, c)];
    assert r == s[lead..lead + |r|];
    assert forall k :: lead + |r| <= k < |s| ==> s[k] == rest[k - lead];
    r
  }
}
