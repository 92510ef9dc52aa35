/**
 * The string helpers of shared/utils.js, over `seq<char>`.
 * Case mapping is ASCII only (see README, "Left out").
 */
module Strings {

  /** Decimal digit `d`. */
  function Digit(d: nat): (c: char)
    requires d < 10
    ensures '0' <= c <= '9'
  {
    "0123456789"[d]
  }

  /** The text JavaScript's `String(n)` gives for a non-negative integer. */
  function NatToString(n: nat): (s: string)
    ensures |s| >= 1
    ensures forall i :: 0 <= i < |s| ==> '0' <= s[i] <= '9'
    ensures |s| > 1 ==> s[0] != '0'
  {
    if n < 10 then [Digit(n)] else NatToString(n / 10) + [Digit(n % 10)]
  }

  /** The value of a string of decimal digits, as `parseInt` reads it. */
  function ParseDecimal(s: string): nat
    requires forall i :: 0 <= i < |s| ==> '0' <= s[i] <= '9'
  {
    if s == [] then 0
    else 10 * ParseDecimal(s[..|s| - 1]) + ((s[|s| - 1] as int) - ('0' as int))
  }

  /** `String(i)` for any integer. */
  function IntToString(i: int): (s: string)
    ensures s != []
  {
    if i < 0 then "-" + NatToString(-i) else NatToString(i)
  }

  /** Reading back the decimal rendering of `n` gives `n` (the `parseInt` of an object key). */
  lemma {:induction false} ParseNatToString(n: nat)
    ensures ParseDecimal(NatToString(n)) == n
  {
    var s := NatToString(n);
    DigitValue(n % 10);
    if n < 10 {
      assert s == [Digit(n)] && s[..0] == [];
    } else {
      var init := NatToString(n / 10);
      assert s == init + [Digit(n % 10)];
      assert s[..|s| - 1] == init;
      ParseNatToString(n / 10);
    }
  }

  /** The digit character of `d` stands for `d`. */
  lemma DigitValue(d: nat)
    requires d < 10
    ensures (Digit(d) as int) - ('0' as int) == d
  {
  }

  /** Distinct numbers render as distinct strings. */
  lemma NatToStringInjective(m: nat, n: nat)
    ensures NatToString(m) == NatToString(n) <==> m == n
  {
    if NatToString(m) == NatToString(n) {
      ParseNatToString(m);
      ParseNatToString(n);
    }
  }

  predicate IsLower(c: char) { 'a' <= c <= 'z' }

  predicate IsUpper(c: char) { 'A' <= c <= 'Z' }

  function ToUpper(c: char): (u: char)
    ensures !IsLower(u)
    ensures IsLower(c) ==> IsUpper(u)
    ensures !IsLower(c) ==> u == c
  {
    if IsLower(c) then (c as int - 32) as char else c
  }

  function ToLower(c: char): (l: char)
    ensures !IsUpper(l)
    ensures IsUpper(c) ==> IsLower(l)
    ensures !IsUpper(c) ==> l == c
  {
    if IsUpper(c) then (c as int + 32) as char else c
  }

  /** `str.toLowerCase()`. */
  function LowerCase(s: string): (r: string)
    ensures |r| == |s|
    ensures forall i :: 0 <= i < |r| ==> r[i] == ToLower(s[i])
  {
    if s == [] then [] else [ToLower(s[0])] + LowerCase(s[1..])
  }

  /** `capitalize`: the first character upper-cased, the rest untouched; "" stays "". */
  function Capitalize(s: string): (r: string)
    ensures |r| == |s|
    ensures s != [] ==> r[0] == ToUpper(s[0]) && r[1..] == s[1..]
  {
    if s == [] then [] else [ToUpper(s[0])] + s[1..]
  }

  /** True when `s` holds a hyphen followed by a lower-case letter: what `camelCase` rewrites. */
  predicate HasHyphenLower(s: string)
  {
    exists i :: 0 <= i < |s| - 1 && s[i] == '-' && IsLower(s[i + 1])
  }

  /**
   * `camelCase`: every non-overlapping `-x` with `x` in a..z, scanned left to
   * right, becomes the upper-case letter of `x`.
   */
  function CamelCase(s: string): (r: string)
    ensures |r| <= |s|
    ensures !HasHyphenLower(r)
    ensures s != [] && s[0] != '-' ==> r != [] && r[0] == s[0]
    ensures s != [] && !IsLower(s[0]) ==> r != [] && !IsLower(r[0])
    ensures !HasHyphenLower(s) ==> r == s
  {
    if |s| >= 2 && s[0] == '-' && IsLower(s[1]) then
      var rest := CamelCase(s[2..]);
      assert !HasHyphenLower(s[2..]) ==> rest == s[2..];
      [ToUpper(s[1])] + rest
    else if s == [] then []
    else
      var rest := CamelCase(s[1..]);
      assert !HasHyphenLower(s) ==> !HasHyphenLower(s[1..]) by {
        if HasHyphenLower(s[1..]) {
          var i :| 0 <= i < |s[1..]| - 1 && s[1..][i] == '-' && IsLower(s[1..][i + 1]);
          assert s[i + 1] == '-' && IsLower(s[i + 2]);
        }
      }
      var r := [s[0]] + rest;
      assert !HasHyphenLower(r) by {
        forall i | 0 <= i < |r| - 1
          ensures !(r[i] == '-' && IsLower(r[i + 1]))
        {
          if i == 0 && s[0] == '-' {
            assert !IsLower(s[1]) && r[1] == rest[0];
          } else if i > 0 {
            assert r[i] == rest[i - 1] && r[i + 1] == rest[i];
          }
        }
      }
      r
  }

  /**
   * What `camelCase` makes of position `i`, on its own: a hyphen before a
   * lower-case letter disappears, that letter is upper-cased, and every
   * other character stays. Matches of `-[a-z]` cannot overlap, since each
   * ends in a letter, so the positions can be rewritten independently.
   */
  function CamelPiece(s: string, i: nat): string
    requires i < |s|
  {
    if s[i] == '-' && i + 1 < |s| && IsLower(s[i + 1]) then ""
    else if 0 < i && s[i - 1] == '-' && IsLower(s[i]) then [ToUpper(s[i])]
    else [s[i]]
  }

  /** The pieces of positions `i` onward, concatenated. */
  function CamelFrom(s: string, i: nat): string
    requires i <= |s|
    decreases |s| - i
  {
    if i == |s| then "" else CamelPiece(s, i) + CamelFrom(s, i + 1)
  }

  /** The left-to-right scan of `camelCase` rewrites every position as `CamelPiece` says. */
  lemma CamelCaseSpec(s: string)
    ensures CamelCase(s) == CamelFrom(s, 0)
  {
    CamelFromSuffix(s, 0);
  }

  /** The scan resumes only where no match ends, so its suffix agrees with the pieces. */
  lemma {:induction false} CamelFromSuffix(s: string, i: nat)
    requires i <= |s|
    requires i == 0 || i == |s| || !(s[i - 1] == '-' && IsLower(s[i]))
    ensures CamelCase(s[i..]) == CamelFrom(s, i)
    decreases |s| - i, 1
  {
    if i == |s| {
      assert s[i..] == [];
    } else if s[i] == '-' && i + 1 < |s| && IsLower(s[i + 1]) {
      CamelPairStep(s, i);
    } else {
      CamelOneStep(s, i);
    }
  }

  /** A hyphen and lower-case letter at `i` become the pieces of `i` and `i + 1`. */
  lemma {:induction false} CamelPairStep(s: string, i: nat)
    requires i + 1 < |s| && s[i] == '-' && IsLower(s[i + 1])
    ensures CamelCase(s[i..]) == CamelFrom(s, i)
    decreases |s| - i, 0
  {
    CamelFromSuffix(s, i + 2);
    assert s[i..][2..] == s[i + 2..];
    assert CamelCase(s[i..]) == [ToUpper(s[i + 1])] + CamelCase(s[i + 2..]);
    assert CamelPiece(s, i) == [];
    assert CamelPiece(s, i + 1) == [ToUpper(s[i + 1])];
    assert CamelFrom(s, i) == CamelPiece(s, i) + (CamelPiece(s, i + 1) + CamelFrom(s, i + 2));
  }

  /** Any other position `i` the scan reaches becomes its own piece. */
  lemma {:induction false} CamelOneStep(s: string, i: nat)
    requires i < |s| && !(s[i] == '-' && i + 1 < |s| && IsLower(s[i + 1]))
    requires i == 0 || !(s[i - 1] == '-' && IsLower(s[i]))
    ensures CamelCase(s[i..]) == CamelFrom(s, i)
    decreases |s| - i, 0
  {
    CamelFromSuffix(s, i + 1);
    assert s[i..][1..] == s[i + 1..];
    assert CamelCase(s[i..]) == [s[i]] + CamelCase(s[i + 1..]);
    assert CamelPiece(s, i) == [s[i]];
    assert CamelFrom(s, i) == CamelPiece(s, i) + CamelFrom(s, i + 1);
  }

  /** The `([a-z])([A-Z])` → `$1-$2` rewrite of `kebabCase`, before lower-casing. */
  function Hyphenate(s: string): (r: string)
    ensures |r| >= |s|
    ensures (forall i :: 0 <= i < |s| ==> !IsUpper(s[i])) ==> r == s
  {
    if |s| >= 2 && IsLower(s[0]) && IsUpper(s[1]) then [s[0], '-', s[1]] + Hyphenate(s[2..])
    else if s == [] then []
    else [s[0]] + Hyphenate(s[1..])
  }

  /** `kebabCase`: a hyphen between each lower-upper pair, then lower case throughout. */
  function KebabCase(s: string): (r: string)
    ensures |r| >= |s|
    ensures forall i :: 0 <= i < |r| ==> !IsUpper(r[i])
  {
    LowerCase(Hyphenate(s))
  }

  /**
   * What `kebabCase` makes of position `i`, on its own: a hyphen before an
   * upper-case letter that follows a lower-case one, then the character
   * lower-cased. Matches of `[a-z][A-Z]` cannot overlap, since each ends in
   * an upper-case letter.
   */
  function KebabPiece(s: string, i: nat): string
    requires i < |s|
  {
    (if 0 < i && IsLower(s[i - 1]) && IsUpper(s[i]) then "-" else "") + [ToLower(s[i])]
  }

  /** The pieces of positions `i` onward, concatenated. */
  function KebabFrom(s: string, i: nat): string
    requires i <= |s|
    decreases |s| - i
  {
    if i == |s| then "" else KebabPiece(s, i) + KebabFrom(s, i + 1)
  }

  /** `kebabCase` rewrites every position as `KebabPiece` says. */
  lemma KebabCaseSpec(s: string)
    ensures KebabCase(s) == KebabFrom(s, 0)
  {
    KebabFromSuffix(s, 0);
  }

  lemma LowerCaseAppend(a: string, b: string)
    ensures LowerCase(a + b) == LowerCase(a) + LowerCase(b)
  {
    assert forall i :: 0 <= i < |a + b| ==> LowerCase(a + b)[i] == (LowerCase(a) + LowerCase(b))[i];
  }

  lemma AppendAssoc(a: string, b: string, c: string)
    ensures a + (b + c) == (a + b) + c
  {
  }

  lemma LowerCasePair(a: char, b: char)
    ensures LowerCase([a, '-', b]) == [ToLower(a), '-', ToLower(b)]
  {
    var l := LowerCase([a, '-', b]);
    assert l[0] == ToLower(a) && l[1] == ToLower('-') && l[2] == ToLower(b);
  }

  /** The scan resumes only where no match ends, so its suffix agrees with the pieces. */
  lemma {:induction false} KebabFromSuffix(s: string, i: nat)
    requires i <= |s|
    requires i == 0 || i == |s| || !(IsLower(s[i - 1]) && IsUpper(s[i]))
    ensures LowerCase(Hyphenate(s[i..])) == KebabFrom(s, i)
    decreases |s| - i, 1
  {
    if i == |s| {
      assert s[i..] == [];
    } else if i + 1 < |s| && IsLower(s[i]) && IsUpper(s[i + 1]) {
      KebabPairStep(s, i);
    } else {
      KebabOneStep(s, i);
    }
  }

  /** A lower-upper pair at `i` becomes the two pieces of `i` and `i + 1`. */
  lemma {:induction false} KebabPairStep(s: string, i: nat)
    requires i + 1 < |s| && IsLower(s[i]) && IsUpper(s[i + 1])
    ensures LowerCase(Hyphenate(s[i..])) == KebabFrom(s, i)
    decreases |s| - i, 0
  {
    KebabFromSuffix(s, i + 2);
    var rest := Hyphenate(s[i + 2..]);
    var tail := LowerCase(rest);
    assert s[i..][2..] == s[i + 2..];
    assert Hyphenate(s[i..]) == [s[i], '-', s[i + 1]] + rest;
    LowerCaseAppend([s[i], '-', s[i + 1]], rest);
    LowerCasePair(s[i], s[i + 1]);
    assert KebabPiece(s, i) == [ToLower(s[i])];
    assert KebabPiece(s, i + 1) == ['-', ToLower(s[i + 1])];
    assert [ToLower(s[i])] + ['-', ToLower(s[i + 1])] == [ToLower(s[i]), '-', ToLower(s[i + 1])];
    AppendAssoc([ToLower(s[i])], ['-', ToLower(s[i + 1])], tail);
    assert KebabFrom(s, i) == KebabPiece(s, i) + (KebabPiece(s, i + 1) + KebabFrom(s, i + 2));
  }

  /** Any other position `i` the scan reaches becomes its own piece. */
  lemma {:induction false} KebabOneStep(s: string, i: nat)
    requires i < |s| && !(i + 1 < |s| && IsLower(s[i]) && IsUpper(s[i + 1]))
    requires i == 0 || !(IsLower(s[i - 1]) && IsUpper(s[i]))
    ensures LowerCase(Hyphenate(s[i..])) == KebabFrom(s, i)
    decreases |s| - i, 0
  {
    KebabFromSuffix(s, i + 1);
    var rest := Hyphenate(s[i + 1..]);
    assert s[i..][1..] == s[i + 1..];
    assert Hyphenate(s[i..]) == [s[i]] + rest;
    LowerCaseAppend([s[i]], rest);
    assert LowerCase([s[i]]) == [ToLower(s[i])];
    assert KebabPiece(s, i) == [ToLower(s[i])];
    assert KebabFrom(s, i) == KebabPiece(s, i) + KebabFrom(s, i + 1);
  }

  /** Lower-casing a string with no upper-case letter changes nothing. */
  lemma {:induction false} LowerCaseOfLower(s: string)
    requires forall i :: 0 <= i < |s| ==> !IsUpper(s[i])
    ensures LowerCase(s) == s
  {
    if s != [] {
      LowerCaseOfLower(s[1..]);
    }
  }

  /** `kebabCase` is idempotent: its output has no upper-case letter left to rewrite. */
  lemma KebabCaseIdempotent(s: string)
    ensures KebabCase(KebabCase(s)) == KebabCase(s)
  {
    var k := KebabCase(s);
    assert Hyphenate(k) == k;
    LowerCaseOfLower(k);
  }

  /** How many UTF-16 code units JavaScript stores for `c`: two (a surrogate pair) above the Basic Multilingual Plane. */
  function Units(c: char): nat
  {
    if c as int >= 0x1_0000 then 2 else 1
  }

  /** JavaScript's `s.length`: the number of UTF-16 code units of `s`, not of code points. */
  function Utf16Length(s: string): (r: nat)
    ensures |s| <= r <= 2 * |s|
    ensures r == |s| <==> forall i :: 0 <= i < |s| ==> Units(s[i]) == 1
  {
    if s == [] then 0
    else
      var r := Units(s[0]) + Utf16Length(s[1..]);
      assert forall i :: 1 <= i < |s| ==> s[i] == s[1..][i - 1];
      r
  }

  lemma {:induction false} Utf16LengthAppend(a: string, b: string)
    ensures Utf16Length(a + b) == Utf16Length(a) + Utf16Length(b)
  {
    if a != [] {
      assert (a + b)[0] == a[0] && (a + b)[1..] == a[1..] + b;
      Utf16LengthAppend(a[1..], b);
    } else {
      assert a + b == b;
    }
  }

  /**
   * `s.substring(0, n)` cut at a code-point boundary: the longest prefix of `s`
   * that fits in `n` code units.
   */
  function Utf16Prefix(s: string, n: int): (r: string)
    ensures r <= s
    ensures Utf16Length(r) <= if n < 0 then 0 else n
    ensures |r| < |s| ==> Utf16Length(r) + Units(s[|r|]) > n
  {
    if s == [] || Units(s[0]) > n then []
    else
      var rest := Utf16Prefix(s[1..], n - Units(s[0]));
      assert Utf16Length([s[0]] + rest) == Units(s[0]) + Utf16Length(rest) by {
        assert ([s[0]] + rest)[1..] == rest;
      }
      [s[0]] + rest
  }

  /**
   * `truncate(str, length, suffix)`: unchanged when its UTF-16 length fits,
   * otherwise its first `length` code units (none when `length` is negative)
   * followed by `suffix`. The prefix keeps exactly `length` units unless the cut
   * falls inside a surrogate pair, where it keeps one unit fewer.
   */
  function Truncate(s: string, length: int, suffix: string): (r: string)
    ensures Utf16Length(s) <= length ==> r == s
    ensures Utf16Length(s) > length ==>
      var keep := if length < 0 then 0 else length;
      exists p :: r == p + suffix && p <= s
        && (Utf16Length(p) == keep || (|p| < |s| && Utf16Length(p) == keep - 1 && Units(s[|p|]) == 2))
  {
    if Utf16Length(s) <= length then s
    else
      var keep := if length < 0 then 0 else length;
      var p := Utf16Prefix(s, keep);
      PrefixLength(s, p);
      assert Utf16Length(p) == keep || (|p| < |s| && Utf16Length(p) == keep - 1 && Units(s[|p|]) == 2);
      p + suffix
  }

  /** A proper prefix is shorter in UTF-16 units than the whole; a whole prefix is as long. */
  lemma PrefixLength(s: string, p: string)
    requires p <= s
    ensures |p| < |s| ==> Utf16Length(p) + Units(s[|p|]) <= Utf16Length(s)
    ensures |p| == |s| ==> p == s
  {
    if |p| < |s| {
      assert s == p + [s[|p|]] + s[|p| + 1..];
      Utf16LengthAppend(p + [s[|p|]], s[|p| + 1..]);
      Utf16LengthAppend(p, [s[|p|]]);
    }
  }

  /** The JavaScript `default` suffix of `truncate`. */
  const Ellipsis: string := "..."

  /** ECMAScript WhiteSpace and LineTerminator code points, the ones `trim` removes. */
  predicate IsWhitespace(c: char)
  {
    var n := c as int;
    n == 0x20 || 0x09 <= n <= 0x0D || n == 0xA0 || n == 0x1680 || 0x2000 <= n <= 0x200A
    || n == 0x2028 || n == 0x2029 || n == 0x202F || n == 0x205F || n == 0x3000 || n == 0xFEFF
  }

  function TrimStart(s: string): (r: string)
    ensures r == [] || !IsWhitespace(r[0])
    ensures r == [] <==> forall i :: 0 <= i < |s| ==> IsWhitespace(s[i])
    ensures |r| <= |s| && r == s[|s| - |r|..]
  {
    if s != [] && IsWhitespace(s[0]) then TrimStart(s[1..]) else s
  }

  function TrimEnd(s: string): (r: string)
    ensures r == [] || !IsWhitespace(r[|r| - 1])
    ensures r == [] <==> forall i :: 0 <= i < |s| ==> IsWhitespace(s[i])
    ensures |r| <= |s| && r == s[..|r|]
  {
    if s != [] && IsWhitespace(s[|s| - 1]) then TrimEnd(s[..|s| - 1]) else s
  }

  /** `str.trim()`. */
  function Trim(s: string): (r: string)
    ensures r == [] <==> forall i :: 0 <= i < |s| ==> IsWhitespace(s[i])
    ensures r != [] ==> !IsWhitespace(r[0]) && !IsWhitespace(r[|r| - 1])
  {
    var t := TrimStart(s);
    assert t != [] ==> !IsWhitespace(t[0]);
    TrimEnd(t)
  }

  const MinuteMs: nat := 60 * 1000
  const HourMs: nat := 60 * MinuteMs
  const DayMs: nat := 24 * HourMs

  /** `${count} ${unit}${count > 1 ? 's' : ''} ago`. */
  function Ago(count: nat, unit: string): string
  {
    NatToString(count) + " " + unit + (if count > 1 then "s" else "") + " ago"
  }

  /**
   * `formatRelativeTime`, as a function of the elapsed milliseconds `diff`
   * (`now - date`): each unit is the floor of the one below it, as the source
   * computes them with `Math.floor`.
   */
  function FormatRelativeTime(diff: int): (r: string)
    ensures diff < MinuteMs <==> r == "Just now"
    ensures diff >= DayMs ==> r == Ago(diff / DayMs, "day")
    ensures HourMs <= diff < DayMs ==> r == Ago(diff / HourMs, "hour")
    ensures MinuteMs <= diff < HourMs ==> r == Ago(diff / MinuteMs, "minute")
  {
    var seconds := diff / 1000;
    var minutes := seconds / 60;
    var hours := minutes / 60;
    var days := hours / 24;
    FloorChain(diff);
    if days > 0 then Ago(days, "day")
    else if hours > 0 then Ago(hours, "hour")
    else if minutes > 0 then Ago(minutes, "minute")
    else "Just now"
  }

  /** Flooring step by step equals flooring once by the product of the divisors. */
  lemma FloorChain(diff: int)
    ensures diff / 1000 / 60 == diff / MinuteMs
    ensures diff / 1000 / 60 / 60 == diff / HourMs
    ensures diff / 1000 / 60 / 60 / 24 == diff / DayMs
  {
  }

  /** The plural "s" appears exactly when the count is above one (for the units used, none ending in "s"). */
  lemma AgoPlural(count: nat, unit: string)
    requires unit != [] && unit[|unit| - 1] != 's'
    ensures var r := Ago(count, unit);
      |r| >= 5 && (r[|r| - 5..] == "s ago" <==> count > 1)
  {
    var r := Ago(count, unit);
    var head := NatToString(count) + " " + unit;
    if count > 1 {
      assert r == head + "s ago";
    } else {
      assert r == head + " ago";
      assert r[|r| - 5] == unit[|unit| - 1];
    }
  }
}
