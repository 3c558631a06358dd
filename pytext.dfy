/** The Python `str` and `int` operations the assembler relies on, written out over
    `seq<char>`: whitespace stripping and splitting, upper-casing, substring search and
    replacement, `int(text, base)` and the `{n:0wX}` / `{n}` formats.
    Character classes are the ASCII ones (see README, "Left out"). */
module PyText {
  import opened Base

  // ---------------------------------------------------------------------------
  // Character classes

  /** `str.isspace` on ASCII: TAB, LF, VT, FF, CR, the separators 0x1C-0x1F and SPACE. */
  predicate IsSpace(c: char) {
    var k := c as int; k == 32 || 9 <= k <= 13 || 28 <= k <= 31
  }

  predicate IsDigit(c: char) { '0' <= c <= '9' }

  predicate IsLetter(c: char) { 'A' <= c <= 'Z' || 'a' <= c <= 'z' }

  predicate IsAlnum(c: char) { IsDigit(c) || IsLetter(c) }

  predicate NoSpace(s: string) { forall i :: 0 <= i < |s| ==> !IsSpace(s[i]) }

  // ---------------------------------------------------------------------------
  // Upper-casing

  function UpperChar(c: char): (u: char)
    ensures 'a' <= c <= 'z' ==> u as int == c as int - 32
    ensures !('a' <= c <= 'z') ==> u == c
    ensures !('a' <= u <= 'z')
  {
    if 'a' <= c <= 'z' then (c as int - 32) as char else c
  }

  /** `s.upper()` for ASCII letters. */
  function Upper(s: string): (u: string)
    ensures |u| == |s|
    ensures forall i :: 0 <= i < |s| ==> u[i] == UpperChar(s[i])
  {
    seq(|s|, i requires 0 <= i < |s| => UpperChar(s[i]))
  }

  /** A string that `Upper` leaves alone contains no lower-case letter; so a key holding a
      lower-case letter is never the upper-cased form of anything. */
  lemma UpperNeverLower(s: string, t: string)
    requires exists i :: 0 <= i < |s| && 'a' <= s[i] <= 'z'
    ensures Upper(t) != s
  {
    var i :| 0 <= i < |s| && 'a' <= s[i] <= 'z';
    if |t| == |s| {
      assert Upper(t)[i] != s[i];
    }
  }

  // ---------------------------------------------------------------------------
  // Stripping and splitting

  /** `s.lstrip()`: drops the leading whitespace. */
  function LStrip(s: string): (r: string)
    ensures |r| <= |s| && r == s[|s| - |r|..]
    ensures r == [] || !IsSpace(r[0])
    ensures forall i :: 0 <= i < |s| - |r| ==> IsSpace(s[i])
  {
    if |s| > 0 && IsSpace(s[0]) then LStrip(s[1..]) else s
  }

  /** `s.rstrip()`: drops the trailing whitespace. */
  function RStrip(s: string): (r: string)
    ensures |r| <= |s| && r == s[..|r|]
    ensures r == [] || !IsSpace(r[|r| - 1])
    ensures forall i :: |r| <= i < |s| ==> IsSpace(s[i])
  {
    if |s| > 0 && IsSpace(s[|s| - 1]) then RStrip(s[..|s| - 1]) else s
  }

  /** `s.strip()`. */
  function Strip(s: string): (r: string)
    ensures |r| <= |s|
    ensures r == [] || (!IsSpace(r[0]) && !IsSpace(r[|r| - 1]))
  {
    RStrip(LStrip(s))
  }

  /** `s.strip()` is the slice of `s` left after dropping whitespace at both ends: everything
      before index `i` and everything after the result is whitespace. */
  lemma StripTrims(s: string) returns (i: nat)
    ensures i + |Strip(s)| <= |s| && Strip(s) == s[i..i + |Strip(s)|]
    ensures forall k :: 0 <= k < i ==> IsSpace(s[k])
    ensures forall k :: i + |Strip(s)| <= k < |s| ==> IsSpace(s[k])
  {
    i := TrimmedSlice(s, LStrip(s), Strip(s));
  }

  lemma TrimmedSlice(s: string, l: string, r: string) returns (i: nat)
    requires |l| <= |s| && l == s[|s| - |l|..] && forall k :: 0 <= k < |s| - |l| ==> IsSpace(s[k])
    requires |r| <= |l| && r == l[..|r|] && forall k :: |r| <= k < |l| ==> IsSpace(l[k])
    ensures i + |r| <= |s| && r == s[i..i + |r|]
    ensures forall k :: 0 <= k < i ==> IsSpace(s[k])
    ensures forall k :: i + |r| <= k < |s| ==> IsSpace(s[k])
  {
    i := |s| - |l|;
    assert r == s[i..i + |r|];
    forall k | i + |r| <= k < |s| ensures IsSpace(s[k]) {
      assert s[k] == l[k - i];
    }
  }

  lemma StripOfTrimmed(s: string)
    requires s == [] || (!IsSpace(s[0]) && !IsSpace(s[|s| - 1]))
    ensures Strip(s) == s
  {
  }

  /** Length of the run of non-whitespace characters that starts `t`. */
  function TokenLength(t: string): (n: nat)
    ensures n <= |t|
    ensures forall i :: 0 <= i < n ==> !IsSpace(t[i])
    ensures n == |t| || IsSpace(t[n])
  {
    if t == [] || IsSpace(t[0]) then 0 else 1 + TokenLength(t[1..])
  }

  /** `s.split()`: the maximal runs of non-whitespace characters, in order. */
  function Split(s: string): (r: seq<string>)
    decreases |s|
  {
    var t := LStrip(s);
    if t == [] then []
    else
      var token := FirstToken(t);
      [token] + Split(t[|token|..])
  }

  /** The run of non-whitespace characters that starts `t`. */
  function FirstToken(t: string): (token: string)
    requires t != [] && !IsSpace(t[0])
    ensures 0 < |token| <= |t| && token == t[..|token|] && NoSpace(token)
  {
    t[..TokenLength(t)]
  }

  /** Index of the first occurrence of `c` in `s`. */
  function Find(s: string, c: char): (r: Option<nat>)
    ensures r.None? <==> c !in s
    ensures r.Some? ==> r.value < |s| && s[r.value] == c && c !in s[..r.value]
  {
    if s == [] then None
    else if s[0] == c then Some(0)
    else match Find(s[1..], c)
      case None => None
      case Some(k) =>
        assert s[1..][..k] == s[1..k + 1];
        assert s[..k + 1] == [s[0]] + s[1..k + 1];
        Some(k + 1)
  }

  /** `s.split(sep)` for a one-character separator. */
  function SplitOn(s: string, sep: char): (r: seq<string>)
    ensures |r| >= 1
    ensures forall i :: 0 <= i < |r| ==> sep !in r[i]
    ensures sep !in s ==> r == [s]
    decreases |s|
  {
    match Find(s, sep)
    case None => [s]
    case Some(i) => [s[..i]] + SplitOn(s[i + 1..], sep)
  }

  /** Joining the parts of a split with the separator gives back the text:
      `sep.join(s.split(sep)) == s`. */
  lemma {:induction false} SplitOnJoin(s: string, sep: char)
    ensures Join([sep], SplitOn(s, sep)) == s
    decreases |s|
  {
    match Find(s, sep)
    case None =>
      assert sep !in s;
    case Some(i) =>
      SplitOnJoin(s[i + 1..], sep);
      SplitOnJoinStep(s, sep, i);
  }

  lemma SplitOnJoinStep(s: string, sep: char, i: nat)
    requires Find(s, sep) == Some(i)
    requires Join([sep], SplitOn(s[i + 1..], sep)) == s[i + 1..]
    ensures Join([sep], SplitOn(s, sep)) == s
  {
    var rest := SplitOn(s[i + 1..], sep);
    SplitOnFirst(s, sep, i);
    JoinCons([sep], s[..i], rest);
    SliceAround(s, i);
  }

  lemma SliceAround(s: string, i: nat)
    requires i < |s|
    ensures s == s[..i] + [s[i]] + s[i + 1..]
  {
  }

  /** `sep.join(parts)`. */
  function Join(sep: string, parts: seq<string>): (r: string)
    ensures parts == [] ==> r == []
    ensures |parts| == 1 ==> r == parts[0]
  {
    if parts == [] then []
    else if |parts| == 1 then parts[0]
    else parts[0] + sep + Join(sep, parts[1..])
  }

  lemma SplitOnFirst(s: string, sep: char, i: nat)
    requires Find(s, sep) == Some(i)
    ensures i < |s| && s[i] == sep
    ensures SplitOn(s, sep) == [s[..i]] + SplitOn(s[i + 1..], sep)
  {
    var parts := SplitOn(s, sep);
    assert parts == match Find(s, sep) case None => [s] case Some(k) => [s[..k]] + SplitOn(s[k + 1..], sep);
  }

  lemma JoinCons(sep: string, first: string, rest: seq<string>)
    requires rest != []
    ensures Join(sep, [first] + rest) == first + sep + Join(sep, rest)
  {
    assert ([first] + rest)[1..] == rest;
  }

  /** `''.join(parts)`. */
  function Concat(parts: seq<string>): (r: string)
    ensures parts == [] ==> r == []
  {
    if parts == [] then [] else parts[0] + Concat(parts[1..])
  }

  predicate StartsWith(s: string, prefix: string) {
    |prefix| <= |s| && s[..|prefix|] == prefix
  }

  /** `sub in s`. */
  predicate Contains(s: string, sub: string)
    decreases |s|
  {
    StartsWith(s, sub) || (|s| > 0 && Contains(s[1..], sub))
  }

  /** `s.replace(pat, rep)`: every non-overlapping occurrence, scanning left to right. */
  function Replace(s: string, pat: string, rep: string): (r: string)
    requires pat != []
    ensures !Contains(s, pat) ==> r == s
    decreases |s|
  {
    if |s| < |pat| then s
    else if s[..|pat|] == pat then rep + Replace(s[|pat|..], pat, rep)
    else [s[0]] + Replace(s[1..], pat, rep)
  }

  /** Removing every space from a space-joined list of space-free parts gives their
      concatenation: the round trip `_get_object_data` relies on. */
  lemma {:induction false} ReplaceSpaceInJoin(parts: seq<string>)
    requires forall i :: 0 <= i < |parts| ==> ' ' !in parts[i]
    ensures Replace(Join(" ", parts), " ", "") == Concat(parts)
    decreases |parts|
  {
    if parts == [] {
    } else if |parts| == 1 {
      ReplaceCharFree(parts[0], ' ');
    } else {
      var tail := Join(" ", parts[1..]);
      ReplaceSpaceInJoin(parts[1..]);
      assert Join(" ", parts) == parts[0] + (" " + tail);
      ReplaceCharAppend(parts[0], " " + tail, ' ');
      ReplaceCharFront(tail, ' ');
      ReplaceCharFree(parts[0], ' ');
    }
  }

  /** Removing a character from text that does not contain it changes nothing. */
  lemma {:induction false} ReplaceCharFree(s: string, c: char)
    requires c !in s
    ensures Replace(s, [c], "") == s
    decreases |s|
  {
    if |s| >= 1 {
      assert s[..1] != [c] by { assert s[0] in s; }
      ReplaceCharFree(s[1..], c);
      assert [s[0]] + s[1..] == s;
    }
  }

  /** Removing a leading occurrence of the character. */
  lemma ReplaceCharFront(s: string, c: char)
    ensures Replace([c] + s, [c], "") == Replace(s, [c], "")
  {
    assert ([c] + s)[..1] == [c];
    assert ([c] + s)[1..] == s;
  }

  /** Removing a character distributes over a prefix that does not contain it. */
  lemma {:induction false} ReplaceCharAppend(a: string, b: string, c: char)
    requires c !in a
    ensures Replace(a + b, [c], "") == Replace(a, [c], "") + Replace(b, [c], "")
    decreases |a|
  {
    if a == [] {
      assert a + b == b;
    } else {
      assert a[0] in a;
      assert (a + b)[..1] == a[..1] == [a[0]] != [c];
      assert (a + b)[1..] == a[1..] + b;
      assert Replace(a + b, [c], "") == [a[0]] + Replace(a[1..] + b, [c], "");
      assert Replace(a, [c], "") == [a[0]] + Replace(a[1..], [c], "");
      ReplaceCharAppend(a[1..], b, c);
    }
  }

  // ---------------------------------------------------------------------------
  // Number formatting

  function DigitChar(d: nat): (c: char)
    requires d < 16
    ensures IsDigit(c) || 'A' <= c <= 'F'
  {
    "0123456789ABCDEF"[d]
  }

  /** Decimal digits of `n`, as `str(n)` gives them for `n >= 0`. */
  function NatToDecimal(n: nat): (s: string)
    ensures s != [] && forall i :: 0 <= i < |s| ==> IsDigit(s[i])
  {
    if n < 10 then [DigitChar(n)] else NatToDecimal(n / 10) + [DigitChar(n % 10)]
  }

  /** `str(n)` / `f"{n}"`. */
  function IntToDecimal(n: int): string {
    if n < 0 then "-" + NatToDecimal(-n) else NatToDecimal(n)
  }

  /** Upper-case hexadecimal digits of `n`, no leading zeros (`"0"` for zero). */
  function NatToHex(n: nat): (s: string)
    ensures s != [] && forall i :: 0 <= i < |s| ==> IsDigit(s[i]) || 'A' <= s[i] <= 'F'
    ensures n < 16 ==> |s| == 1
    ensures n < 256 ==> |s| <= 2
  {
    if n < 16 then [DigitChar(n)] else NatToHex(n / 16) + [DigitChar(n % 16)]
  }

  function ZeroPad(s: string, width: int): (r: string)
    ensures |r| == if |s| < width then width else |s|
    ensures r[|r| - |s|..] == s
    ensures forall i :: 0 <= i < |r| - |s| ==> r[i] == '0'
  {
    if |s| < width then seq(width - |s|, _ => '0') + s else s
  }

  /** `f"{n:0{width}X}"`: zero padding goes after the sign, and the width counts the sign. */
  function FormatHex(n: int, width: nat): (s: string)
    ensures n >= 0 ==> |s| >= width
    ensures 0 <= n < 256 && width == 2 ==> |s| == 2
    ensures ' ' !in s && '$' !in s
    ensures s != [] && forall i :: 0 <= i < |s| ==> s[i] == '-' || IsDigit(s[i]) || 'A' <= s[i] <= 'F'
  {
    if n >= 0 then
      var p := PaddedHex(n, width);
      HexCharsExclude(p);
      p
    else
      var p := PaddedHex(-n, width - 1);
      NegativeHexChars(p);
      "-" + p
  }

  /** The characters of `f"{n:X}"` and of its negation. */
  predicate HexChar(c: char) {
    c == '-' || IsDigit(c) || 'A' <= c <= 'F'
  }

  /** The hexadecimal digits of `n` padded with zeros to `width`. */
  function PaddedHex(n: nat, width: int): (s: string)
    ensures |s| >= width && (n < 256 && width == 2 ==> |s| == 2)
    ensures s != [] && forall i :: 0 <= i < |s| ==> IsDigit(s[i]) || 'A' <= s[i] <= 'F'
  {
    var h := NatToHex(n);
    PaddedDigits(h, width);
    ZeroPad(h, width)
  }

  lemma PaddedDigits(h: string, width: int)
    requires forall i :: 0 <= i < |h| ==> IsDigit(h[i]) || 'A' <= h[i] <= 'F'
    ensures var s := ZeroPad(h, width);
      forall i :: 0 <= i < |s| ==> IsDigit(s[i]) || 'A' <= s[i] <= 'F'
  {
    var s := ZeroPad(h, width);
    var k := |s| - |h|;
    forall i | 0 <= i < |s| ensures IsDigit(s[i]) || 'A' <= s[i] <= 'F' {
      if i >= k {
        assert s[i] == s[k..][i - k] == h[i - k];
      }
    }
  }

  lemma HexCharsExclude(s: string)
    requires forall i :: 0 <= i < |s| ==> HexChar(s[i])
    ensures ' ' !in s && '$' !in s
  {
  }

  lemma NegativeHexChars(p: string)
    requires forall i :: 0 <= i < |p| ==> IsDigit(p[i]) || 'A' <= p[i] <= 'F'
    ensures var s := "-" + p;
      (forall i :: 0 <= i < |s| ==> HexChar(s[i])) && ' ' !in s && '$' !in s
  {
    var s := "-" + p;
    forall i | 0 <= i < |s| ensures HexChar(s[i]) {
      if i > 0 {
        assert s[i] == p[i - 1];
      }
    }
  }

  // ---------------------------------------------------------------------------
  // int(text, base)

  /** Value of one digit character; 36 for anything that is not a digit in any base. */
  function DigitValue(c: char): (v: nat)
    ensures v <= 36
  {
    if '0' <= c <= '9' then c as int - '0' as int
    else if 'A' <= c <= 'Z' then c as int - 'A' as int + 10
    else if 'a' <= c <= 'z' then c as int - 'a' as int + 10
    else 36
  }

  predicate IsDigitIn(c: char, base: nat) { DigitValue(c) < base }

  /** Digits of the given base with single underscores between digits, as `int()` accepts
      after the sign and the base prefix. */
  predicate WellFormedDigits(v: string, base: nat) {
    && |v| > 0
    && IsDigitIn(v[0], base)
    && IsDigitIn(v[|v| - 1], base)
    && forall i :: 0 <= i < |v| ==>
         IsDigitIn(v[i], base) || (v[i] == '_' && i + 1 < |v| && IsDigitIn(v[i + 1], base))
  }

  /** Value of a digit string, underscores ignored. */
  function DigitsValue(v: string, base: nat): (n: nat)
    ensures base == 0 ==> n == 0
  {
    if v == [] then 0
    else
      var last := v[|v| - 1];
      var d := if last == '_' || DigitValue(last) >= base then 0 else DigitValue(last);
      if last == '_' then DigitsValue(v[..|v| - 1], base)
      else DigitsValue(v[..|v| - 1], base) * base + d
  }

  /** The `0x` / `0b` prefix `int()` accepts when it matches the base, with the one
      underscore allowed after it. */
  function DropBasePrefix(u: string, base: nat): (v: string)
    ensures |v| <= |u|
  {
    if |u| >= 2 && u[0] == '0'
       && ((base == 16 && (u[1] == 'x' || u[1] == 'X')) || (base == 2 && (u[1] == 'b' || u[1] == 'B')))
    then
      var r := u[2..];
      if |r| > 0 && r[0] == '_' then r[1..] else r
    else u
  }

  /** `repr(s)` for strings without quotes, backslashes or unprintable characters. */
  function Repr(s: string): string { "'" + s + "'" }

  function InvalidLiteral(s: string, base: nat): string {
    "invalid literal for int() with base " + NatToDecimal(base) + ": " + Repr(s)
  }

  /** `int(s, base)` for base 2, 10 and 16: surrounding whitespace, one sign, the base
      prefix, digits with single underscores; anything else raises `ValueError`. */
  function PyInt(s: string, base: nat): (r: Result<int>)
    requires base == 2 || base == 10 || base == 16
    ensures r.Err? ==> r.msg == InvalidLiteral(s, base)
  {
    var t := Strip(s);
    var signed := |t| > 0 && (t[0] == '-' || t[0] == '+');
    var u := if signed then t[1..] else t;
    var v := DropBasePrefix(u, base);
    if WellFormedDigits(v, base) then
      var magnitude: int := DigitsValue(v, base);
      Ok(if signed && t[0] == '-' then -magnitude else magnitude)
    else Err(InvalidLiteral(s, base))
  }

  // ---------------------------------------------------------------------------
  // Round trip of the hexadecimal format through int(..., 16)

  lemma {:induction false} HexDigitsValue(n: nat)
    ensures DigitsValue(NatToHex(n), 16) == n
    decreases n
  {
    if n >= 16 {
      HexDigitsValue(n / 16);
      DigitCharValue(n % 16);
      DigitsValueSnoc(NatToHex(n / 16), DigitChar(n % 16), 16);
    }
  }

  lemma DigitCharValue(d: nat)
    requires d < 16
    ensures DigitValue(DigitChar(d)) == d
  {
  }

  /** Appending a digit multiplies the value by the base and adds the digit. */
  lemma DigitsValueSnoc(p: string, c: char, base: nat)
    requires base <= 16 && IsDigitIn(c, base)
    ensures DigitsValue(p + [c], base) == DigitsValue(p, base) * base + DigitValue(c)
  {
    assert (p + [c])[..|p|] == p;
  }

  lemma {:induction false} LeadingZerosValue(z: string, s: string, base: nat)
    requires forall i :: 0 <= i < |z| ==> z[i] == '0'
    requires base > 0
    ensures DigitsValue(z + s, base) == DigitsValue(s, base)
    decreases |s|
  {
    if s == [] {
      assert z + s == z;
      ZerosValue(z, base);
    } else {
      assert (z + s)[..|z + s| - 1] == z + s[..|s| - 1];
      LeadingZerosValue(z, s[..|s| - 1], base);
    }
  }

  lemma {:induction false} ZerosValue(z: string, base: nat)
    requires forall i :: 0 <= i < |z| ==> z[i] == '0'
    requires base > 0
    ensures DigitsValue(z, base) == 0
    decreases |z|
  {
    if z != [] {
      ZerosValue(z[..|z| - 1], base);
    }
  }

  predicate AllHexDigits(p: string) {
    forall i :: 0 <= i < |p| ==> IsDigitIn(p[i], 16)
  }

  /** A zero-padded hexadecimal text consists of hexadecimal digits only. */
  lemma PaddedHexDigits(m: nat, width: int)
    ensures AllHexDigits(ZeroPad(NatToHex(m), width))
  {
    var h := NatToHex(m);
    var p := ZeroPad(h, width);
    var z := |p| - |h|;
    forall i | 0 <= i < |p| ensures IsDigitIn(p[i], 16) {
      if i < z { assert p[i] == '0'; } else { assert p[i] == p[z..][i - z] == h[i - z]; }
    }
  }

  /** A zero-padded hexadecimal text has value `m`. */
  lemma PaddedHexValue(m: nat, width: int)
    ensures DigitsValue(ZeroPad(NatToHex(m), width), 16) == m
  {
    var h := NatToHex(m);
    var p := ZeroPad(h, width);
    var z := p[..|p| - |h|];
    assert p == z + h;
    HexDigitsValue(m);
    LeadingZerosValue(z, h, 16);
  }

  function Signed(neg: bool, m: nat): int {
    var v: int := m;
    if neg then -v else v
  }

  /** `int()` of an optional minus sign followed by a well-formed digit string that does
      not start with a base prefix. */
  lemma PyIntOfDigits(neg: bool, p: string, base: nat)
    requires base == 2 || base == 10 || base == 16
    requires WellFormedDigits(p, base) && DropBasePrefix(p, base) == p
    ensures PyInt((if neg then "-" else "") + p, base) == Ok(Signed(neg, DigitsValue(p, base)))
  {
    var s := (if neg then "-" else "") + p;
    assert Strip(s) == s by {
      assert !IsSpace(p[0]) && !IsSpace(p[|p| - 1]);
      assert s[|s| - 1] == p[|p| - 1];
      StripOfTrimmed(s);
    }
    assert (|s| > 0 && (s[0] == '-' || s[0] == '+')) == neg;
    assert (if neg then s[1..] else s) == p;
  }

  /** A non-negative value formatted as hexadecimal reads back through `int()` with the
      `0X` prefix in front. */
  lemma HexPrefixRoundTrip(n: nat, width: nat)
    ensures PyInt("0X" + FormatHex(n, width), 16) == Ok(n)
  {
    var h := FormatHex(n, width);
    assert h == ZeroPad(NatToHex(n), width);
    PaddedHexDigits(n, width);
    HexDigitsWellFormed(h);
    PaddedHexValue(n, width);
    PyIntOfHexPrefix(h);
  }

  /** `int("0X" + p, 16)` of well-formed hexadecimal digits: the prefix is dropped. */
  lemma PyIntOfHexPrefix(p: string)
    requires WellFormedDigits(p, 16)
    ensures PyInt("0X" + p, 16) == Ok(DigitsValue(p, 16))
  {
    var s := "0X" + p;
    assert s[|s| - 1] == p[|p| - 1];
    assert Strip(s) == s by { StripOfTrimmed(s); }
    assert s[2..] == p;
    assert DropBasePrefix(s, 16) == p;
  }

  /** A non-empty run of `0` and `1` is well-formed binary text without a prefix. */
  lemma BinaryDigitsWellFormed(d: string)
    requires d != [] && forall i :: 0 <= i < |d| ==> d[i] == '0' || d[i] == '1'
    ensures WellFormedDigits(d, 2) && DropBasePrefix(d, 2) == d
  {
    forall i | 0 <= i < |d| ensures IsDigitIn(d[i], 2) {
      assert DigitValue(d[i]) <= 1;
    }
    if |d| >= 2 { assert d[1] != 'b' && d[1] != 'B'; }
  }

  /** `int()` of a well-formed digit string without sign or base prefix is its value. */
  lemma PyIntOfUnsigned(p: string, base: nat)
    requires base == 2 || base == 10 || base == 16
    requires WellFormedDigits(p, base) && DropBasePrefix(p, base) == p
    ensures PyInt(p, base) == Ok(DigitsValue(p, base))
  {
    PyIntOfDigits(false, p, base);
    assert (if false then "-" else "") + p == p;
  }

  /** A possibly negated zero-padded hexadecimal text parses back to its value. */
  lemma PaddedHexParses(neg: bool, m: nat, w: int)
    ensures PyInt((if neg then "-" else "") + ZeroPad(NatToHex(m), w), 16) == Ok(Signed(neg, m))
  {
    var p := ZeroPad(NatToHex(m), w);
    PaddedHexDigits(m, w);
    HexDigitsWellFormed(p);
    PyIntOfDigits(neg, p, 16);
    PaddedHexValue(m, w);
  }

  lemma HexDigitsWellFormed(p: string)
    requires p != [] && AllHexDigits(p)
    ensures WellFormedDigits(p, 16) && DropBasePrefix(p, 16) == p
  {
    if |p| >= 2 { assert IsDigitIn(p[1], 16); }
  }

  /** Every integer survives `int(f"{n:0{w}X}", 16)`: the address and byte texts that pass 2
      stores are read back exactly by `_get_object_data`. */
  lemma HexRoundTrip(n: int, width: nat)
    ensures PyInt(FormatHex(n, width), 16) == Ok(n)
  {
    if n >= 0 {
      PaddedHexParses(false, n, width);
      assert FormatHex(n, width) == "" + ZeroPad(NatToHex(n), width);
    } else {
      var m: nat := -n;
      PaddedHexParses(true, m, width - 1);
      assert Signed(true, m) == n;
      assert FormatHex(n, width) == "-" + ZeroPad(NatToHex(m), width - 1);
    }
  }
}
