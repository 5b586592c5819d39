/** Values and string operations shared by every module: JavaScript's notion of white space,
    `String.prototype.split`, `Array.prototype.join`, `trim` and decimal numbers. */
module Common {

  datatype Option<T> = None | Some(value: T)

  function Min(a: int, b: int): (m: int)
    ensures m <= a && m <= b && (m == a || m == b)
  {
    if a <= b then a else b
  }

  /** The code points JavaScript's `\s` and `trim` treat as white space
      (WhiteSpace and LineTerminator of ECMA-262). */
  predicate IsSpace(c: char) {
    var n := c as int;
    n == 0x09 || n == 0x0A || n == 0x0B || n == 0x0C || n == 0x0D || n == 0x20
    || n == 0xA0 || n == 0x1680 || (0x2000 <= n <= 0x200A) || n == 0x2028 || n == 0x2029
    || n == 0x202F || n == 0x205F || n == 0x3000 || n == 0xFEFF
  }

  /** The code points a regular-expression `.` does not match. */
  predicate IsLineTerminator(c: char) {
    var n := c as int;
    n == 0x0A || n == 0x0D || n == 0x2028 || n == 0x2029
  }

  predicate IsDigit(c: char) {
    '0' <= c <= '9'
  }

  predicate AllSpace(s: string) {
    forall i :: 0 <= i < |s| ==> IsSpace(s[i])
  }

  /** `/^\d+$/`: a non-empty run of ASCII digits. */
  predicate IsDigits(s: string) {
    |s| > 0 && forall i :: 0 <= i < |s| ==> IsDigit(s[i])
  }

  predicate NoLineTerminator(s: string) {
    forall i :: 0 <= i < |s| ==> !IsLineTerminator(s[i])
  }

  /** `s.trim().length === 0`. */
  predicate IsBlank(s: string) {
    AllSpace(s)
  }

  predicate StartsWith(s: string, p: string) {
    |p| <= |s| && s[..|p|] == p
  }

  /** Strings that differ in their first character do not start one with the other. */
  lemma NotStartsWith(s: string, p: string)
    requires |s| > 0 && |p| > 0 && s[0] != p[0]
    ensures !StartsWith(s, p)
  {
    assert |p| <= |s| ==> s[..|p|][0] == s[0];
  }

  lemma AppendAssoc<T>(a: seq<T>, b: seq<T>, c: seq<T>)
    ensures (a + b) + c == a + (b + c)
  {
  }

  lemma AllSpaceCons(c: char, s: string)
    requires IsSpace(c) && AllSpace(s)
    ensures AllSpace([c] + s)
  {
    assert forall i :: 1 <= i < |s| + 1 ==> ([c] + s)[i] == s[i - 1];
  }

  lemma AllSpaceSnoc(s: string, c: char)
    requires AllSpace(s) && IsSpace(c)
    ensures AllSpace(s + [c])
  {
    assert forall i :: 0 <= i < |s| ==> (s + [c])[i] == s[i];
  }

  /** Length of the white-space run at the start of `s`. */
  function LeadingSpaces(s: string): (n: nat)
    ensures n <= |s|
    ensures AllSpace(s[..n])
    ensures n < |s| ==> !IsSpace(s[n])
  {
    if |s| == 0 || !IsSpace(s[0]) then 0
    else
      var m := LeadingSpaces(s[1..]);
      assert s[..1 + m] == [s[0]] + s[1..][..m];
      AllSpaceCons(s[0], s[1..][..m]);
      1 + m
  }

  /** `s` without its leading white space. */
  function DropSpaces(s: string): (t: string)
    ensures |t| <= |s|
    ensures |t| > 0 ==> !IsSpace(t[0])
  {
    s[LeadingSpaces(s)..]
  }

  lemma DropSpacesAppend(ws: string, s: string)
    requires AllSpace(ws)
    ensures DropSpaces(ws + s) == DropSpaces(s)
  {
    LeadingSpacesAppend(ws, s);
    assert (ws + s)[|ws| + LeadingSpaces(s)..] == s[LeadingSpaces(s)..];
  }

  /** Length of the white-space run at the end of `s`. */
  function TrailingSpaces(s: string): (n: nat)
    ensures n <= |s|
    ensures AllSpace(s[|s| - n..])
    ensures n < |s| ==> !IsSpace(s[|s| - n - 1])
  {
    if |s| == 0 || !IsSpace(s[|s| - 1]) then 0
    else
      var m := TrailingSpaces(s[..|s| - 1]);
      assert s[|s| - (1 + m)..] == s[..|s| - 1][|s| - 1 - m..] + [s[|s| - 1]];
      AllSpaceSnoc(s[..|s| - 1][|s| - 1 - m..], s[|s| - 1]);
      1 + m
  }

  /** White space in front of `t` adds to the length of its leading run. */
  lemma {:induction false} LeadingSpacesAppend(ws: string, t: string)
    requires AllSpace(ws)
    ensures LeadingSpaces(ws + t) == |ws| + LeadingSpaces(t)
  {
    if |ws| > 0 {
      assert (ws + t)[1..] == ws[1..] + t;
      LeadingSpacesAppend(ws[1..], t);
    } else {
      assert ws + t == t;
    }
  }

  /** A white-space prefix is covered by the leading run. */
  lemma {:induction false} LeadingSpacesAtLeast(s: string, j: nat)
    requires j <= |s| && AllSpace(s[..j])
    ensures LeadingSpaces(s) >= j
  {
    if j > 0 {
      assert s[1..][..j - 1] == s[1..j];
      LeadingSpacesAtLeast(s[1..], j - 1);
    }
  }

  /** Length of the digit run at the start of `s`. */
  function LeadingDigits(s: string): (n: nat)
    ensures n <= |s|
    ensures forall i :: 0 <= i < n ==> IsDigit(s[i])
    ensures n < |s| ==> !IsDigit(s[n])
  {
    if |s| == 0 || !IsDigit(s[0]) then 0 else 1 + LeadingDigits(s[1..])
  }

  /** A digit run followed by a non-digit is exactly the leading digit run. */
  lemma {:induction false} LeadingDigitsAppend(d: string, t: string)
    requires forall i :: 0 <= i < |d| ==> IsDigit(d[i])
    requires |t| > 0 ==> !IsDigit(t[0])
    ensures LeadingDigits(d + t) == |d|
  {
    if |d| > 0 {
      assert (d + t)[1..] == d[1..] + t;
      LeadingDigitsAppend(d[1..], t);
    } else {
      assert d + t == t;
    }
  }

  /** `String.prototype.trim`: the slice of `s` between its leading and trailing white space. */
  function Trim(s: string): (r: string)
    ensures |r| <= |s|
    ensures r == "" <==> AllSpace(s)
    ensures r != "" ==> !IsSpace(r[0]) && !IsSpace(r[|r| - 1])
    ensures var k := LeadingSpaces(s);
            k + |r| <= |s| && r == s[k..k + |r|] && AllSpace(s[k + |r|..])
  {
    var k := LeadingSpaces(s);
    var r := TrimEnd(s[k..]);
    assert s[k + |r|..] == s[k..][|r|..];
    AllSpaceJoin(s, k, k + |r|);
    r
  }

  /** `s` without its trailing white space. */
  function TrimEnd(a: string): (r: string)
    ensures |r| <= |a| && r == a[..|r|] && AllSpace(a[|r|..])
    ensures r != "" ==> !IsSpace(r[|r| - 1])
  {
    a[..|a| - TrailingSpaces(a)]
  }

  lemma AllSpaceJoin(s: string, k: nat, j: nat)
    requires k <= j <= |s|
    requires AllSpace(s[..k]) && AllSpace(s[j..])
    ensures j == k ==> AllSpace(s)
  {
    if j == k {
      forall i | 0 <= i < |s| ensures IsSpace(s[i]) {
        if i < k { assert s[..k][i] == s[i]; } else { assert s[j..][i - j] == s[i]; }
      }
    }
  }

  /** Trimming ignores white space put in front. */
  lemma TrimSpacePrefix(ws: string, t: string)
    requires AllSpace(ws)
    ensures Trim(ws + t) == Trim(t)
  {
    LeadingSpacesAppend(ws, t);
    var k := LeadingSpaces(t);
    var a := (ws + t)[|ws| + k..];
    assert a == t[k..];
    assert Trim(ws + t) == TrimEnd(a);
  }

  lemma DigitNotSpace(c: char)
    requires IsDigit(c)
    ensures !IsSpace(c)
  {
  }

  /** White space, then text with no white space at either end: trimming gives the text. */
  lemma TrimAfterSpace(ws: string, u: string)
    requires AllSpace(ws) && |u| > 0 && !IsSpace(u[0]) && !IsSpace(u[|u| - 1])
    ensures Trim(ws + u) == u
  {
    TrimSpacePrefix(ws, u);
    TrimUnchanged(u);
  }

  /** A string with no white space at either end is its own trim. */
  lemma TrimUnchanged(s: string)
    requires |s| > 0 && !IsSpace(s[0]) && !IsSpace(s[|s| - 1])
    ensures Trim(s) == s
  {
  }

  /** `String.prototype.split(c)` for a one-character separator. */
  function Split(s: string, c: char): (parts: seq<string>)
    ensures |parts| >= 1
    ensures forall i :: 0 <= i < |parts| ==> c !in parts[i]
  {
    if |s| == 0 then [""]
    else
      var rest := Split(s[1..], c);
      if s[0] == c then [""] + rest
      else [[s[0]] + rest[0]] + rest[1..]
  }

  /** `Array.prototype.join(sep)`. */
  function Join(parts: seq<string>, sep: string): string {
    if |parts| == 0 then ""
    else if |parts| == 1 then parts[0]
    else parts[0] + sep + Join(parts[1..], sep)
  }

  /** A character in neither the parts nor the separator is not in their join. */
  lemma {:induction false} JoinAvoids(parts: seq<string>, sep: string, c: char)
    requires forall i :: 0 <= i < |parts| ==> c !in parts[i]
    requires c !in sep
    ensures c !in Join(parts, sep)
  {
    if |parts| > 1 {
      JoinAvoids(parts[1..], sep, c);
    }
  }

  /** The number of occurrences of `c` in `s`. */
  function Count(s: string, c: char): nat {
    if |s| == 0 then 0 else (if s[0] == c then 1 else 0) + Count(s[1..], c)
  }

  /** Splitting never loses a character: joining the parts with the separator gives `s` back. */
  lemma {:induction false} JoinSplit(s: string, c: char)
    ensures Join(Split(s, c), [c]) == s
  {
    if |s| > 0 {
      JoinSplit(s[1..], c);
      var rest := Split(s[1..], c);
      if s[0] == c {
        assert Join([""] + rest, [c]) == "" + [c] + Join(rest, [c]);
        assert s == [c] + s[1..];
      } else {
        var parts := [[s[0]] + rest[0]] + rest[1..];
        if |rest| == 1 {
          assert Join(parts, [c]) == [s[0]] + rest[0];
        } else {
          assert parts[1..] == rest[1..];
          assert Join(parts, [c]) == [s[0]] + rest[0] + [c] + Join(rest[1..], [c]);
          assert Join(rest, [c]) == rest[0] + [c] + Join(rest[1..], [c]);
        }
        assert s == [s[0]] + s[1..];
      }
    }
  }

  /** There is one more part than there are separators, so no part is dropped or merged. */
  lemma {:induction false} SplitCount(s: string, c: char)
    ensures |Split(s, c)| == Count(s, c) + 1
  {
    if |s| > 0 {
      SplitCount(s[1..], c);
    }
  }

  /** Joining parts that do not contain the separator and splitting again gives the parts back. */
  lemma {:induction false} SplitJoin(parts: seq<string>, c: char)
    requires |parts| >= 1
    requires forall i :: 0 <= i < |parts| ==> c !in parts[i]
    ensures Split(Join(parts, [c]), c) == parts
  {
    if |parts| == 1 {
      SplitNoSeparator(parts[0], c);
    } else {
      SplitJoin(parts[1..], c);
      var tail := Join(parts[1..], [c]);
      SplitAppend(parts[0], tail, c);
      assert Join(parts, [c]) == parts[0] + [c] + tail;
      assert [parts[0]] + parts[1..] == parts;
    }
  }

  lemma {:induction false} SplitNoSeparator(s: string, c: char)
    requires c !in s
    ensures Split(s, c) == [s]
  {
    if |s| > 0 {
      assert c !in s[1..] by {
        assert forall k :: 0 <= k < |s| - 1 ==> s[1..][k] == s[k + 1];
      }
      SplitNoSeparator(s[1..], c);
      assert s == [s[0]] + s[1..];
    }
  }

  lemma {:induction false} SplitAppend(a: string, b: string, c: char)
    requires c !in a
    ensures Split(a + [c] + b, c) == [a] + Split(b, c)
  {
    if |a| == 0 {
      assert a + [c] + b == [c] + b;
      assert ([c] + b)[1..] == b;
    } else {
      assert (a + [c] + b)[1..] == a[1..] + [c] + b;
      assert c !in a[1..] by {
        assert forall k :: 0 <= k < |a| - 1 ==> a[1..][k] == a[k + 1];
      }
      SplitAppend(a[1..], b, c);
      assert [a[0]] + a[1..] == a;
    }
  }

  function DigitValue(c: char): nat
    requires IsDigit(c)
  {
    (c as int) - ('0' as int)
  }

  /** `parseInt(s, 10)` of a digit string. */
  function DigitsValue(s: string): nat
    requires forall i :: 0 <= i < |s| ==> IsDigit(s[i])
  {
    if |s| == 0 then 0 else DigitsValue(s[..|s| - 1]) * 10 + DigitValue(s[|s| - 1])
  }

  /** The decimal rendering of a natural number, as a template literal shows it. */
  function NatToString(n: nat): (s: string)
    ensures IsDigits(s)
  {
    if n < 10 then [('0' as int + n) as char]
    else NatToString(n / 10) + [('0' as int + n % 10) as char]
  }

  function IntToString(n: int): string {
    if n < 0 then "-" + NatToString(-n) else NatToString(n)
  }

  /** Reading back a rendered number gives the number. */
  lemma {:induction false} NatToStringValue(n: nat)
    ensures DigitsValue(NatToString(n)) == n
  {
    if n >= 10 {
      NatToStringValue(n / 10);
      var s := NatToString(n);
      assert s[..|s| - 1] == NatToString(n / 10);
    }
  }

  /** A UTF-16 code unit: what JavaScript strings are made of. */
  newtype CodeUnit = x: int | 0 <= x < 0x10000

  /** A JavaScript string as held in memory: its `length`, indices and slices count code units,
      so a character outside the Basic Multilingual Plane counts two. */
  type JsString = seq<CodeUnit>

  const NewlineUnit: CodeUnit := 0x0A

  predicate IsSurrogate(u: CodeUnit) {
    0xD800 <= u < 0xE000
  }

  /** The UTF-16 encoding of one character: one unit inside the Basic Multilingual Plane, a
      surrogate pair outside it. */
  function Utf16Char(c: char): (u: JsString)
    ensures |u| == (if c as int < 0x10000 then 1 else 2)
    ensures c as int < 0x10000 ==> u[0] as int == c as int && !IsSurrogate(u[0])
    ensures c as int >= 0x10000 ==> 0xD800 <= u[0] < 0xDC00 && 0xDC00 <= u[1] < 0xE000
  {
    var n := c as int;
    if n < 0x10000 then [n as CodeUnit]
    else
      var v := n - 0x10000;
      [(0xD800 + v / 0x400) as CodeUnit, (0xDC00 + v % 0x400) as CodeUnit]
  }

  /** The JavaScript string holding the characters `s`. */
  function Utf16(s: string): (u: JsString)
    ensures |u| >= |s|
  {
    if |s| == 0 then [] else Utf16Char(s[0]) + Utf16(s[1..])
  }

  /** Reading a JavaScript string back as characters; a lone surrogate is skipped. */
  function FromUtf16(u: JsString): string
    decreases |u|
  {
    if |u| == 0 then ""
    else if 0xD800 <= u[0] < 0xDC00 && |u| >= 2 && 0xDC00 <= u[1] < 0xE000 then
      var n := 0x10000 + (u[0] as int - 0xD800) * 0x400 + (u[1] as int - 0xDC00);
      [n as char] + FromUtf16(u[2..])
    else if IsSurrogate(u[0]) then FromUtf16(u[1..])
    else [u[0] as int as char] + FromUtf16(u[1..])
  }

  lemma CharRoundTrip(c: char, rest: JsString)
    ensures FromUtf16(Utf16Char(c) + rest) == [c] + FromUtf16(rest)
  {
    var u := Utf16Char(c) + rest;
    var n := c as int;
    if n >= 0x10000 {
      var v := n - 0x10000;
      assert v == (v / 0x400) * 0x400 + v % 0x400;
      assert u[2..] == rest;
    } else {
      assert u[1..] == rest;
    }
  }

  /** The encoding loses nothing: decoding gives the characters back. */
  lemma {:induction false} Utf16RoundTrip(s: string)
    ensures FromUtf16(Utf16(s)) == s
    decreases |s|
  {
    if |s| > 0 {
      Utf16RoundTrip(s[1..]);
      CharRoundTrip(s[0], Utf16(s[1..]));
      assert [s[0]] + s[1..] == s;
    }
  }

  /** Encoding is character by character, so it distributes over concatenation. */
  lemma {:induction false} Utf16Append(a: string, b: string)
    ensures Utf16(a + b) == Utf16(a) + Utf16(b)
    decreases |a|
  {
    if |a| == 0 {
      assert a + b == b;
    } else {
      assert (a + b)[1..] == a[1..] + b;
      Utf16Append(a[1..], b);
      AppendAssoc(Utf16Char(a[0]), Utf16(a[1..]), Utf16(b));
    }
  }

  /** The number of characters outside the Basic Multilingual Plane. */
  function AstralCount(s: string): (n: nat)
    ensures n <= |s|
  {
    if |s| == 0 then 0 else (if s[0] as int >= 0x10000 then 1 else 0) + AstralCount(s[1..])
  }

  /** The JavaScript `length`: characters of the Basic Multilingual Plane count one, the others
      two. */
  lemma {:induction false} Utf16Length(s: string)
    ensures |Utf16(s)| == |s| + AstralCount(s)
    decreases |s|
  {
    if |s| > 0 {
      Utf16Length(s[1..]);
    }
  }

  /** Text made only of characters outside the Basic Multilingual Plane (most emoji) is twice as
      long in JavaScript, and none of its units is a line break. */
  lemma {:induction false} AstralText(s: string)
    requires forall i :: 0 <= i < |s| ==> s[i] as int >= 0x10000
    ensures |Utf16(s)| == 2 * |s|
    ensures forall k :: 0 <= k < |Utf16(s)| ==> Utf16(s)[k] != NewlineUnit
    decreases |s|
  {
    if |s| > 0 {
      AstralText(s[1..]);
      var u := Utf16(s);
      assert u == Utf16Char(s[0]) + Utf16(s[1..]);
      forall k | 0 <= k < |u| ensures u[k] != NewlineUnit {
        if k >= 2 { assert u[k] == Utf16(s[1..])[k - 2]; }
      }
    }
  }
}
