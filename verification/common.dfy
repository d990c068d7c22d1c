/**
 * JavaScript value semantics that the rest of the model relies on: optional values
 * (null/undefined), truthiness of strings and numbers, the String.prototype methods
 * the handlers call (startsWith, includes, toLowerCase, trim, split), the decimal
 * rendering of an integer in a template string, and parseInt.
 */
module Common {

  datatype Option<+T> = None | Some(value: T)

  datatype Result<+T, +E> = Ok(value: T) | Err(error: E)

  /** Truthiness of an optional string: present and not the empty string. */
  predicate Truthy(s: Option<string>) {
    s.Some? && s.value != ""
  }

  /** Truthiness of an optional number: present and not zero. */
  predicate TruthyNum(n: Option<int>) {
    n.Some? && n.value != 0
  }

  /** `a || b` on optional strings. */
  function OrElse(a: Option<string>, b: string): (r: string)
    ensures Truthy(a) ==> r == a.value
    ensures !Truthy(a) ==> r == b
  {
    if Truthy(a) then a.value else b
  }

  function Min(a: int, b: int): int {
    if a <= b then a else b
  }

  // ---------------------------------------------------------------------------
  // Strings

  predicate StartsWith(s: string, prefix: string) {
    |prefix| <= |s| && s[..|prefix|] == prefix
  }

  predicate EndsWith(s: string, suffix: string) {
    |suffix| <= |s| && s[|s| - |suffix|..] == suffix
  }

  /** `s.includes(sub)`: `sub` occurs at some position of `s`. */
  predicate Contains(s: string, sub: string)
    decreases |s|
  {
    StartsWith(s, sub) || (s != [] && Contains(s[1..], sub))
  }

  lemma {:induction false} ContainsAt(s: string, sub: string, i: nat)
    requires i + |sub| <= |s| && s[i..i + |sub|] == sub
    ensures Contains(s, sub)
    decreases i
  {
    if i == 0 {
      assert s[..|sub|] == sub;
    } else {
      assert s[1..][i - 1..i - 1 + |sub|] == s[i..i + |sub|];
      ContainsAt(s[1..], sub, i - 1);
    }
  }

  lemma {:induction false} ContainsWitness(s: string, sub: string) returns (i: nat)
    requires Contains(s, sub)
    ensures i + |sub| <= |s| && s[i..i + |sub|] == sub
    decreases |s|
  {
    if StartsWith(s, sub) {
      i := 0;
    } else {
      var j := ContainsWitness(s[1..], sub);
      assert s[1..][j..j + |sub|] == s[j + 1..j + 1 + |sub|];
      i := j + 1;
    }
  }

  /** A string lacking one of the characters of `sub` does not include `sub`. */
  lemma MissingCharNotContained(s: string, sub: string, k: nat)
    requires k < |sub| && sub[k] !in s
    ensures !Contains(s, sub)
  {
    if Contains(s, sub) {
      var i := ContainsWitness(s, sub);
      assert false;
    }
  }

  /** `includes` in a concatenation: an occurrence in either part is an occurrence in the whole. */
  lemma ContainsInConcat(a: string, b: string, sub: string)
    requires Contains(a, sub) || Contains(b, sub)
    ensures Contains(a + b, sub)
  {
    if Contains(a, sub) {
      var i := ContainsWitness(a, sub);
      assert (a + b)[i..i + |sub|] == a[i..i + |sub|];
      ContainsAt(a + b, sub, i);
    } else {
      var i := ContainsWitness(b, sub);
      assert (a + b)[|a| + i..|a| + i + |sub|] == b[i..i + |sub|];
      ContainsAt(a + b, sub, |a| + i);
    }
  }

  /** `toLowerCase` on the ASCII letters. */
  function LowerChar(c: char): char {
    if 'A' <= c <= 'Z' then (c as int + 32) as char else c
  }

  function ToLower(s: string): (r: string)
    ensures |r| == |s|
    ensures forall i :: 0 <= i < |s| ==> r[i] == LowerChar(s[i])
  {
    seq(|s|, i requires 0 <= i < |s| => LowerChar(s[i]))
  }

  /** Lower-casing twice is lower-casing once. */
  lemma ToLowerIdempotent(s: string)
    ensures ToLower(ToLower(s)) == ToLower(s)
  {
    assert forall i :: 0 <= i < |s| ==> LowerChar(LowerChar(s[i])) == LowerChar(s[i]);
  }

  /**
   * The characters `trim` and `parseInt` skip: ECMAScript's WhiteSpace (tab, vertical tab, form
   * feed, space, no-break space, the byte order mark and the other space separators) and its
   * LineTerminators.
   */
  predicate IsSpace(c: char) {
    || c == '\t' || c == '\n' || c == '\U{000B}' || c == '\U{000C}' || c == '\r' || c == ' '
    || c == '\U{00A0}' || c == '\U{1680}' || '\U{2000}' <= c <= '\U{200A}'
    || c == '\U{2028}' || c == '\U{2029}' || c == '\U{202F}' || c == '\U{205F}' || c == '\U{3000}'
    || c == '\U{FEFF}'
  }

  function TrimStart(s: string): (r: string)
    ensures |r| <= |s| && EndsWith(s, r)
    ensures r == [] || !IsSpace(r[0])
    decreases |s|
  {
    if s != [] && IsSpace(s[0]) then TrimStart(s[1..]) else s
  }

  function TrimEnd(s: string): (r: string)
    ensures |r| <= |s| && StartsWith(s, r)
    ensures r == [] || !IsSpace(r[|r| - 1])
    decreases |s|
  {
    if s != [] && IsSpace(s[|s| - 1]) then TrimEnd(s[..|s| - 1]) else s
  }

  /** `s.trim()`. */
  function Trim(s: string): string {
    TrimEnd(TrimStart(s))
  }

  /** `s.split(c)`: the pieces between the separators, in order; one more piece than separators. */
  function Split(s: string, c: char): (r: seq<string>)
    ensures |r| >= 1
    ensures forall k :: 0 <= k < |r| ==> c !in r[k]
    decreases |s|
  {
    if s == [] then [""]
    else
      var rest := Split(s[1..], c);
      if s[0] == c then [""] + rest else [[s[0]] + rest[0]] + rest[1..]
  }

  /** A string without the separator is one piece. */
  lemma {:induction false} SplitNone(s: string, c: char)
    requires c !in s
    ensures Split(s, c) == [s]
    decreases |s|
  {
    if s != [] {
      SplitNone(s[1..], c);
      assert [s[0]] + s[1..] == s;
    }
  }

  /** The first piece ends at the first separator; the pieces after it are those of the rest. */
  lemma {:induction false} SplitFirst(a: string, c: char, b: string)
    requires c !in a
    ensures Split(a + [c] + b, c) == [a] + Split(b, c)
    decreases |a|
  {
    if a == [] {
      assert a + [c] + b == [c] + b;
      assert ([c] + b)[1..] == b;
    } else {
      assert (a + [c] + b)[1..] == a[1..] + [c] + b;
      SplitFirst(a[1..], c, b);
      assert [a[0]] + a[1..] == a;
    }
  }

  /** `a.join(sep)`. */
  function Join(parts: seq<string>, sep: string): string
    decreases |parts|
  {
    if parts == [] then ""
    else if |parts| == 1 then parts[0]
    else parts[0] + sep + Join(parts[1..], sep)
  }

  /** Splitting on the separator undoes joining with it, when no piece contains the separator. */
  lemma {:induction false} SplitJoin(parts: seq<string>, c: char)
    requires |parts| >= 1
    requires forall k :: 0 <= k < |parts| ==> c !in parts[k]
    ensures Split(Join(parts, [c]), c) == parts
    decreases |parts|
  {
    if |parts| == 1 {
      SplitNone(parts[0], c);
    } else {
      SplitJoin(parts[1..], c);
      SplitFirst(parts[0], c, Join(parts[1..], [c]));
      assert [parts[0]] + parts[1..] == parts;
    }
  }

  // ---------------------------------------------------------------------------
  // Numbers in strings

  predicate IsDigit(c: char) {
    '0' <= c <= '9'
  }

  function DigitChar(d: nat): (c: char)
    requires d < 10
    ensures IsDigit(c)
  {
    ('0' as int + d) as char
  }

  function DigitValue(c: char): nat
    requires IsDigit(c)
  {
    c as int - '0' as int
  }

  /** The decimal rendering of a natural number, as a template string prints it. */
  function NatToString(n: nat): (r: string)
    ensures |r| >= 1
    ensures forall i :: 0 <= i < |r| ==> IsDigit(r[i])
    decreases n
  {
    if n < 10 then [DigitChar(n)] else NatToString(n / 10) + [DigitChar(n % 10)]
  }

  /** The decimal rendering of an integer, with a leading '-' when negative. */
  function IntToString(n: int): string {
    if n < 0 then "-" + NatToString(-n) else NatToString(n)
  }

  /** The number of leading decimal digits of `s`. */
  function DigitRun(s: string): (k: nat)
    ensures k <= |s|
    ensures forall i :: 0 <= i < k ==> IsDigit(s[i])
    ensures k < |s| ==> !IsDigit(s[k])
    decreases |s|
  {
    if s != [] && IsDigit(s[0]) then 1 + DigitRun(s[1..]) else 0
  }

  /** The value of a string of decimal digits, most significant first. */
  function DigitsValue(s: string): nat
    requires forall i :: 0 <= i < |s| ==> IsDigit(s[i])
    decreases |s|
  {
    if s == [] then 0 else DigitsValue(s[..|s| - 1]) * 10 + DigitValue(s[|s| - 1])
  }

  predicate IsHexDigit(c: char) {
    IsDigit(c) || 'a' <= c <= 'f' || 'A' <= c <= 'F'
  }

  function HexDigitValue(c: char): (v: nat)
    requires IsHexDigit(c)
    ensures v < 16
  {
    if IsDigit(c) then DigitValue(c) else if 'a' <= c <= 'f' then c as int - 'a' as int + 10 else c as int - 'A' as int + 10
  }

  /** The number of leading hexadecimal digits of `s`. */
  function HexRun(s: string): (k: nat)
    ensures k <= |s|
    ensures forall i :: 0 <= i < k ==> IsHexDigit(s[i])
    ensures k < |s| ==> !IsHexDigit(s[k])
    decreases |s|
  {
    if s != [] && IsHexDigit(s[0]) then 1 + HexRun(s[1..]) else 0
  }

  /** The value of a string of hexadecimal digits, most significant first. */
  function HexDigitsValue(s: string): nat
    requires forall i :: 0 <= i < |s| ==> IsHexDigit(s[i])
    decreases |s|
  {
    if s == [] then 0 else HexDigitsValue(s[..|s| - 1]) * 16 + HexDigitValue(s[|s| - 1])
  }

  /** After the sign, `0x` or `0X` makes `parseInt` without a radix read base 16. */
  predicate HexPrefixed(u: string) {
    |u| >= 2 && u[0] == '0' && (u[1] == 'x' || u[1] == 'X')
  }

  /** The digits after the sign: a `0x` prefix selects base 16, otherwise base 10; None when no digit follows. */
  function ParseUnsigned(u: string): Option<nat> {
    if HexPrefixed(u) then
      var k := HexRun(u[2..]);
      if k == 0 then None else Some(HexDigitsValue(u[2..][..k]))
    else
      var k := DigitRun(u);
      if k == 0 then None else Some(DigitsValue(u[..k]))
  }

  /**
   * `parseInt(s)` without a radix: leading white space is skipped and an optional sign is read;
   * then a `0x` prefix selects base 16, otherwise base 10, and the longest run of digits of that
   * base is read. None stands for NaN (no digit at all).
   */
  function ParseInt(s: string): (r: Option<int>)
    ensures TrimStart(s) == [] ==> r.None?
    ensures r.Some? && r.value < 0 ==> TrimStart(s)[0] == '-'
  {
    var t := TrimStart(s);
    var negative := t != [] && t[0] == '-';
    var u := if t != [] && (t[0] == '-' || t[0] == '+') then t[1..] else t;
    match ParseUnsigned(u)
    case None => None
    case Some(v) => var w: int := v; Some(if negative then -w else w)
  }

  lemma {:induction false} HexRunAllHex(s: string)
    requires forall i :: 0 <= i < |s| ==> IsHexDigit(s[i])
    ensures HexRun(s) == |s|
    decreases |s|
  {
    if s != [] {
      HexRunAllHex(s[1..]);
    }
  }

  lemma UnsignedHex(h: string)
    requires h != [] && forall i :: 0 <= i < |h| ==> IsHexDigit(h[i])
    ensures ParseUnsigned("0x" + h) == Some(HexDigitsValue(h))
  {
    HexRunAllHex(h);
    assert ("0x" + h)[2..] == h;
    assert h[..|h|] == h;
  }

  /** Without a radix, `0x` followed by hexadecimal digits is read in base 16. */
  lemma ParseIntReadsHex(h: string)
    requires h != [] && forall i :: 0 <= i < |h| ==> IsHexDigit(h[i])
    ensures ParseInt("0x" + h) == Some(HexDigitsValue(h) as int)
  {
    UnsignedHex(h);
    var p := "0x" + h;
    assert TrimStart(p) == p by { assert !IsSpace(p[0]); }
  }

  /** A leading minus sign negates whatever the digits after it read as. */
  lemma ParseIntMinus(u: string, v: nat)
    requires ParseUnsigned(u) == Some(v)
    ensures ParseInt("-" + u) == Some(-(v as int))
  {
    var n := "-" + u;
    assert TrimStart(n) == n by { assert !IsSpace(n[0]); }
    assert n[1..] == u;
  }

  /** `0x` without a digit after it is NaN. */
  lemma ParseIntBareHexPrefix()
    ensures ParseInt("0x").None?
  {
    assert !IsSpace("0x"[0]);
    assert "0x"[2..] == [];
  }

  lemma {:induction false} DigitsValueOfNatToString(n: nat)
    ensures DigitRun(NatToString(n)) == |NatToString(n)|
    ensures DigitsValue(NatToString(n)) == n
    decreases n
  {
    var s := NatToString(n);
    DigitRunAllDigits(s);
    if n >= 10 {
      DigitsValueOfNatToString(n / 10);
      assert s[..|s| - 1] == NatToString(n / 10);
    }
  }

  lemma {:induction false} DigitRunAllDigits(s: string)
    requires forall i :: 0 <= i < |s| ==> IsDigit(s[i])
    ensures DigitRun(s) == |s|
    decreases |s|
  {
    if s != [] {
      DigitRunAllDigits(s[1..]);
    }
  }

  /** parseInt reads back exactly the integer a template string printed. */
  lemma ParseIntRoundTrip(n: int)
    ensures ParseInt(IntToString(n)) == Some(n)
  {
    var s := IntToString(n);
    var m: nat := if n < 0 then -n else n;
    var d := NatToString(m);
    DigitsValueOfNatToString(m);
    assert d[..|d|] == d;
    assert !IsSpace(s[0]);
    assert TrimStart(s) == s;
    assert !HexPrefixed(d) by {
      if |d| >= 2 {
        assert IsDigit(d[1]);
      }
    }
    if n < 0 {
      assert s == "-" + d;
      assert s[1..] == d;
    } else {
      assert s == d;
      assert IsDigit(s[0]);
    }
  }
}
