/**
 * String helpers that the pages rely on from the JavaScript runtime:
 * `String.prototype.trim`, `toLowerCase`, `includes`, and the decimal
 * rendering of a non-negative integer (template literals, `toString`).
 */
module Text {

  /** The characters `trim` strips: ECMAScript WhiteSpace and LineTerminator. */
  predicate IsJsWhitespace(c: char)
  {
    var u := c as int;
    u == 0x09 || u == 0x0B || u == 0x0C || u == 0x20 || u == 0xA0 || u == 0xFEFF  // WhiteSpace
    || u == 0x1680 || (0x2000 <= u <= 0x200A) || u == 0x202F || u == 0x205F || u == 0x3000  // Zs
    || u == 0x0A || u == 0x0D || u == 0x2028 || u == 0x2029  // LineTerminator
  }

  /** True when every character of `s` is whitespace (so `s.trim()` is falsy). */
  predicate IsBlank(s: string)
  {
    forall i :: 0 <= i < |s| ==> IsJsWhitespace(s[i])
  }

  function TrimStart(s: string): (r: string)
    ensures |r| <= |s| && r == s[|s| - |r|..]
    ensures r != [] ==> !IsJsWhitespace(r[0])
  {
    if s != [] && IsJsWhitespace(s[0]) then TrimStart(s[1..]) else s
  }

  function TrimEnd(s: string): (r: string)
    ensures |r| <= |s| && r == s[..|r|]
    ensures r != [] ==> !IsJsWhitespace(r[|r| - 1])
  {
    if s != [] && IsJsWhitespace(s[|s| - 1]) then TrimEnd(s[..|s| - 1]) else s
  }

  /**
   * `s.trim()`: `s` with a blank prefix and a blank suffix cut off, so
   * that what remains neither starts nor ends with whitespace.
   */
  function Trim(s: string): (r: string)
    ensures exists head, tail :: s == head + r + tail && IsBlank(head) && IsBlank(tail)
    ensures r != [] ==> !IsJsWhitespace(r[0]) && !IsJsWhitespace(r[|r| - 1])
  {
    TrimCut(s);
    TrimEnd(TrimStart(s))
  }

  /** `TrimStart` cuts whitespace only. */
  lemma {:induction false} TrimStartCutsBlank(s: string)
    ensures IsBlank(s[..|s| - |TrimStart(s)|])
  {
    if s != [] && IsJsWhitespace(s[0]) {
      var tail := s[1..];
      TrimStartCutsBlank(tail);
      var k := |tail| - |TrimStart(tail)|;
      assert forall j :: 1 <= j <= k ==> s[j] == tail[j - 1];
    }
  }

  /** `TrimEnd` cuts whitespace only. */
  lemma {:induction false} TrimEndCutsBlank(s: string)
    ensures IsBlank(s[|TrimEnd(s)|..])
  {
    if s != [] && IsJsWhitespace(s[|s| - 1]) {
      var init := s[..|s| - 1];
      TrimEndCutsBlank(init);
      var k := |TrimEnd(init)|;
      assert forall j :: k <= j < |init| ==> s[j] == init[j];
    }
  }

  /**
   * `TrimEnd(TrimStart(s))` is a piece of `s` between a blank prefix and a
   * blank suffix, and it neither starts nor ends with whitespace.
   */
  lemma TrimCut(s: string)
    ensures var r := TrimEnd(TrimStart(s));
      && (exists head, tail :: s == head + r + tail && IsBlank(head) && IsBlank(tail))
      && (r != [] ==> !IsJsWhitespace(r[0]) && !IsJsWhitespace(r[|r| - 1]))
  {
    var t := TrimStart(s);
    var r := TrimEnd(t);
    TrimStartCutsBlank(s);
    TrimEndCutsBlank(t);
    assert r != [] ==> r[0] == t[0];
    SplitThree(s, |s| - |t|, |r|);
  }

  /** Cutting at `i` and then `k` positions further splits `s` into three pieces. */
  lemma SplitThree(s: string, i: nat, k: nat)
    requires i + k <= |s|
    ensures s == s[..i] + s[i..][..k] + s[i..][k..]
  {
    assert s == s[..i] + s[i..];
    assert s[i..] == s[i..][..k] + s[i..][k..];
  }

  lemma {:induction false} TrimStartBlank(s: string)
    ensures TrimStart(s) == [] <==> IsBlank(s)
  {
    if s != [] && IsJsWhitespace(s[0]) {
      var tail := s[1..];
      TrimStartBlank(tail);
      assert forall i :: 1 <= i < |s| ==> s[i] == tail[i - 1];
    }
  }

  /** `s.trim()` is empty exactly when `s` consists of whitespace only. */
  lemma TrimEmptyIffBlank(s: string)
    ensures Trim(s) == [] <==> IsBlank(s)
  {
    TrimStartBlank(s);
    var t := TrimStart(s);
    assert TrimEnd(t) == [] ==> t == [] by {
      if t != [] {
        assert !IsJsWhitespace(t[0]);
        TrimEndKeepsHead(t);
      }
    }
  }

  lemma {:induction false} TrimEndKeepsHead(t: string)
    requires t != [] && !IsJsWhitespace(t[0])
    ensures TrimEnd(t) != []
  {
    if IsJsWhitespace(t[|t| - 1]) {
      TrimEndKeepsHead(t[..|t| - 1]);
    }
  }

  predicate IsUpper(c: char) { 'A' <= c <= 'Z' }

  /**
   * ASCII lowering, standing in for `toLowerCase` (full Unicode folding is
   * not modelled): the result is never an upper-case letter and only
   * upper-case letters change, so lowering twice is lowering once.
   */
  function LowerChar(c: char): (r: char)
    ensures !IsUpper(r)
    ensures !IsUpper(c) ==> r == c
    ensures IsUpper(c) ==> 'a' <= r <= 'z' && r as int - 'a' as int == c as int - 'A' as int
  {
    if IsUpper(c) then (c as int + 32) as char else c
  }

  /** `s.toLowerCase()`: the same length, with each character lowered on its own. */
  function Lower(s: string): (r: string)
    ensures |r| == |s|
    ensures forall i :: 0 <= i < |s| ==> r[i] == LowerChar(s[i]) && !IsUpper(r[i])
  {
    if s == [] then [] else [LowerChar(s[0])] + Lower(s[1..])
  }

  /** Lowering an already lowered string changes nothing. */
  lemma LowerIdempotent(s: string)
    ensures Lower(Lower(s)) == Lower(s)
  {
    var once := Lower(s);
    assert forall i :: 0 <= i < |s| ==> Lower(once)[i] == once[i];
  }

  /**
   * `hay.includes(needle)`: `needle` starts at some position of `hay`; a
   * found needle is never longer than the string searched.
   */
  predicate Includes(hay: string, needle: string): (found: bool)
    decreases |hay|
    ensures needle <= hay ==> found
    ensures found ==> |needle| <= |hay|
  {
    needle <= hay || (hay != [] && Includes(hay[1..], needle))
  }

  /** `Includes` means: `needle` is a prefix of some suffix of `hay`. */
  lemma {:induction false} IncludesIffSuffix(hay: string, needle: string)
    ensures Includes(hay, needle) <==> exists i :: 0 <= i <= |hay| && needle <= hay[i..]
  {
    if needle <= hay {
      assert hay[0..] == hay;
    } else if hay == [] {
    } else {
      var tail := hay[1..];
      IncludesIffSuffix(tail, needle);
      assert forall i :: 1 <= i <= |hay| ==> hay[i..] == tail[i - 1..];
      if exists i :: 0 <= i <= |hay| && needle <= hay[i..] {
        var i :| 0 <= i <= |hay| && needle <= hay[i..];
        assert i != 0 by { assert hay[0..] == hay; }
        assert needle <= tail[i - 1..];
      }
    }
  }


  function DigitChar(d: nat): (c: char)
    requires d < 10
    ensures IsDigit(c) && c as int - '0' as int == d
  {
    ('0' as int + d) as char
  }

  predicate IsDigit(c: char) { '0' <= c <= '9' }

  function DigitValue(c: char): (d: nat)
    requires IsDigit(c)
    ensures d < 10 && DigitChar(d) == c
  {
    c as int - '0' as int
  }

  /** Decimal rendering of a non-negative integer, as `${n}` and `n.toString()` give it. */
  function NatToString(n: nat): (s: string)
    ensures s != [] && forall i :: 0 <= i < |s| ==> IsDigit(s[i])
    ensures |s| > 1 ==> s[0] != '0'
  {
    if n < 10 then [DigitChar(n)] else NatToString(n / 10) + [DigitChar(n % 10)]
  }

  /** Reading a string of digits back as a number. */
  function DecimalValue(s: string): (v: nat)
    requires forall i :: 0 <= i < |s| ==> IsDigit(s[i])
  {
    if s == [] then 0 else DecimalValue(s[..|s| - 1]) * 10 + DigitValue(s[|s| - 1])
  }

  /** The rendering is exact: its digits read back as the number itself. */
  lemma {:induction false} NatToStringRoundTrip(n: nat)
    ensures DecimalValue(NatToString(n)) == n
  {
    var s := NatToString(n);
    if n >= 10 {
      NatToStringRoundTrip(n / 10);
      assert s[..|s| - 1] == NatToString(n / 10);
    }
  }

  /** A number below 1000 renders in at most three digits. */
  lemma NatToStringShort(n: nat)
    requires n < 1000
    ensures |NatToString(n)| <= 3
  {
    if n >= 10 {
      assert |NatToString(n / 10)| <= 2 by {
        if n / 10 >= 10 { assert |NatToString(n / 100)| == 1; }
      }
    }
  }
}
