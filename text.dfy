/** UTF-8 well-formedness as Rust's `std::str::from_utf8` checks it
    (the table of well-formed byte sequences of RFC 3629, section 4). */
module Utf8 {
  import opened Bytes

  predicate IsContinuation(b: byte) {
    0x80 <= b <= 0xBF
  }

  /** Allowed range of the second byte after a three- or four-byte lead,
      which excludes overlong forms, surrogates and code points past U+10FFFF. */
  function SecondLow(lead: byte): byte {
    if lead == 0xE0 then 0xA0 else if lead == 0xF0 then 0x90 else 0x80
  }

  function SecondHigh(lead: byte): byte {
    if lead == 0xED then 0x9F else if lead == 0xF4 then 0x8F else 0xBF
  }

  /** Length of the well-formed character at the start of `s`, or 0 when
      the first bytes do not form one. */
  function CharWidth(s: seq<byte>): (n: nat)
    requires |s| > 0
    ensures n <= |s| && n <= 4
    ensures s[0] < 0x80 ==> n == 1
    ensures n == 1 ==> s[0] < 0x80
  {
    var b := s[0];
    if b < 0x80 then 1
    else if 0xC2 <= b <= 0xDF then
      if |s| >= 2 && IsContinuation(s[1]) then 2 else 0
    else if 0xE0 <= b <= 0xEF then
      if |s| >= 3 && SecondLow(b) <= s[1] <= SecondHigh(b) && IsContinuation(s[2]) then 3 else 0
    else if 0xF0 <= b <= 0xF4 then
      if |s| >= 4 && SecondLow(b) <= s[1] <= SecondHigh(b) && IsContinuation(s[2]) && IsContinuation(s[3])
      then 4 else 0
    else 0
  }

  predicate ValidUtf8(s: seq<byte>)
    decreases |s|
  {
    s == [] || (CharWidth(s) > 0 && ValidUtf8(s[CharWidth(s)..]))
  }

  /** A complete character at the front of `a` is read the same when more bytes follow. */
  lemma CharWidthExtends(a: seq<byte>, b: seq<byte>)
    requires |a| > 0 && CharWidth(a) > 0
    ensures CharWidth(a + b) == CharWidth(a)
  {
    var n := CharWidth(a);
    assert forall k | 0 <= k < n :: (a + b)[k] == a[k];
  }

  lemma {:induction false} ConcatValid(a: seq<byte>, b: seq<byte>)
    requires ValidUtf8(a) && ValidUtf8(b)
    ensures ValidUtf8(a + b)
    decreases |a|
  {
    if a == [] {
      assert a + b == b;
    } else {
      var n := CharWidth(a);
      CharWidthExtends(a, b);
      assert (a + b)[n..] == a[n..] + b;
      ConcatValid(a[n..], b);
    }
  }

  lemma {:induction false} AsciiValid(s: seq<byte>)
    requires forall i | 0 <= i < |s| :: s[i] < 0x80
    ensures ValidUtf8(s)
    decreases |s|
  {
    if s != [] {
      AsciiValid(s[1..]);
    }
  }

  /** A lone continuation byte is not text. */
  lemma ContinuationFirstInvalid(s: seq<byte>)
    requires |s| > 0 && IsContinuation(s[0])
    ensures !ValidUtf8(s)
  {
  }
}

/** Rust's `Display` for unsigned integers: decimal digits without leading zeros. */
module Decimal {
  import opened Bytes

  const ZERO_DIGIT: byte := 48

  predicate IsDigit(b: byte) {
    ZERO_DIGIT <= b < ZERO_DIGIT + 10
  }

  function Dec(n: nat): (s: seq<byte>)
    ensures 1 <= |s|
    ensures forall i | 0 <= i < |s| :: IsDigit(s[i])
    ensures (|s| == 1) == (n < 10)
    ensures n > 0 ==> s[0] != ZERO_DIGIT
  {
    if n < 10 then [ZERO_DIGIT + n] else Dec(n / 10) + [ZERO_DIGIT + n % 10]
  }

  /** An independent reading of a digit string, most significant digit first. */
  function DigitsValue(s: seq<byte>): nat
    requires forall i | 0 <= i < |s| :: IsDigit(s[i])
  {
    if s == [] then 0
    else
      var last := s[|s| - 1];
      assert IsDigit(last);
      10 * DigitsValue(s[..|s| - 1]) + (last - ZERO_DIGIT)
  }

  lemma {:induction false} DecRoundTrip(n: nat)
    ensures DigitsValue(Dec(n)) == n
  {
    if n >= 10 {
      var s := Dec(n);
      assert s[..|s| - 1] == Dec(n / 10);
      DecRoundTrip(n / 10);
    }
  }

  lemma DecInjective(a: nat, b: nat)
    requires Dec(a) == Dec(b)
    ensures a == b
  {
    DecRoundTrip(a);
    DecRoundTrip(b);
  }

  /** `Dec(0)` is the single digit zero; every other numeral starts with a non-zero digit. */
  lemma DecZero()
    ensures Dec(0) == [ZERO_DIGIT]
  {
  }
}

/** Byte-level text helpers: ASCII literals and `trim_matches('\0')`. */
module Text {
  import opened Bytes

  const UNDERSCORE: byte := 95

  /** The bytes of an ASCII literal. */
  function Ascii(s: string): seq<byte> {
    seq(|s|, i requires 0 <= i < |s| => (s[i] as int) % 256)
  }

  function TrimStartBound(s: seq<byte>): (i: nat)
    ensures i <= |s|
    ensures forall k | 0 <= k < i :: s[k] == 0
    ensures i < |s| ==> s[i] != 0
  {
    if s == [] || s[0] != 0 then 0 else 1 + TrimStartBound(s[1..])
  }

  function TrimEndBound(s: seq<byte>): (j: nat)
    ensures j <= |s|
    ensures forall k | j <= k < |s| :: s[k] == 0
    ensures j > 0 ==> s[j - 1] != 0
  {
    if s == [] || s[|s| - 1] != 0 then |s| else TrimEndBound(s[..|s| - 1])
  }

  /** `trim_matches('\0')`: strip NUL bytes from both ends. On UTF-8 text the
      byte 0 only ever stands for the character U+0000, so bytes and
      characters agree. */
  function TrimNul(s: seq<byte>): (t: seq<byte>)
    ensures t == [] || (t[0] != 0 && t[|t| - 1] != 0)
    ensures exists i, j :: 0 <= i <= j <= |s| && t == s[i..j]
                           && (forall k | 0 <= k < i :: s[k] == 0)
                           && (forall k | j <= k < |s| :: s[k] == 0)
  {
    var j := TrimEndBound(s);
    var i := TrimStartBound(s[..j]);
    assert forall k | 0 <= k < i :: s[k] == s[..j][k];
    s[i..j]
  }

  /** Padding with NULs is undone by trimming, when the text has no NUL at either end. */
  lemma TrimNulPadded(s: seq<byte>, pad: nat)
    requires s == [] || (s[0] != 0 && s[|s| - 1] != 0)
    ensures TrimNul(s + Zeros(pad)) == s
  {
    var w := s + Zeros(pad);
    var t := TrimNul(w);
    var i, j :| 0 <= i <= j <= |w| && t == w[i..j]
                && (forall k | 0 <= k < i :: w[k] == 0)
                && (forall k | j <= k < |w| :: w[k] == 0);
    assert forall k | |s| <= k < |w| :: w[k] == 0;
    if s != [] {
      assert w[0] != 0 && w[|s| - 1] != 0;
      assert i == 0 && j >= |s|;
      assert t[|t| - 1] == w[j - 1];
      assert t == w[..|s|] == s;
    }
  }
}
