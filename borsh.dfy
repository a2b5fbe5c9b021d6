/** The Borsh binary layout, for the field kinds the bridge uses: `u8` is one
    byte, `u64` eight bytes little-endian, `[u8; N]` and `Pubkey` their raw
    bytes, `bool` one byte (0 or 1), `String` a little-endian `u32` length
    followed by UTF-8 bytes. A struct is its fields in declaration order;
    `try_from_slice` must consume the whole input. */
module Borsh {
  import opened Bytes
  import opened Errors
  import opened Utf8

  datatype Kind = U8Kind | U64Kind | ArrayKind(length: nat) | BoolKind | StringKind

  datatype Value =
    | U8Val(b: byte)
    | U64Val(n: u64)
    | ArrayVal(bytes: seq<byte>)
    | BoolVal(flag: bool)
    | StringVal(text: seq<byte>)

  predicate HasKind(v: Value, k: Kind) {
    match k
    case U8Kind => v.U8Val?
    case U64Kind => v.U64Val?
    case ArrayKind(n) => v.ArrayVal? && |v.bytes| == n
    case BoolKind => v.BoolVal?
    case StringKind => v.StringVal? && |v.text| < U32_LIMIT && ValidUtf8(v.text)
  }

  predicate HasKinds(vs: seq<Value>, ks: seq<Kind>) {
    |vs| == |ks| && forall i | 0 <= i < |vs| :: HasKind(vs[i], ks[i])
  }

  /** A layout without strings has one size for every value. */
  predicate Fixed(ks: seq<Kind>) {
    forall i | 0 <= i < |ks| :: !ks[i].StringKind?
  }

  function KindSize(k: Kind): nat {
    match k
    case U8Kind => 1
    case U64Kind => 8
    case ArrayKind(n) => n
    case BoolKind => 1
    case StringKind => 4
  }

  function Size(ks: seq<Kind>): nat {
    if ks == [] then 0 else KindSize(ks[0]) + Size(ks[1..])
  }

  /** Serialising fails only for a string whose length does not fit a `u32`. */
  predicate Encodable(v: Value) {
    v.StringVal? ==> |v.text| < U32_LIMIT
  }

  function EncodeValue(v: Value): seq<byte>
    requires Encodable(v)
  {
    match v
    case U8Val(b) => [b]
    case U64Val(n) => LeBytes(n, 8)
    case ArrayVal(bytes) => bytes
    case BoolVal(flag) => [if flag then 1 else 0]
    case StringVal(text) => LeBytes(|text|, 4) + text
  }

  function EncodeValues(vs: seq<Value>): seq<byte>
    requires forall i | 0 <= i < |vs| :: Encodable(vs[i])
  {
    if vs == [] then [] else EncodeValue(vs[0]) + EncodeValues(vs[1..])
  }

  /** Reads one field from the front of `s`; yields it and the unread rest. */
  function DecodeValue(k: Kind, s: seq<byte>): (r: Result<(Value, seq<byte>)>)
    ensures r.Ok? ==> HasKind(r.value.0, k)
    ensures r.Err? ==> r.error == BorshIoError
    ensures r.Ok? && k != StringKind ==> |s| == KindSize(k) + |r.value.1|
    ensures r.Ok? ==> |r.value.1| < |s|  || (k.ArrayKind? && k.length == 0)
  {
    PowWidths();
    match k
    case U8Kind =>
      if |s| < 1 then Err(BorshIoError) else Ok((U8Val(s[0]), s[1..]))
    case U64Kind =>
      if |s| < 8 then Err(BorshIoError) else Ok((U64Val(FromLe(s[..8])), s[8..]))
    case ArrayKind(n) =>
      if |s| < n then Err(BorshIoError) else Ok((ArrayVal(s[..n]), s[n..]))
    case BoolKind =>
      if |s| < 1 then Err(BorshIoError)
      else if s[0] == 0 then Ok((BoolVal(false), s[1..]))
      else if s[0] == 1 then Ok((BoolVal(true), s[1..]))
      else Err(BorshIoError)
    case StringKind => DecodeString(s)
  }

  /** A `String`: a `u32` byte count, then that many bytes, which must be UTF-8. */
  function DecodeString(s: seq<byte>): (r: Result<(Value, seq<byte>)>)
    ensures r.Ok? ==> HasKind(r.value.0, StringKind) && |r.value.1| < |s|
    ensures r.Err? ==> r.error == BorshIoError
  {
    PowWidths();
    if |s| < 4 then Err(BorshIoError)
    else
      var len := FromLe(s[..4]);
      var rest := s[4..];
      if |rest| < len then Err(BorshIoError)
      else if !ValidUtf8(rest[..len]) then Err(BorshIoError)
      else Ok((StringVal(rest[..len]), rest[len..]))
  }

  /** Reads the fields `ks` in order from the front of `s`. */
  function DecodeValues(ks: seq<Kind>, s: seq<byte>): (r: Result<(seq<Value>, seq<byte>)>)
    ensures r.Ok? ==> HasKinds(r.value.0, ks)
    ensures r.Err? ==> r.error == BorshIoError
    ensures r.Ok? && Fixed(ks) ==> |s| == Size(ks) + |r.value.1|
  {
    if ks == [] then Ok(([], s))
    else
      var first :- DecodeValue(ks[0], s);
      var others :- DecodeValues(ks[1..], first.1);
      assert Fixed(ks) ==> Fixed(ks[1..]) by {
        if Fixed(ks) {
          forall i | 0 <= i < |ks[1..]| ensures !ks[1..][i].StringKind? {
            assert ks[1..][i] == ks[i + 1];
          }
        }
      }
      assert HasKinds([first.0] + others.0, ks) by {
        forall i | 0 <= i < |ks| ensures HasKind(([first.0] + others.0)[i], ks[i]) {
          if i > 0 {
            assert ks[i] == ks[1..][i - 1];
          }
        }
      }
      Ok(([first.0] + others.0, others.1))
  }

  /** `try_from_slice`: read the fields and insist that nothing is left over. */
  function TryFromSlice(ks: seq<Kind>, s: seq<byte>): (r: Result<seq<Value>>)
    ensures r.Ok? ==> HasKinds(r.value, ks)
    ensures r.Err? ==> r.error == BorshIoError
    ensures r.Ok? && Fixed(ks) ==> |s| == Size(ks)
  {
    var decoded :- DecodeValues(ks, s);
    if decoded.1 != [] then Err(BorshIoError) else Ok(decoded.0)
  }

  /** The zero value of each fixed-size kind. */
  function ZeroValue(k: Kind): (v: Value)
    requires !k.StringKind?
    ensures HasKind(v, k)
  {
    match k
    case U8Kind => U8Val(0)
    case U64Kind => U64Val(0)
    case ArrayKind(n) => ArrayVal(Zeros(n))
    case BoolKind => BoolVal(false)
  }

  function ZeroValues(ks: seq<Kind>): (vs: seq<Value>)
    requires Fixed(ks)
    ensures HasKinds(vs, ks)
  {
    seq(|ks|, i requires 0 <= i < |ks| => ZeroValue(ks[i]))
  }

  /** Two layouts one after the other: fixed when both are, and their sizes add up. */
  lemma {:induction false} LayoutAppend(a: seq<Kind>, b: seq<Kind>)
    ensures Fixed(a + b) <==> Fixed(a) && Fixed(b)
    ensures Size(a + b) == Size(a) + Size(b)
  {
    if a != [] {
      assert (a + b)[1..] == a[1..] + b;
      LayoutAppend(a[1..], b);
    } else {
      assert a + b == b;
    }
    if Fixed(a) && Fixed(b) {
      forall i | 0 <= i < |a + b| ensures !(a + b)[i].StringKind? {
        if i >= |a| {
          assert (a + b)[i] == b[i - |a|];
        }
      }
    }
    if Fixed(a + b) {
      forall i | 0 <= i < |a| ensures !a[i].StringKind? {
        assert (a + b)[i] == a[i];
      }
      forall i | 0 <= i < |b| ensures !b[i].StringKind? {
        assert (a + b)[|a| + i] == b[i];
      }
    }
  }

  lemma HasKindsEncodable(vs: seq<Value>, ks: seq<Kind>)
    requires HasKinds(vs, ks)
    ensures forall i | 0 <= i < |vs| :: Encodable(vs[i])
  {
    forall i | 0 <= i < |vs| ensures Encodable(vs[i]) {
      assert HasKind(vs[i], ks[i]);
    }
  }

  lemma HasKindsTail(vs: seq<Value>, ks: seq<Kind>)
    requires HasKinds(vs, ks) && vs != []
    ensures HasKind(vs[0], ks[0]) && HasKinds(vs[1..], ks[1..])
  {
    forall i | 0 <= i < |vs| - 1 ensures HasKind(vs[1..][i], ks[1..][i]) {
      assert vs[1..][i] == vs[i + 1] && ks[1..][i] == ks[i + 1];
    }
  }

  lemma DecodeEncodeValue(v: Value, k: Kind, rest: seq<byte>)
    requires HasKind(v, k)
    ensures DecodeValue(k, EncodeValue(v) + rest) == Ok((v, rest))
  {
    PowWidths();
    var s := EncodeValue(v) + rest;
    match k
    case U8Kind =>
      assert s[1..] == rest;
    case U64Kind =>
      assert s[..8] == LeBytes(v.n, 8) && s[8..] == rest;
      FromLeLeBytes(v.n, 8);
    case ArrayKind(n) =>
      assert s[..n] == v.bytes && s[n..] == rest;
    case BoolKind =>
      assert s[1..] == rest;
    case StringKind =>
      DecodeEncodeString(v.text, rest);
  }

  lemma DecodeEncodeString(text: seq<byte>, rest: seq<byte>)
    requires |text| < U32_LIMIT && ValidUtf8(text)
    ensures DecodeString(LeBytes(|text|, 4) + text + rest) == Ok((StringVal(text), rest))
  {
    var s := LeBytes(|text|, 4) + (text + rest);
    assert DecodeString(s) == Ok((StringVal(text), rest)) by {
      LengthPrefix(|text|, text + rest);
      DecodeStringAt(s, text, rest);
    }
    assert LeBytes(|text|, 4) + text + rest == s;
  }

  /** A length prefix that counts the UTF-8 text after it reads back that text. */
  lemma DecodeStringAt(s: seq<byte>, text: seq<byte>, rest: seq<byte>)
    requires |s| >= 4 && FromLe(s[..4]) == |text| && s[4..] == text + rest && ValidUtf8(text)
    ensures DecodeString(s) == Ok((StringVal(text), rest))
  {
    assert s[4..][..|text|] == text;
    assert s[4..][|text|..] == rest;
  }

  lemma LengthPrefix(n: nat, tail: seq<byte>)
    requires n < U32_LIMIT
    ensures |LeBytes(n, 4) + tail| >= 4
    ensures FromLe((LeBytes(n, 4) + tail)[..4]) == n
    ensures (LeBytes(n, 4) + tail)[4..] == tail
  {
    PowWidths();
    FromLeLeBytes(n, 4);
    assert (LeBytes(n, 4) + tail)[..4] == LeBytes(n, 4);
  }

  /** Decoding a non-empty layout reads the first field, then the others. */
  lemma DecodeValuesCons(ks: seq<Kind>, s: seq<byte>, v: Value, tail: seq<byte>, vs: seq<Value>, rest: seq<byte>)
    requires ks != []
    requires DecodeValue(ks[0], s) == Ok((v, tail))
    requires DecodeValues(ks[1..], tail) == Ok((vs, rest))
    ensures DecodeValues(ks, s) == Ok(([v] + vs, rest))
  {
  }

  /** Decoding undoes encoding, field by field, whatever follows. */
  lemma {:induction false} DecodeEncodeValues(vs: seq<Value>, ks: seq<Kind>, rest: seq<byte>)
    requires HasKinds(vs, ks)
    ensures DecodeValues(ks, EncodeValues(vs) + rest) == Ok((vs, rest))
  {
    HasKindsEncodable(vs, ks);
    if vs != [] {
      HasKindsTail(vs, ks);
      HasKindsEncodable(vs[1..], ks[1..]);
      var tail := EncodeValues(vs[1..]) + rest;
      assert EncodeValues(vs) + rest == EncodeValue(vs[0]) + tail;
      DecodeEncodeValue(vs[0], ks[0], tail);
      DecodeEncodeValues(vs[1..], ks[1..], rest);
      DecodeValuesCons(ks, EncodeValues(vs) + rest, vs[0], tail, vs[1..], rest);
      assert [vs[0]] + vs[1..] == vs;
    } else {
      assert EncodeValues(vs) + rest == rest;
    }
  }

  lemma TryFromSliceEncode(vs: seq<Value>, ks: seq<Kind>)
    requires HasKinds(vs, ks)
    ensures TryFromSlice(ks, EncodeValues(vs)) == Ok(vs)
  {
    HasKindsEncodable(vs, ks);
    DecodeEncodeValues(vs, ks, []);
    assert EncodeValues(vs) + [] == EncodeValues(vs);
  }

  /** Decoding is also left-inverse: the bytes it accepts are exactly the
      encoding of what it returns (Borsh is canonical for these kinds). */
  lemma DecodeValueCanonical(k: Kind, s: seq<byte>)
    requires DecodeValue(k, s).Ok?
    ensures Encodable(DecodeValue(k, s).value.0)
    ensures s == EncodeValue(DecodeValue(k, s).value.0) + DecodeValue(k, s).value.1
  {
    PowWidths();
    var v := DecodeValue(k, s).value.0;
    match k
    case U8Kind =>
    case U64Kind =>
      LeBytesFromLe(s[..8]);
      assert s == s[..8] + s[8..];
    case ArrayKind(n) =>
      assert s == s[..n] + s[n..];
    case BoolKind =>
    case StringKind =>
      LeBytesFromLe(s[..4]);
      var len := FromLe(s[..4]);
      assert s == s[..4] + (s[4..][..len] + s[4..][len..]);
  }

  lemma {:induction false} DecodeValuesCanonical(ks: seq<Kind>, s: seq<byte>)
    requires DecodeValues(ks, s).Ok?
    ensures s == EncodeValues(DecodeValues(ks, s).value.0) + DecodeValues(ks, s).value.1
  {
    var vs := DecodeValues(ks, s).value.0;
    HasKindsEncodable(vs, ks);
    if ks != [] {
      var first := DecodeValue(ks[0], s).value;
      DecodeValueCanonical(ks[0], s);
      DecodeValuesCanonical(ks[1..], first.1);
      var others := DecodeValues(ks[1..], first.1).value;
      assert vs == [first.0] + others.0;
      assert vs[1..] == others.0;
    }
  }

  lemma TryFromSliceCanonical(ks: seq<Kind>, s: seq<byte>)
    requires TryFromSlice(ks, s).Ok?
    ensures s == EncodeValues(TryFromSlice(ks, s).value)
  {
    DecodeValuesCanonical(ks, s);
    HasKindsEncodable(TryFromSlice(ks, s).value, ks);
    assert DecodeValues(ks, s).value.1 == [];
    assert EncodeValues(DecodeValues(ks, s).value.0) + [] == EncodeValues(DecodeValues(ks, s).value.0);
  }

  lemma {:induction false} EncodedSize(vs: seq<Value>, ks: seq<Kind>)
    requires HasKinds(vs, ks) && Fixed(ks)
    ensures |EncodeValues(vs)| == Size(ks)
  {
    HasKindsEncodable(vs, ks);
    if vs != [] {
      HasKindsTail(vs, ks);
      assert !ks[0].StringKind?;
      assert Fixed(ks[1..]) by {
        forall i | 0 <= i < |ks[1..]| ensures !ks[1..][i].StringKind? {
          assert ks[1..][i] == ks[i + 1];
        }
      }
      HasKindsEncodable(vs[1..], ks[1..]);
      EncodedSize(vs[1..], ks[1..]);
    }
  }

  /** The zero values of a fixed layout serialise to an all-zero buffer. */
  lemma {:induction false} ZeroValuesEncodeToZeros(ks: seq<Kind>)
    requires Fixed(ks)
    ensures EncodeValues(ZeroValues(ks)) == Zeros(Size(ks))
  {
    var vs := ZeroValues(ks);
    HasKindsEncodable(vs, ks);
    if ks != [] {
      assert Fixed(ks[1..]) by {
        forall i | 0 <= i < |ks[1..]| ensures !ks[1..][i].StringKind? {
          assert ks[1..][i] == ks[i + 1];
        }
      }
      assert vs[1..] == ZeroValues(ks[1..]);
      ZeroValuesEncodeToZeros(ks[1..]);
      assert !ks[0].StringKind?;
      LeBytesOfZero(8);
      assert EncodeValue(vs[0]) == Zeros(KindSize(ks[0]));
      assert Zeros(KindSize(ks[0])) + Zeros(Size(ks[1..])) == Zeros(Size(ks));
    }
  }

  /** An all-zero buffer of a fixed layout's size decodes to the zero values. */
  lemma DecodeZeros(ks: seq<Kind>, s: seq<byte>)
    requires Fixed(ks) && |s| == Size(ks)
    requires forall i | 0 <= i < |s| :: s[i] == 0
    ensures TryFromSlice(ks, s) == Ok(ZeroValues(ks))
  {
    assert s == Zeros(Size(ks));
    ZeroValuesEncodeToZeros(ks);
    TryFromSliceEncode(ZeroValues(ks), ks);
  }
}
