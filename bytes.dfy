/** Fixed-width byte types shared by every record, and the little-endian
    integer layout that Borsh uses for `u32` and `u64`. */
module Bytes {

  type byte = n: nat | n < 256

  const U32_LIMIT: nat := 0x1_0000_0000
  const U64_LIMIT: nat := 0x1_0000_0000_0000_0000

  type u32 = n: nat | n < U32_LIMIT
  type u64 = n: nat | n < U64_LIMIT

  /** `Pubkey` and `Address` are 32 raw bytes, `BlockchainId` 4, `TxId` 64,
      an oracle signature 65. */
  type Pubkey = s: seq<byte> | |s| == 32 witness Zeros(32)
  type Address = Pubkey
  type ChainId = s: seq<byte> | |s| == 4 witness Zeros(4)
  type TxId = s: seq<byte> | |s| == 64 witness Zeros(64)
  type SigBytes = s: seq<byte> | |s| == 65 witness Zeros(65)

  function Zeros(n: nat): (z: seq<byte>)
    ensures |z| == n
    ensures forall i | 0 <= i < n :: z[i] == 0
  {
    seq(n, _ => 0)
  }

  /** Increment of a Rust `u64` field in a release build: it wraps. */
  function WrappingInc(n: u64): (r: u64)
    ensures n + 1 < U64_LIMIT ==> r == n + 1
    ensures n + 1 == U64_LIMIT ==> r == 0
  {
    if n + 1 == U64_LIMIT then 0 else n + 1
  }

  function Pow256(width: nat): (p: nat)
    ensures p >= 1
  {
    if width == 0 then 1 else 256 * Pow256(width - 1)
  }

  /** The `width` low bytes of `n`, least significant first. */
  function LeBytes(n: nat, width: nat): (s: seq<byte>)
    ensures |s| == width
  {
    if width == 0 then [] else [n % 256] + LeBytes(n / 256, width - 1)
  }

  /** The number whose little-endian bytes are `s`. */
  function FromLe(s: seq<byte>): (n: nat)
    ensures n < Pow256(|s|)
  {
    if s == [] then 0 else s[0] + 256 * FromLe(s[1..])
  }

  lemma {:induction false} FromLeLeBytes(n: nat, width: nat)
    requires n < Pow256(width)
    ensures FromLe(LeBytes(n, width)) == n
  {
    if width > 0 {
      var s := LeBytes(n, width);
      assert s[1..] == LeBytes(n / 256, width - 1);
      FromLeLeBytes(n / 256, width - 1);
    }
  }

  lemma {:induction false} LeBytesFromLe(s: seq<byte>)
    ensures LeBytes(FromLe(s), |s|) == s
  {
    if s != [] {
      var n := FromLe(s);
      assert n % 256 == s[0] && n / 256 == FromLe(s[1..]);
      LeBytesFromLe(s[1..]);
    }
  }

  lemma {:induction false} LeBytesOfZero(width: nat)
    ensures LeBytes(0, width) == Zeros(width)
  {
    if width > 0 {
      LeBytesOfZero(width - 1);
    }
  }

  lemma {:induction false} FromLeOfZeros(width: nat)
    ensures FromLe(Zeros(width)) == 0
  {
    if width > 0 {
      assert Zeros(width)[1..] == Zeros(width - 1);
      FromLeOfZeros(width - 1);
    }
  }

  lemma PowWidths()
    ensures Pow256(4) == U32_LIMIT
    ensures Pow256(8) == U64_LIMIT
  {
    assert Pow256(4) == 256 * 256 * 256 * 256;
    assert Pow256(8) == 256 * 256 * 256 * 256 * Pow256(4);
  }
}
