/** Fixed-width unsigned words, and their big-endian byte form. */
module Words {

  const TWO_32: nat := 0x1_0000_0000
  const TWO_96: nat := 0x1_0000_0000_0000_0000_0000_0000
  const TWO_128: nat := 0x1_0000_0000_0000_0000_0000_0000_0000_0000
  const TWO_160: nat := 0x1_0000_0000_0000_0000_0000_0000_0000_0000_0000_0000
  const TWO_256: nat := 0x1_0000_0000_0000_0000_0000_0000_0000_0000_0000_0000_0000_0000_0000_0000_0000_0000

  type Byte = n: nat | n < 256
  type U8 = Byte
  type U32 = n: nat | n < TWO_32
  type Bytes16 = n: nat | n < TWO_128
  type Address = n: nat | n < TWO_160
  type U256 = n: nat | n < TWO_256
  /** A 32-byte identifier of a principal or a token; a principal is identified with its encoding. */
  type Id256 = U256

  const ZERO_ADDRESS: Address := 0
  const ZERO_ID: Id256 := 0

  /** The number of values of a `width`-byte word. */
  function Pow256(width: nat): (r: nat)
    ensures r > 0
  {
    if width == 0 then 1 else 256 * Pow256(width - 1)
  }

  lemma Widths()
    ensures Pow256(1) == 256 && Pow256(4) == TWO_32 && Pow256(16) == TWO_128
    ensures Pow256(20) == TWO_160 && Pow256(32) == TWO_256
  {
  }

  /** The last `width` base-256 digits of `n`, most significant first. */
  function BigEndian(n: nat, width: nat): (s: seq<Byte>)
    ensures |s| == width
    decreases width, n
  {
    if width == 0 then [] else BigEndian(n / 256, width - 1) + [n % 256]
  }

  /** The number a big-endian byte string stands for. */
  function FromBigEndian(s: seq<Byte>): (n: nat)
    ensures n < Pow256(|s|)
  {
    if s == [] then 0 else FromBigEndian(s[..|s| - 1]) * 256 + s[|s| - 1]
  }

  lemma {:induction false} WordRoundTrip(n: nat, width: nat)
    requires n < Pow256(width)
    ensures FromBigEndian(BigEndian(n, width)) == n
    decreases width
  {
    if width > 0 {
      WordRoundTrip(n / 256, width - 1);
      assert BigEndian(n, width)[..width - 1] == BigEndian(n / 256, width - 1);
    }
  }

  lemma {:induction false} BytesRoundTrip(s: seq<Byte>)
    ensures BigEndian(FromBigEndian(s), |s|) == s
  {
    if s != [] {
      BytesRoundTrip(s[..|s| - 1]);
      assert s == s[..|s| - 1] + [s[|s| - 1]];
    }
  }

  function WriteU256(n: U256): (s: seq<Byte>)
    ensures |s| == 32 && ReadU256(s) == n
  {
    Widths();
    WordRoundTrip(n, 32);
    BigEndian(n, 32)
  }

  function ReadU256(s: seq<Byte>): (n: U256)
    requires |s| == 32
  {
    Widths();
    FromBigEndian(s)
  }

  lemma RewriteU256(s: seq<Byte>)
    requires |s| == 32
    ensures WriteU256(ReadU256(s)) == s
  {
    BytesRoundTrip(s);
  }

  function WriteAddress(n: Address): (s: seq<Byte>)
    ensures |s| == 20 && ReadAddress(s) == n
  {
    Widths();
    WordRoundTrip(n, 20);
    BigEndian(n, 20)
  }

  function ReadAddress(s: seq<Byte>): (n: Address)
    requires |s| == 20
  {
    Widths();
    FromBigEndian(s)
  }

  lemma RewriteAddress(s: seq<Byte>)
    requires |s| == 20
    ensures WriteAddress(ReadAddress(s)) == s
  {
    BytesRoundTrip(s);
  }

  function WriteBytes16(n: Bytes16): (s: seq<Byte>)
    ensures |s| == 16 && ReadBytes16(s) == n
  {
    Widths();
    WordRoundTrip(n, 16);
    BigEndian(n, 16)
  }

  function ReadBytes16(s: seq<Byte>): (n: Bytes16)
    requires |s| == 16
  {
    Widths();
    FromBigEndian(s)
  }

  lemma RewriteBytes16(s: seq<Byte>)
    requires |s| == 16
    ensures WriteBytes16(ReadBytes16(s)) == s
  {
    BytesRoundTrip(s);
  }

  function WriteU32(n: U32): (s: seq<Byte>)
    ensures |s| == 4 && ReadU32(s) == n
  {
    Widths();
    WordRoundTrip(n, 4);
    BigEndian(n, 4)
  }

  function ReadU32(s: seq<Byte>): (n: U32)
    requires |s| == 4
  {
    Widths();
    FromBigEndian(s)
  }

  lemma RewriteU32(s: seq<Byte>)
    requires |s| == 4
    ensures WriteU32(ReadU32(s)) == s
  {
    BytesRoundTrip(s);
  }
}
