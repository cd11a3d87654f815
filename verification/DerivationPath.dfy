/** The BIP-32 derivation path of a user's transit address, in the IC's and in BIP-32's own form. */
module DerivationPaths {
  import opened Words

  const DERIVATION_PATH_PREFIX: Byte := 7
  const ADDRESS_SIZE := 20

  /** Indices from 2^31 on are hardened. */
  const FIRST_HARDENED: nat := 0x8000_0000

  /** Cut into `n` pieces of three bytes, with a zero byte before each. */
  function Chunks(bytes: seq<Byte>, n: nat): (parts: seq<seq<Byte>>)
    requires |bytes| == 3 * n
    ensures |parts| == n
    ensures forall i :: 0 <= i < n ==> |parts[i]| == 4 && parts[i][0] == 0
  {
    if n == 0 then [] else
      var front := bytes[..3 * (n - 1)];
      Chunks(front, n - 1) + [[0] + bytes[3 * (n - 1)..]]
  }

  function PathOf(address: seq<Byte>): seq<seq<Byte>>
    requires |address| == ADDRESS_SIZE
  {
    Chunks([DERIVATION_PATH_PREFIX] + address, 7)
  }

  lemma ChunksExtend(bytes: seq<Byte>, i: nat)
    requires 3 * i + 3 <= |bytes|
    ensures Chunks(bytes[..3 * i + 3], i + 1) == Chunks(bytes[..3 * i], i) + [[0] + bytes[3 * i..3 * i + 3]]
  {
    var more := bytes[..3 * i + 3];
    assert more[..3 * i] == bytes[..3 * i] && more[3 * i..] == bytes[3 * i..3 * i + 3];
  }

  /** The IC form: seven parts of a zero byte and three bytes each. */
  method GetDerivationPathIc(address: seq<Byte>) returns (dp: seq<seq<Byte>>)
    requires |address| == ADDRESS_SIZE
    ensures dp == PathOf(address)
  {
    var bytes := [DERIVATION_PATH_PREFIX] + address;
    dp := [];
    for i := 0 to 7
      invariant dp == Chunks(bytes[..3 * i], i)
    {
      ChunksExtend(bytes, i);
      dp := dp + [[0] + bytes[3 * i..3 * i + 3]];
    }
    assert bytes[..21] == bytes;
  }

  /** A part of a path that BIP-32 takes as a normal child index. */
  predicate IsNormalPart(part: seq<Byte>) {
    |part| == 4 && ReadU32(part) < FIRST_HARDENED
  }

  predicate IsNormalPath(path: seq<seq<Byte>>) {
    forall i :: 0 <= i < |path| ==> IsNormalPart(path[i])
  }

  /** The child numbers of a path. */
  function Bip32Of(path: seq<seq<Byte>>): (children: seq<U32>)
    requires IsNormalPath(path)
    ensures |children| == |path|
  {
    seq(|path|, i requires 0 <= i < |path| => ReadU32(path[i]))
  }

  /** To child numbers; `ok` is false where the conversion panics. */
  method ToBip32(path: seq<seq<Byte>>) returns (ok: bool, children: seq<U32>)
    ensures ok <==> IsNormalPath(path)
    ensures ok ==> children == Bip32Of(path)
  {
    children := [];
    for k := 0 to |path|
      invariant |children| == k
      invariant forall i :: 0 <= i < k ==> IsNormalPart(path[i]) && children[i] == ReadU32(path[i])
    {
      if !IsNormalPart(path[k]) {
        return false, children;
      }
      children := children + [ReadU32(path[k])];
    }
    ok := true;
  }

  /** The path of an address in BIP-32's own form: the conversion never panics, and loses nothing. */
  method GetDerivationPath(address: seq<Byte>) returns (children: seq<U32>)
    requires |address| == ADDRESS_SIZE
    ensures |children| == 7 && forall i :: 0 <= i < 7 ==> children[i] < FIRST_HARDENED
    ensures ToIc(children) == PathOf(address)
  {
    var dp := GetDerivationPathIc(address);
    PathIsFaithful(address);
    var ok;
    ok, children := ToBip32(dp);
    forall i | 0 <= i < 7 ensures children[i] < FIRST_HARDENED {
      assert IsNormalPart(dp[i]);
    }
  }

  function ToIc(children: seq<U32>): seq<seq<Byte>> {
    seq(|children|, i requires 0 <= i < |children| => WriteU32(children[i]))
  }

  /** A part that starts with a zero byte is a normal index. */
  lemma ZeroFirstIsNormal(part: seq<Byte>)
    requires |part| == 4 && part[0] == 0
    ensures IsNormalPart(part)
  {
    var three := part[..3];
    var two := three[..2];
    var one := two[..1];
    assert FromBigEndian(one) == FromBigEndian(one[..0]) * 256 + one[0] == 0;
    assert FromBigEndian(two) == two[1];
    assert FromBigEndian(three) == FromBigEndian(two) * 256 + three[2];
    assert FromBigEndian(part) == FromBigEndian(three) * 256 + part[3];
  }

  lemma PathIsNormal(address: seq<Byte>)
    requires |address| == ADDRESS_SIZE
    ensures |PathOf(address)| == 7 && IsNormalPath(PathOf(address))
  {
    forall i | 0 <= i < 7 ensures IsNormalPart(PathOf(address)[i]) {
      ZeroFirstIsNormal(PathOf(address)[i]);
    }
  }

  /** Converting a path to child numbers and back gives the same path. */
  lemma RoundTrip(path: seq<seq<Byte>>)
    requires IsNormalPath(path)
    ensures ToIc(Bip32Of(path)) == path
  {
    forall i | 0 <= i < |path| ensures ToIc(Bip32Of(path))[i] == path[i] {
      RewriteU32(path[i]);
    }
  }

  /** Every address has a path of seven normal indices, and converting it there and back gives the same path. */
  lemma PathIsFaithful(address: seq<Byte>)
    requires |address| == ADDRESS_SIZE
    ensures |PathOf(address)| == 7 && IsNormalPath(PathOf(address))
    ensures ToIc(Bip32Of(PathOf(address))) == PathOf(address)
  {
    PathIsNormal(address);
    RoundTrip(PathOf(address));
  }

  lemma {:induction false} ChunksDetermineBytes(a: seq<Byte>, b: seq<Byte>, n: nat)
    requires |a| == |b| == 3 * n && Chunks(a, n) == Chunks(b, n)
    ensures a == b
    decreases n
  {
    if n > 0 {
      var k := 3 * (n - 1);
      var ca, cb := Chunks(a, n), Chunks(b, n);
      assert ca[..n - 1] == Chunks(a[..k], n - 1) && cb[..n - 1] == Chunks(b[..k], n - 1);
      assert ca[n - 1] == [0] + a[k..] && cb[n - 1] == [0] + b[k..];
      assert ([0] + a[k..])[1..] == a[k..] && ([0] + b[k..])[1..] == b[k..];
      ChunksDetermineBytes(a[..k], b[..k], n - 1);
      assert a == a[..k] + a[k..] && b == b[..k] + b[k..];
    }
  }

  /** The child numbers determine the address: distinct addresses have distinct paths. */
  lemma PathDeterminesAddress(a: seq<Byte>, b: seq<Byte>)
    requires |a| == |b| == ADDRESS_SIZE
    ensures IsNormalPath(PathOf(a)) && IsNormalPath(PathOf(b))
    ensures Bip32Of(PathOf(a)) == Bip32Of(PathOf(b)) <==> a == b
  {
    PathIsFaithful(a);
    PathIsFaithful(b);
    if Bip32Of(PathOf(a)) == Bip32Of(PathOf(b)) {
      ChunksDetermineBytes([DERIVATION_PATH_PREFIX] + a, [DERIVATION_PATH_PREFIX] + b, 7);
      assert ([DERIVATION_PATH_PREFIX] + a)[1..] == a && ([DERIVATION_PATH_PREFIX] + b)[1..] == b;
    }
  }
}
