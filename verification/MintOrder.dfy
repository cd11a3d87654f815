/** The mint order and its 269-byte packed layout. */
module MintOrders {
  import opened Words

  const ORDER_SIZE := 269

  datatype MintOrder = MintOrder(
    amount: U256,
    sender: Id256,
    srcToken: Id256,
    recipient: Address,
    dstToken: Address,
    nonce: U32,
    senderChainId: U32,
    recipientChainId: U32,
    name: U256,
    symbol: Bytes16,
    decimals: U8,
    approveSpender: Address,
    approveAmount: U256,
    feePayer: Address)

  /** Bytes 0 to 96: amount, sender and source token. */
  function PackValue(o: MintOrder): (s: seq<Byte>)
    ensures |s| == 96
  {
    WriteU256(o.amount) + WriteU256(o.sender) + WriteU256(o.srcToken)
  }

  /** Bytes 96 to 144: recipient, destination token, nonce and sender chain. */
  function PackRoute(o: MintOrder): (s: seq<Byte>)
    ensures |s| == 48
  {
    WriteAddress(o.recipient) + WriteAddress(o.dstToken) + WriteU32(o.nonce) + WriteU32(o.senderChainId)
  }

  /** Bytes 144 to 196: recipient chain, name and symbol. */
  function PackLabels(o: MintOrder): (s: seq<Byte>)
    ensures |s| == 52
  {
    WriteU32(o.recipientChainId) + WriteU256(o.name) + WriteBytes16(o.symbol)
  }

  /** Bytes 196 to 269: decimals, approval and fee payer. */
  function PackTerms(o: MintOrder): (s: seq<Byte>)
    ensures |s| == 73
  {
    [o.decimals] + WriteAddress(o.approveSpender) + WriteU256(o.approveAmount) + WriteAddress(o.feePayer)
  }

  /** The order as the minter packs and signs it. */
  function Encode(o: MintOrder): (s: seq<Byte>)
    ensures |s| == ORDER_SIZE
  {
    PackValue(o) + PackRoute(o) + PackLabels(o) + PackTerms(o)
  }

  /** The order as the contract reads it, slice by slice. */
  function Decode(s: seq<Byte>): (o: MintOrder)
    requires |s| == ORDER_SIZE
  {
    MintOrder(
      ReadU256(s[0..32]),
      ReadU256(s[32..64]),
      ReadU256(s[64..96]),
      ReadAddress(s[96..116]),
      ReadAddress(s[116..136]),
      ReadU32(s[136..140]),
      ReadU32(s[140..144]),
      ReadU32(s[144..148]),
      ReadU256(s[148..180]),
      ReadBytes16(s[180..196]),
      s[196],
      ReadAddress(s[197..217]),
      ReadU256(s[217..249]),
      ReadAddress(s[249..269]))
  }

  lemma SliceOfSlice(s: seq<Byte>, t: seq<Byte>, lo: nat, hi: nat, i: nat, j: nat)
    requires lo <= hi <= |s| && i <= j <= hi - lo && t == s[lo..hi]
    ensures t[i..j] == s[lo + i..lo + j]
  {
    assert |t[i..j]| == |s[lo + i..lo + j]|;
    assert forall k :: 0 <= k < j - i ==> t[i..j][k] == s[lo + i..lo + j][k];
  }

  lemma SlicesValue(s: seq<Byte>, t: seq<Byte>)
    requires |s| == ORDER_SIZE && t == s[0..96]
    ensures t[0..32] == s[0..32]
    ensures t[32..64] == s[32..64]
    ensures t[64..96] == s[64..96]
  {
    SliceOfSlice(s, t, 0, 96, 0, 32);
    SliceOfSlice(s, t, 0, 96, 32, 64);
    SliceOfSlice(s, t, 0, 96, 64, 96);
  }

  lemma SlicesRoute(s: seq<Byte>, t: seq<Byte>)
    requires |s| == ORDER_SIZE && t == s[96..144]
    ensures t[0..20] == s[96..116]
    ensures t[20..40] == s[116..136]
    ensures t[40..44] == s[136..140]
    ensures t[44..48] == s[140..144]
  {
    SliceOfSlice(s, t, 96, 144, 0, 20);
    SliceOfSlice(s, t, 96, 144, 20, 40);
    SliceOfSlice(s, t, 96, 144, 40, 44);
    SliceOfSlice(s, t, 96, 144, 44, 48);
  }

  lemma SlicesLabels(s: seq<Byte>, t: seq<Byte>)
    requires |s| == ORDER_SIZE && t == s[144..196]
    ensures t[0..4] == s[144..148]
    ensures t[4..36] == s[148..180]
    ensures t[36..52] == s[180..196]
  {
    SliceOfSlice(s, t, 144, 196, 0, 4);
    SliceOfSlice(s, t, 144, 196, 4, 36);
    SliceOfSlice(s, t, 144, 196, 36, 52);
  }

  lemma SlicesTerms(s: seq<Byte>, t: seq<Byte>)
    requires |s| == ORDER_SIZE && t == s[196..269]
    ensures t[0] == s[196]
    ensures t[1..21] == s[197..217]
    ensures t[21..53] == s[217..249]
    ensures t[53..73] == s[249..269]
  {
    SliceOfSlice(s, t, 196, 269, 1, 21);
    SliceOfSlice(s, t, 196, 269, 21, 53);
    SliceOfSlice(s, t, 196, 269, 53, 73);
  }

  lemma PackedValue(o: MintOrder)
    ensures PackValue(o)[0..32] == WriteU256(o.amount)
    ensures PackValue(o)[32..64] == WriteU256(o.sender)
    ensures PackValue(o)[64..96] == WriteU256(o.srcToken)
  {
  }

  lemma PackedRoute(o: MintOrder)
    ensures PackRoute(o)[0..20] == WriteAddress(o.recipient)
    ensures PackRoute(o)[20..40] == WriteAddress(o.dstToken)
    ensures PackRoute(o)[40..44] == WriteU32(o.nonce)
    ensures PackRoute(o)[44..48] == WriteU32(o.senderChainId)
  {
  }

  lemma PackedLabels(o: MintOrder)
    ensures PackLabels(o)[0..4] == WriteU32(o.recipientChainId)
    ensures PackLabels(o)[4..36] == WriteU256(o.name)
    ensures PackLabels(o)[36..52] == WriteBytes16(o.symbol)
  {
  }

  lemma PackedTerms(o: MintOrder)
    ensures PackTerms(o)[0] == o.decimals
    ensures PackTerms(o)[1..21] == WriteAddress(o.approveSpender)
    ensures PackTerms(o)[21..53] == WriteU256(o.approveAmount)
    ensures PackTerms(o)[53..73] == WriteAddress(o.feePayer)
  {
  }

  lemma JoinedParts(a: seq<Byte>, b: seq<Byte>, c: seq<Byte>, d: seq<Byte>)
    requires |a| == 96 && |b| == 48 && |c| == 52 && |d| == 73
    ensures var s := a + b + c + d;
      s[0..96] == a && s[96..144] == b && s[144..196] == c && s[196..269] == d
  {
  }

  /** Decoding what was packed gives back every field. */
  lemma DecodeEncode(o: MintOrder)
    ensures Decode(Encode(o)) == o
  {
    var s := Encode(o);
    PackedValue(o);
    PackedRoute(o);
    PackedLabels(o);
    PackedTerms(o);
    JoinedParts(PackValue(o), PackRoute(o), PackLabels(o), PackTerms(o));
    SlicesValue(s, PackValue(o));
    SlicesRoute(s, PackRoute(o));
    SlicesLabels(s, PackLabels(o));
    SlicesTerms(s, PackTerms(o));
  }

  /** Every field stands at its own offset, most significant byte first. */
  lemma Layout(o: MintOrder)
    ensures var s := Encode(o);
      && s[0..32] == BigEndian(o.amount, 32) && s[32..64] == BigEndian(o.sender, 32)
      && s[64..96] == BigEndian(o.srcToken, 32)
      && s[96..116] == BigEndian(o.recipient, 20) && s[116..136] == BigEndian(o.dstToken, 20)
      && s[136..140] == BigEndian(o.nonce, 4) && s[140..144] == BigEndian(o.senderChainId, 4)
      && s[144..148] == BigEndian(o.recipientChainId, 4)
      && s[148..180] == BigEndian(o.name, 32) && s[180..196] == BigEndian(o.symbol, 16) && s[196] == o.decimals
      && s[197..217] == BigEndian(o.approveSpender, 20) && s[217..249] == BigEndian(o.approveAmount, 32)
      && s[249..269] == BigEndian(o.feePayer, 20)
  {
    var s := Encode(o);
    PackedValue(o);
    PackedRoute(o);
    PackedLabels(o);
    PackedTerms(o);
    JoinedParts(PackValue(o), PackRoute(o), PackLabels(o), PackTerms(o));
    SlicesValue(s, PackValue(o));
    SlicesRoute(s, PackRoute(o));
    SlicesLabels(s, PackLabels(o));
    SlicesTerms(s, PackTerms(o));
  }

  lemma RepackValue(s: seq<Byte>)
    requires |s| == ORDER_SIZE
    ensures PackValue(Decode(s)) == s[0..96]
  {
    RewriteU256(s[0..32]);
    RewriteU256(s[32..64]);
    RewriteU256(s[64..96]);
    assert s[0..96] == s[0..32] + s[32..64] + s[64..96];
  }

  lemma Cut(s: seq<Byte>, a: nat, b: nat, c: nat, d: nat, e: nat)
    requires a <= b <= c <= d <= e <= |s|
    ensures s[a..e] == s[a..b] + s[b..c] + s[c..d] + s[d..e]
  {
    assert s[a..c] == s[a..b] + s[b..c];
    assert s[a..d] == s[a..c] + s[c..d];
  }

  lemma RepackRoute(s: seq<Byte>)
    requires |s| == ORDER_SIZE
    ensures PackRoute(Decode(s)) == s[96..144]
  {
    RewriteAddress(s[96..116]);
    RewriteAddress(s[116..136]);
    RewriteU32(s[136..140]);
    RewriteU32(s[140..144]);
    Cut(s, 96, 116, 136, 140, 144);
  }

  lemma RepackLabels(s: seq<Byte>)
    requires |s| == ORDER_SIZE
    ensures PackLabels(Decode(s)) == s[144..196]
  {
    RewriteU32(s[144..148]);
    RewriteU256(s[148..180]);
    RewriteBytes16(s[180..196]);
    assert s[144..196] == s[144..148] + s[148..180] + s[180..196];
  }

  lemma RepackTerms(s: seq<Byte>)
    requires |s| == ORDER_SIZE
    ensures PackTerms(Decode(s)) == s[196..269]
  {
    RewriteAddress(s[197..217]);
    RewriteU256(s[217..249]);
    RewriteAddress(s[249..269]);
    assert s[196..197] == [s[196]];
    Cut(s, 196, 197, 217, 249, 269);
  }

  lemma Rejoin(s: seq<Byte>, a: seq<Byte>, b: seq<Byte>, c: seq<Byte>, d: seq<Byte>)
    requires |s| == ORDER_SIZE && a == s[0..96] && b == s[96..144] && c == s[144..196] && d == s[196..269]
    ensures a + b + c + d == s
  {
  }

  /** Packing what was decoded gives back the very bytes: the layout has no slack. */
  lemma EncodeDecode(s: seq<Byte>)
    requires |s| == ORDER_SIZE
    ensures Encode(Decode(s)) == s
  {
    RepackValue(s);
    RepackRoute(s);
    RepackLabels(s);
    RepackTerms(s);
    var o := Decode(s);
    Rejoin(s, PackValue(o), PackRoute(o), PackLabels(o), PackTerms(o));
  }
}
