/** What the bridge contract logs, and what a deposit notification asks for. */
module Events {
  import opened Words
  import opened Sums

  datatype ApproveAfterMint = ApproveAfterMint(spender: Address, amount: U256)

  /** The 32 bytes that tell an owner's accounts on a ledger apart; all zero is the default one. */
  type Subaccount = U256

  /** A user's request to bridge ICRC-2 tokens to an EVM wallet. */
  datatype Icrc2Burn = Icrc2Burn(
    sender: Id256,
    token: Id256,
    amount: U256,
    recipient: Address,
    feePayer: Option<Address>,
    approveAfterMint: Option<ApproveAfterMint>,
    fromSubaccount: Option<Subaccount>)

  datatype TokenMetadata = TokenMetadata(name: U256, symbol: Bytes16, decimals: U8)

  datatype BurntEventData = BurntEventData(
    sender: Address,
    amount: U256,
    fromErc20: Address,
    recipientId: Id256,
    toToken: Id256,
    operationId: U32,
    meta: TokenMetadata)

  datatype MintedEventData = MintedEventData(
    amount: U256,
    fromToken: Id256,
    sender: Id256,
    toErc20: Address,
    recipient: Address,
    nonce: U32)

  /** `userData` is None when the notification's bytes do not decode to a request. */
  datatype BridgeEvent =
    | Burnt(burnt: BurntEventData)
    | Minted(minted: MintedEventData)
    | Notify(txSender: Address, userData: Option<Icrc2Burn>)

  type NonceKey = (Id256, U32)

  function KeyOf(m: MintedEventData): NonceKey {
    (m.sender, m.nonce)
  }

  /** Total amount that mint events report for token contract `erc20`. */
  function MintedTotal(events: seq<BridgeEvent>, erc20: Address): nat {
    if events == [] then 0 else
      var e := events[|events| - 1];
      MintedTotal(events[..|events| - 1], erc20)
      + if e.Minted? && e.minted.toErc20 == erc20 then e.minted.amount else 0
  }

  /** Total amount that burn events report for token contract `erc20`. */
  function BurntTotal(events: seq<BridgeEvent>, erc20: Address): nat {
    if events == [] then 0 else
      var e := events[|events| - 1];
      BurntTotal(events[..|events| - 1], erc20)
      + if e.Burnt? && e.burnt.fromErc20 == erc20 then e.burnt.amount else 0
  }

  lemma TotalsExtend(events: seq<BridgeEvent>, e: BridgeEvent, erc20: Address)
    ensures MintedTotal(events + [e], erc20)
         == MintedTotal(events, erc20) + if e.Minted? && e.minted.toErc20 == erc20 then e.minted.amount else 0
    ensures BurntTotal(events + [e], erc20)
         == BurntTotal(events, erc20) + if e.Burnt? && e.burnt.fromErc20 == erc20 then e.burnt.amount else 0
  {
    assert (events + [e])[..|events|] == events;
  }

  lemma {:induction false} TotalsOfStranger(events: seq<BridgeEvent>, erc20: Address)
    requires forall i :: 0 <= i < |events| ==>
      && (events[i].Minted? ==> events[i].minted.toErc20 != erc20)
      && (events[i].Burnt? ==> events[i].burnt.fromErc20 != erc20)
    ensures MintedTotal(events, erc20) == 0 && BurntTotal(events, erc20) == 0
  {
    if events != [] {
      TotalsOfStranger(events[..|events| - 1], erc20);
    }
  }
}
