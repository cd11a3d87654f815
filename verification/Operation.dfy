/** The status of a bridge operation, from request to completion. */
module Operations {
  import opened Words
  import opened Sums
  import opened MintOrders
  import opened Events

  datatype BurntIcrc2Data = BurntIcrc2Data(
    sender: Id256,
    amount: U256,
    srcToken: Id256,
    recipient: Address,
    operationId: U32,
    meta: TokenMetadata,
    feePayer: Option<Address>,
    approveAfterMint: Option<ApproveAfterMint>)

  datatype DepositState =
    | DepositScheduled(request: Icrc2Burn)
    | Icrc2Burned(data: BurntIcrc2Data)
    | MintOrderSigned(tokenId: Id256, amount: U256, order: MintOrder)
    | MintOrderSent(tokenId: Id256, amount: U256, order: MintOrder, txId: U256)
    | DepositMinted(tokenId: Id256, amount: U256, txId: U256)

  datatype WithdrawalState =
    | WithdrawalScheduled(event: BurntEventData)
    | RefundScheduled(data: BurntIcrc2Data)
    | Transferred(token: Id256, receiver: Id256, received: nat, ledgerTx: nat)
    | RefundMintOrderSigned(tokenId: Id256, amount: U256, order: MintOrder)
    | RefundMintOrderSent(tokenId: Id256, amount: U256, order: MintOrder, txId: U256)
    | RefundMinted(tokenId: Id256, amount: U256, txId: U256)

  datatype OperationState = Deposit(deposit: DepositState) | Withdrawal(withdrawal: WithdrawalState)

  predicate IsComplete(p: OperationState) {
    match p
    case Deposit(d) => d.DepositMinted?
    case Withdrawal(w) => w.Transferred? || w.RefundMinted?
  }

  function IfFor(forToken: Option<Id256>, tokenId: Id256, order: MintOrder): Option<MintOrder> {
    if forToken == None || forToken == Some(tokenId) then Some(order) else None
  }

  /** The signed order a user may fetch and send himself. */
  function GetSignedMintOrder(p: OperationState, forToken: Option<Id256>): Option<MintOrder> {
    match p
    case Deposit(MintOrderSigned(tokenId, _, order)) => IfFor(forToken, tokenId, order)
    case Deposit(MintOrderSent(tokenId, _, order, _)) => IfFor(forToken, tokenId, order)
    case Withdrawal(RefundMintOrderSigned(tokenId, _, order)) => IfFor(forToken, tokenId, order)
    case _ => None
  }

  /** How far an operation has come on its own path. */
  function Rank(p: OperationState): nat {
    match p
    case Deposit(d) => (
      match d
      case DepositScheduled(_) => 0
      case Icrc2Burned(_) => 1
      case MintOrderSigned(_, _, _) => 2
      case MintOrderSent(_, _, _, _) => 3
      case DepositMinted(_, _, _) => 4)
    case Withdrawal(w) => (
      match w
      case WithdrawalScheduled(_) => 0
      case RefundScheduled(_) => 1
      case RefundMintOrderSigned(_, _, _) => 2
      case RefundMintOrderSent(_, _, _, _) => 3
      case RefundMinted(_, _, _) => 4
      case Transferred(_, _, _, _) => 4)
  }

  /** The token an operation is about. */
  function TokenOf(p: OperationState): Id256 {
    match p
    case Deposit(d) => (
      match d
      case DepositScheduled(r) => r.token
      case Icrc2Burned(data) => data.srcToken
      case MintOrderSigned(t, _, _) => t
      case MintOrderSent(t, _, _, _) => t
      case DepositMinted(t, _, _) => t)
    case Withdrawal(w) => (
      match w
      case WithdrawalScheduled(e) => e.toToken
      case RefundScheduled(data) => data.srcToken
      case RefundMintOrderSigned(t, _, _) => t
      case RefundMintOrderSent(t, _, _, _) => t
      case RefundMinted(t, _, _) => t
      case Transferred(t, _, _, _) => t)
  }

  /** The amount an operation is about; a transferred one reports what the receiver got, without the ledger fee. */
  function AmountOf(p: OperationState): nat {
    match p
    case Deposit(d) => (
      match d
      case DepositScheduled(r) => r.amount
      case Icrc2Burned(data) => data.amount
      case MintOrderSigned(_, a, _) => a
      case MintOrderSent(_, a, _, _) => a
      case DepositMinted(_, a, _) => a)
    case Withdrawal(w) => (
      match w
      case WithdrawalScheduled(e) => e.amount
      case RefundScheduled(data) => data.amount
      case RefundMintOrderSigned(_, a, _) => a
      case RefundMintOrderSent(_, a, _, _) => a
      case RefundMinted(_, a, _) => a
      case Transferred(_, _, a, _) => a)
  }

  /** The wallet an operation in progress is for. */
  function RecipientOf(p: OperationState): Option<Address> {
    match p
    case Deposit(d) => (
      match d
      case DepositScheduled(r) => Some(r.recipient)
      case Icrc2Burned(data) => Some(data.recipient)
      case MintOrderSigned(_, _, o) => Some(o.recipient)
      case MintOrderSent(_, _, o, _) => Some(o.recipient)
      case DepositMinted(_, _, _) => None)
    case Withdrawal(w) => (
      match w
      case WithdrawalScheduled(e) => Some(e.sender)
      case RefundScheduled(data) => Some(data.recipient)
      case RefundMintOrderSigned(_, _, o) => Some(o.recipient)
      case RefundMintOrderSent(_, _, o, _) => Some(o.recipient)
      case RefundMinted(_, _, _) => None
      case Transferred(_, _, _, _) => None)
  }
}
