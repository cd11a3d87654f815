/**
 The ICRC-2 bridge as a transition system: the minter canister's tasks, the ICRC ledgers' view of
 its custody, and the bridge contract. A task that awaits is cut into the steps between its awaits,
 so that anything else may happen in between.
 */
module Protocol {
  import opened Words
  import opened Sums
  import opened MintOrders
  import opened Events
  import opened Operations
  import opened OperationStores
  import opened BftBridges
  import Icrc2

  const IC_CHAIN_ID: U32 := 0

  /** The one task an operation has in the scheduler, and how far it has run. */
  datatype Task =
    | BurnIdle | BurnAwaiting(request: Icrc2Burn) | BurnTaken(request: Icrc2Burn, meta: TokenMetadata)
    | PrepareIdle | PrepareSigning(order: MintOrder, isDeposit: bool) | PrepareSigned
    | SendIdle | Sending(order: MintOrder, amount: U256, tokenId: Id256, isDeposit: bool)
    | PayIdle | PayAwaiting(event: BurntEventData)
    | PayDone(event: BurntEventData, received: nat) | PayFailed(event: BurntEventData)

  datatype State = State(
    canister: Id256,                     // the minter's own principal
    custody: map<Id256, nat>,            // the minter's balance on each ICRC ledger
    store: Store<OperationState>,
    tasks: map<nat, Task>,
    orders: map<nat, MintOrder>,         // every order ever signed, by operation
    bridge: BridgeState,
    collected: set<nat>,                 // indices of logged events that were turned into tasks
    // What happened so far, for the accounting only:
    history: History<OperationState>,    // every operation ever created, with its latest status
    minted: set<nat>,                    // operations whose order was minted on chain
    sent: set<nat>,                      // operations whose order the canister itself submitted
    surplus: map<Id256, nat>,            // tokens that came to the minter outside any deposit
    unbacked: map<Id256, nat>)           // claims that no wrapped token was given up for

  function InitialState(bridge: BridgeState, canister: Id256, maxLogSize: nat): State {
    State(canister, map[], EmptyStore(maxLogSize), map[], map[], bridge, {}, [], {}, {}, map[], map[])
  }

  function Plus(m: map<Id256, nat>, t: Id256, n: nat): map<Id256, nat> {
    m[t := Get(m, t) + n]
  }

  // ---- On the EVM side ----

  /** Any contract call but a mint; burning a token the bridge did not deploy makes a claim on token id zero. */
  function EvmCall(s: State, c: BridgeCall): Option<State> {
    if c.MintCall? then None else
      match Apply(s.bridge, c)
      case None => None
      case Some(b) => Some(s.(
        bridge := b,
        unbacked := if c.BurnCall? && c.fromErc20 !in s.bridge.tokens then Plus(s.unbacked, ZERO_ID, c.amount)
                    else s.unbacked))
  }

  /** Someone submits the order signed for operation `id`; no other order carries the minter's signature. */
  function MintOnChain(s: State, caller: Address, id: nat, feeOk: bool): (r: Option<State>)
    ensures r.Some? ==> id in s.orders && r.value == s.(bridge := r.value.bridge, minted := s.minted + {id})
  {
    if id !in s.orders then None else
      match MintDecoded(s.bridge, caller, s.orders[id], s.bridge.minter, true, feeOk)
      case None => None
      case Some(b) => Some(s.(bridge := b, minted := s.minted + {id}))
  }

  lemma ReadsOrder(o: MintOrder, payload: seq<Byte>)
    requires payload == Encode(o)
    ensures Decode(payload[..ORDER_SIZE]) == o
  {
    assert payload[..ORDER_SIZE] == payload;
    DecodeEncode(o);
  }

  /** What is submitted are the packed bytes of the order, from which the contract reads the order that was signed. */
  lemma SubmitsBytes(s: State, caller: Address, id: nat, feeOk: bool, payload: seq<Byte>)
    requires id in s.orders && payload == Encode(s.orders[id])
    ensures MintOnChain(s, caller, id, feeOk)
         == match Mint(s.bridge, caller, payload, s.bridge.minter, true, feeOk)
            case None => None
            case Some(b) => Some(s.(bridge := b, minted := s.minted + {id}))
  {
    ReadsOrder(s.orders[id], payload);
  }

  // ---- Collected events ----

  ghost function NewTask(s: State, dst: Address, payload: OperationState, task: Task): (r: State)
    ensures !IsComplete(payload) ==> r.store.incomplete == s.store.incomplete[s.store.next := Entry(dst, payload)]
    ensures r == s.(store := r.store, tasks := s.tasks[s.store.next := task],
                    history := s.history + [Entry(dst, payload)])
  {
    s.(store := NewOperation(s.store, IsComplete, dst, payload),
       tasks := s.tasks[s.store.next := task],
       history := s.history + [Entry(dst, payload)])
  }

  /** The approval is honoured only if the notification came from the recipient's own wallet. */
  function Vetted(txSender: Address, request: Icrc2Burn): Icrc2Burn {
    if txSender != request.recipient then request.(approveAfterMint := None) else request
  }

  /** The event is seen; a burn event seen before makes a claim nobody gave anything up for. */
  function Claimed(s: State, k: nat, e: BurntEventData): State {
    var seen := s.(collected := s.collected + {k});
    if k in s.collected then seen.(unbacked := Plus(s.unbacked, e.toToken, e.amount)) else seen
  }

  ghost function CollectBurnt(s: State, k: nat, e: BurntEventData): (r: State)
    ensures r == Claimed(s, k, e).(store := r.store, tasks := r.tasks,
                                   history := s.history + [Entry(e.sender, Withdrawal(WithdrawalScheduled(e)))])
  {
    NewTask(Claimed(s, k, e), e.sender, Withdrawal(WithdrawalScheduled(e)), PayIdle)
  }

  ghost function CollectRequest(s: State, k: nat, request: Icrc2Burn): (r: State)
    ensures r == s.(collected := s.collected + {k}, store := r.store, tasks := r.tasks,
                    history := s.history + [Entry(request.recipient, Deposit(DepositScheduled(request)))])
  {
    NewTask(s.(collected := s.collected + {k}), request.recipient, Deposit(DepositScheduled(request)), BurnIdle)
  }

  ghost function CollectEvent(s: State, k: nat): (r: Option<State>)
    ensures r.Some? ==> r.value.bridge == s.bridge && r.value.orders == s.orders && r.value.minted == s.minted
    ensures r.Some? ==> s.history <= r.value.history && r.value.collected == s.collected + {k}
  {
    if k >= |s.bridge.events| then None else
      match s.bridge.events[k]
      case Burnt(e) => Some(CollectBurnt(s, k, e))
      case Notify(txSender, Some(request)) => Some(CollectRequest(s, k, Vetted(txSender, request)))
      case _ => Some(s.(collected := s.collected + {k}))
  }

  /** The first operation in a list with the given nonce. */
  function FindNonce(ops: seq<(nat, OperationState)>, nonce: U32): Option<(nat, OperationState)> {
    if ops == [] then None
    else if Nonce(ops[0].0) == nonce then Some(ops[0])
    else FindNonce(ops[1..], nonce)
  }

  /** The task for a mint event; it is tried again until the operation is found in the right state. */
  ghost function RemoveMintOrder(s: State, k: nat): (r: Option<State>)
    ensures r.Some? ==> SameBooks(s, r.value) && SameOutside(s, r.value) && r.value.orders == s.orders
  {
    if k >= |s.bridge.events| || k !in s.collected || !s.bridge.events[k].Minted? then None else
      var e := s.bridge.events[k].minted;
      match FindNonce(GetForAddress(s.store, e.recipient), e.nonce)
      case Some((id, Deposit(MintOrderSent(tokenId, _, _, txId)))) =>
        if tokenId != e.fromToken then None
        else Some(SetStatus(s, id, Deposit(DepositMinted(e.fromToken, e.amount, txId))))
      case Some((id, Withdrawal(RefundMintOrderSent(tokenId, _, _, txId)))) =>
        if tokenId != e.fromToken then None
        else Some(SetStatus(s, id, Withdrawal(RefundMinted(e.fromToken, e.amount, txId))))
      case _ => None
  }

  ghost function SetStatus(s: State, id: nat, payload: OperationState): (r: State)
    ensures SameOwners(s.history, r.history)
  {
    s.(store := Update(s.store, IsComplete, id, payload), history := Amend(s.history, IsComplete, id, payload))
  }

  function SetTask(s: State, id: nat, task: Task): State {
    s.(tasks := s.tasks[id := task])
  }

  function EndTask(s: State, id: nat): State {
    s.(tasks := s.tasks - {id})
  }

  function StatusOf(s: State, id: nat): Option<OperationState> {
    Lookup(s.store, id)
  }

  predicate HasTask(s: State, id: nat, task: Task) {
    id in s.tasks && s.tasks[id] == task
  }

  /** The same operations for the same wallets. */
  predicate SameOwners(h: History<OperationState>, h': History<OperationState>) {
    |h| == |h'| && forall i :: 0 <= i < |h| ==> h'[i].dst == h[i].dst
  }

  /** What the steps of an operation's task leave alone. */
  predicate SameOutside(s: State, s': State) {
    && s'.canister == s.canister && s'.bridge == s.bridge && s'.collected == s.collected
    && s'.minted == s.minted && SameOwners(s.history, s'.history)
  }

  /** Nothing is given, and nothing is claimed for nothing. */
  predicate SameBooks(s: State, s': State) {
    s'.unbacked == s.unbacked && s'.surplus == s.surplus
  }

  /** No status changes and no order is signed. */
  predicate SameRecords(s: State, s': State) {
    s'.store == s.store && s'.history == s.history && s'.orders == s.orders
  }

  // ---- Deposit: pull the tokens, then prepare the order ----

  function BurnStart(s: State, id: nat): (r: Option<State>)
    ensures r.Some? ==> SameBooks(s, r.value) && SameOutside(s, r.value) && SameRecords(s, r.value)
  {
    if !HasTask(s, id, BurnIdle) then None else
      match StatusOf(s, id)
      case Some(Deposit(DepositScheduled(request))) => Some(SetTask(s, id, BurnAwaiting(request)))
      case _ => Some(EndTask(s, id))
  }

  /** The subaccount that spends deposits for a wallet: its address, filled up with zeros. */
  function SpenderSubaccount(recipient: Address): Subaccount {
    recipient * TWO_96
  }

  /** Where a deposit comes from, and whether the spending account is that very account. */
  function SourceOf(canister: Id256, r: Icrc2Burn): Icrc2.Source {
    var subaccount := if r.fromSubaccount.Some? then r.fromSubaccount.value else 0;
    if r.sender != canister || subaccount != 0 then Icrc2.Elsewhere
    else Icrc2.MainAccount(SpenderSubaccount(r.recipient) == subaccount)
  }

  /** A deposit out of the main account itself is a claim nobody gave anything up for, and loses a fee besides. */
  function BurnLedger(s: State, id: nat, meta: TokenMetadata, first: Icrc2.Pull, refresh: Option<Icrc2.Error>,
                      second: Icrc2.Pull): (r: Option<State>)
    ensures r.Some? ==> r.value.surplus == s.surplus && SameOutside(s, r.value) && SameRecords(s, r.value)
  {
    if id !in s.tasks || !s.tasks[id].BurnAwaiting? then None else
      var r := s.tasks[id].request;
      var custody, source := Get(s.custody, r.token), SourceOf(s.canister, r);
      var o := Icrc2.Burn(custody, source, r.amount, true, first, refresh, second);
      if o.result.Err? then Some(SetTask(s, id, BurnIdle)) else
        var taken := s.(custody := s.custody[r.token := o.custody],
                        unbacked := if source.Elsewhere? then s.unbacked
                                    else Plus(s.unbacked, r.token, r.amount + (custody - o.custody)));
        Some(SetTask(taken, id, BurnTaken(r, meta)))
  }

  function BurntData(id: nat, r: Icrc2Burn, meta: TokenMetadata): BurntIcrc2Data {
    BurntIcrc2Data(r.sender, r.amount, r.token, r.recipient, Nonce(id), meta, r.feePayer, r.approveAfterMint)
  }

  ghost function BurnFinish(s: State, id: nat): (r: Option<State>)
    ensures r.Some? ==> SameBooks(s, r.value) && SameOutside(s, r.value) && r.value.orders == s.orders
  {
    if id !in s.tasks || !s.tasks[id].BurnTaken? then None else
      var data := BurntData(id, s.tasks[id].request, s.tasks[id].meta);
      Some(SetTask(SetStatus(s, id, Deposit(Icrc2Burned(data))), id, PrepareIdle))
  }

  // ---- Mint orders ----

  function OrderFor(d: BurntIcrc2Data, chainId: U32): MintOrder {
    var approve := if d.approveAfterMint.Some? then d.approveAfterMint.value else ApproveAfterMint(0, 0);
    MintOrder(d.amount, d.sender, d.srcToken, d.recipient, ZERO_ADDRESS, d.operationId, IC_CHAIN_ID, chainId,
              d.meta.name, d.meta.symbol, d.meta.decimals, approve.spender, approve.amount,
              if d.feePayer.Some? then d.feePayer.value else ZERO_ADDRESS)
  }

  function PrepareStart(s: State, id: nat, chainId: U32): (r: Option<State>)
    ensures r.Some? ==> SameBooks(s, r.value) && SameOutside(s, r.value) && SameRecords(s, r.value)
  {
    if !HasTask(s, id, PrepareIdle) then None else
      match StatusOf(s, id)
      case Some(Deposit(Icrc2Burned(data))) => Some(SetTask(s, id, PrepareSigning(OrderFor(data, chainId), true)))
      case Some(Withdrawal(RefundScheduled(data))) =>
        Some(SetTask(s, id, PrepareSigning(OrderFor(data, chainId), false)))
      case _ => Some(EndTask(s, id))
  }

  function SignedStatus(o: MintOrder, isDeposit: bool): OperationState {
    if isDeposit then Deposit(MintOrderSigned(o.srcToken, o.amount, o))
    else Withdrawal(RefundMintOrderSigned(o.srcToken, o.amount, o))
  }

  /** With no fee payer, the user sends the order himself and the canister is done with it. */
  ghost function PrepareSign(s: State, id: nat): (r: Option<State>)
    ensures r.Some? ==> id in s.tasks && s.tasks[id].PrepareSigning?
    ensures r.Some? ==> SameBooks(s, r.value) && SameOutside(s, r.value)
    ensures r.Some? ==> r.value.orders == s.orders[id := s.tasks[id].order]
  {
    if id !in s.tasks || !s.tasks[id].PrepareSigning? then None else
      var o := s.tasks[id].order;
      var signed := SetStatus(s, id, SignedStatus(o, s.tasks[id].isDeposit)).(orders := s.orders[id := o]);
      Some(if o.feePayer != ZERO_ADDRESS then SetTask(signed, id, PrepareSigned) else EndTask(signed, id))
  }

  function PrepareFinish(s: State, id: nat): (r: Option<State>)
    ensures r.Some? ==> SameBooks(s, r.value) && SameOutside(s, r.value) && SameRecords(s, r.value)
  {
    if !HasTask(s, id, PrepareSigned) then None else Some(SetTask(s, id, SendIdle))
  }

  function SendStart(s: State, id: nat): (r: Option<State>)
    ensures r.Some? ==> SameBooks(s, r.value) && SameOutside(s, r.value) && SameRecords(s, r.value)
  {
    if !HasTask(s, id, SendIdle) then None else
      match StatusOf(s, id)
      case Some(Deposit(MintOrderSigned(tokenId, amount, o))) => Some(SetTask(s, id, Sending(o, amount, tokenId, true)))
      case Some(Withdrawal(RefundMintOrderSigned(tokenId, amount, o))) =>
        Some(SetTask(s, id, Sending(o, amount, tokenId, false)))
      case _ => Some(EndTask(s, id))
  }

  function SentStatus(t: Task, txId: U256): OperationState
    requires t.Sending?
  {
    if t.isDeposit then Deposit(MintOrderSent(t.tokenId, t.amount, t.order, txId))
    else Withdrawal(RefundMintOrderSent(t.tokenId, t.amount, t.order, txId))
  }

  ghost function SendFinish(s: State, id: nat, txId: U256): (r: Option<State>)
    ensures r.Some? ==> SameBooks(s, r.value) && SameOutside(s, r.value) && r.value.orders == s.orders
  {
    if id !in s.tasks || !s.tasks[id].Sending? then None
    else Some(EndTask(SetStatus(s, id, SentStatus(s.tasks[id], txId)), id).(sent := s.sent + {id}))
  }

  // ---- Withdrawal: pay out, or schedule a refund ----

  function PayStart(s: State, id: nat): (r: Option<State>)
    ensures r.Some? ==> SameBooks(s, r.value) && SameOutside(s, r.value) && SameRecords(s, r.value)
  {
    if !HasTask(s, id, PayIdle) then None else
      match StatusOf(s, id)
      case Some(Withdrawal(WithdrawalScheduled(e))) => Some(SetTask(s, id, PayAwaiting(e)))
      case _ => Some(EndTask(s, id))
  }

  /** A payout to the main account itself is a gift to the minter, of all but the fee. */
  function PayLedger(s: State, id: nat, first: Icrc2.Round, refresh: Option<Icrc2.Error>, second: Icrc2.Round)
    : (r: Option<State>)
    ensures r.Some? ==> r.value.unbacked == s.unbacked && SameOutside(s, r.value) && SameRecords(s, r.value)
  {
    if id !in s.tasks || !s.tasks[id].PayAwaiting? then None else
      var e := s.tasks[id].event;
      var toMain := e.recipientId == s.canister;
      var o := Icrc2.Mint(Get(s.custody, e.toToken), toMain, e.amount, true, first, refresh, second);
      match o.result
      case Ok(success) =>
        var paid := s.(custody := s.custody[e.toToken := o.custody],
                       surplus := if toMain then Plus(s.surplus, e.toToken, success.amount) else s.surplus);
        Some(SetTask(paid, id, PayDone(e, success.amount)))
      case Err(error) => Some(SetTask(s, id, if Icrc2.IsRetryable(error) then PayIdle else PayFailed(e)))
  }

  function RefundData(id: nat, e: BurntEventData): BurntIcrc2Data {
    BurntIcrc2Data(e.recipientId, e.amount, e.toToken, e.sender, Nonce(id), e.meta, None, None)
  }

  function PaidStatus(t: Task, id: nat, ledgerTx: nat): OperationState
    requires t.PayDone? || t.PayFailed?
  {
    if t.PayDone? then Withdrawal(Transferred(t.event.toToken, t.event.recipientId, t.received, ledgerTx))
    else Withdrawal(RefundScheduled(RefundData(id, t.event)))
  }

  ghost function PayFinish(s: State, id: nat, ledgerTx: nat): (r: Option<State>)
    ensures r.Some? ==> SameBooks(s, r.value) && SameOutside(s, r.value) && r.value.orders == s.orders
  {
    if id !in s.tasks then None else
      match s.tasks[id]
      case PayDone(_, _) => Some(EndTask(SetStatus(s, id, PaidStatus(s.tasks[id], id, ledgerTx)), id))
      case PayFailed(_) => Some(SetTask(SetStatus(s, id, PaidStatus(s.tasks[id], id, ledgerTx)), id, PrepareIdle))
      case _ => None
  }

  // ---- The scheduler ----

  /** An await without effect failed: the task starts over later. */
  function TaskFails(s: State, id: nat): (r: Option<State>)
    ensures r.Some? ==> SameBooks(s, r.value) && SameOutside(s, r.value) && SameRecords(s, r.value)
  {
    if id !in s.tasks then None else
      match s.tasks[id]
      case BurnAwaiting(_) => Some(SetTask(s, id, BurnIdle))
      case PrepareSigning(_, _) => Some(SetTask(s, id, PrepareIdle))
      case PrepareSigned => Some(SetTask(s, id, PrepareIdle))
      case Sending(_, _, _, _) => Some(SetTask(s, id, SendIdle))
      case PayAwaiting(_) => Some(SetTask(s, id, PayIdle))
      case _ => None
  }

  /** The scheduler gives up on a task that is not running. */
  function TaskDropped(s: State, id: nat): (r: Option<State>)
    ensures r.Some? ==> SameBooks(s, r.value) && SameOutside(s, r.value) && SameRecords(s, r.value)
  {
    if id in s.tasks
       && (s.tasks[id].BurnIdle? || s.tasks[id].PrepareIdle? || s.tasks[id].SendIdle? || s.tasks[id].PayIdle?)
    then Some(EndTask(s, id)) else None
  }

  // ---- All steps ----

  datatype Action =
    | DonateAction(token: Id256, amount: nat)
    | EvmAction(call: BridgeCall)
    | MintAction(caller: Address, id: nat, feeOk: bool)
    | CollectAction(event: nat)
    | RemoveOrderAction(event: nat)
    | BurnStartAction(id: nat)
    | BurnLedgerAction(id: nat, meta: TokenMetadata, burnFirst: Icrc2.Pull, refresh: Option<Icrc2.Error>,
                       burnSecond: Icrc2.Pull)
    | BurnFinishAction(id: nat)
    | PrepareStartAction(id: nat, chainId: U32)
    | PrepareSignAction(id: nat)
    | PrepareFinishAction(id: nat)
    | SendStartAction(id: nat)
    | SendFinishAction(id: nat, txId: U256)
    | PayStartAction(id: nat)
    | PayLedgerAction(id: nat, first: Icrc2.Round, refresh: Option<Icrc2.Error>, second: Icrc2.Round)
    | PayFinishAction(id: nat, ledgerTx: nat)
    | TaskFailsAction(id: nat)
    | TaskDroppedAction(id: nat)

  function Donate(s: State, t: Id256, n: nat): State {
    s.(custody := Plus(s.custody, t, n), surplus := Plus(s.surplus, t, n))
  }

  ghost function Next(s: State, a: Action): Option<State> {
    match a
    case DonateAction(t, n) => Some(Donate(s, t, n))
    case EvmAction(c) => EvmCall(s, c)
    case MintAction(caller, id, feeOk) => MintOnChain(s, caller, id, feeOk)
    case CollectAction(k) => CollectEvent(s, k)
    case RemoveOrderAction(k) => RemoveMintOrder(s, k)
    case BurnStartAction(id) => BurnStart(s, id)
    case BurnLedgerAction(id, meta, first, refresh, second) => BurnLedger(s, id, meta, first, refresh, second)
    case BurnFinishAction(id) => BurnFinish(s, id)
    case PrepareStartAction(id, chainId) => PrepareStart(s, id, chainId)
    case PrepareSignAction(id) => PrepareSign(s, id)
    case PrepareFinishAction(id) => PrepareFinish(s, id)
    case SendStartAction(id) => SendStart(s, id)
    case SendFinishAction(id, txId) => SendFinish(s, id, txId)
    case PayStartAction(id) => PayStart(s, id)
    case PayLedgerAction(id, first, refresh, second) => PayLedger(s, id, first, refresh, second)
    case PayFinishAction(id, tx) => PayFinish(s, id, tx)
    case TaskFailsAction(id) => TaskFails(s, id)
    case TaskDroppedAction(id) => TaskDropped(s, id)
  }

  /** The state after a run; an action that is not enabled is skipped. */
  ghost function Execution(s: State, run: seq<Action>): State {
    if run == [] then s else
      var before := Execution(s, run[..|run| - 1]);
      var after := Next(before, run[|run| - 1]);
      if after.Some? then after.value else before
  }
}
