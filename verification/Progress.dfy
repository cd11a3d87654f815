/**
 How operations get on: with the ledger and the contract in the right mood, the steps of a deposit or a withdrawal lead
 to the status they are for, and otherwise to another try or to a refund.
 */
module Progress {
  import opened Words
  import opened Sums
  import opened MintOrders
  import opened Events
  import opened Operations
  import opened OperationStores
  import opened WrappedTokens
  import opened BftBridges
  import opened Protocol
  import opened Backing
  import opened Provenance
  import opened Completion
  import Icrc2

  /** The operation's status, and its task if it has one. */
  ghost predicate IsAt(s: State, id: nat, p: OperationState, task: Option<Task>) {
    && HasStatus(s, id, p)
    && if task.Some? then HasTask(s, id, task.value) else id !in s.tasks
  }

  /** Besides the operation and the custody, nothing of the bridge's state changed. */
  ghost predicate SameElsewhere(s: State, s': State) {
    && s'.canister == s.canister && s'.bridge == s.bridge && s'.minted == s.minted && s'.collected == s.collected
    && SameOwners(s.history, s'.history)
  }

  /** One more step after a run. */
  lemma OneMore(s: State, run: seq<Action>, a: Action, s': State)
    requires Next(Execution(s, run), a) == Some(s')
    ensures Execution(s, run + [a]) == s'
  {
    ExecutionSplit(s, run, [a]);
    Execute1(Execution(s, run), a);
  }

  lemma StatusIsFound(s: State, id: nat, p: OperationState)
    requires HasStatus(s, id, p)
    ensures StatusOf(s, id) == Some(p)
  {
  }

  lemma FaithfulStays(s: State, s': State)
    requires Faithful(s) && SameRecords(s, s')
    ensures Faithful(s')
  {
  }

  // ---- Single steps ----

  lemma StatusIsSet(s: State, id: nat, p: OperationState)
    requires StoreCoherent(s.store) && id in s.store.incomplete && !IsComplete(p)
    ensures HasStatus(SetStatus(s, id, p), id, p)
  {
  }

  /** The ledger made the transfer, in the first round or the second. */
  lemma LedgerTakes(s: State, id: nat, r: Icrc2Burn, meta: TokenMetadata, first: Icrc2.Pull,
                    refresh: Option<Icrc2.Error>, second: Icrc2.Pull)
    requires HasTask(s, id, BurnAwaiting(r))
    requires Icrc2.TakesInTime(Get(s.custody, r.token), SourceOf(s.canister, r), r.amount, first, refresh, second)
    ensures var s' := BurnLedger(s, id, meta, first, refresh, second);
      && s'.Some? && HasTask(s'.value, id, BurnTaken(r, meta))
      && (SourceOf(s.canister, r).Elsewhere? ==> Get(s'.value.custody, r.token) == Get(s.custody, r.token) + r.amount)
  {
    var custody, source := Get(s.custody, r.token), SourceOf(s.canister, r);
    Icrc2.BurnTakesExactly(custody, source, r.amount, first, refresh, second);
    Icrc2.BurnCreditsExactly(custody, source, r.amount, true, first, refresh, second);
  }

  /** Otherwise the deposit waits for another try, and nothing else changed. */
  lemma LedgerRefuses(s: State, id: nat, r: Icrc2Burn, meta: TokenMetadata, first: Icrc2.Pull,
                      refresh: Option<Icrc2.Error>, second: Icrc2.Pull)
    requires HasTask(s, id, BurnAwaiting(r))
    requires !Icrc2.TakesInTime(Get(s.custody, r.token), SourceOf(s.canister, r), r.amount, first, refresh, second)
    ensures BurnLedger(s, id, meta, first, refresh, second) == Some(s.(tasks := s.tasks[id := BurnIdle]))
  {
    Icrc2.BurnTakesExactly(Get(s.custody, r.token), SourceOf(s.canister, r), r.amount, first, refresh, second);
  }

  /** The ledger, with its retry, does not make the payout, and this is why. */
  predicate IsRefused(s: State, e: BurntEventData, first: Icrc2.Round, refresh: Option<Icrc2.Error>,
                      second: Icrc2.Round, error: Icrc2.Error)
  {
    var custody := Get(s.custody, e.toToken);
    Icrc2.Mint(custody, e.recipientId == s.canister, e.amount, true, first, refresh, second).result == Icrc2.Err(error)
  }

  /** Errors that may pass. */
  function PassingErrors(): set<Icrc2.Error> {
    {Icrc2.TransferFailed(Icrc2.TooOld), Icrc2.TransferFailed(Icrc2.CreatedInFuture),
     Icrc2.TransferFailed(Icrc2.TemporarilyUnavailable), Icrc2.TransferFailed(Icrc2.GenericError),
     Icrc2.CallFailed(true)}
  }

  /** The fee of the round that paid. */
  function FeePaid(s: State, e: BurntEventData, first: Icrc2.Round, second: Icrc2.Round): nat {
    if Icrc2.Pays(Get(s.custody, e.toToken), e.amount, first) then first.ledgerFee else second.ledgerFee
  }

  /** A failed payout is tried again exactly after these errors; after any other the burn is to be refunded. */
  lemma PayoutFails(s: State, id: nat, e: BurntEventData, first: Icrc2.Round, refresh: Option<Icrc2.Error>,
                    second: Icrc2.Round, error: Icrc2.Error)
    requires HasTask(s, id, PayAwaiting(e))
    requires IsRefused(s, e, first, refresh, second, error)
    ensures PayLedger(s, id, first, refresh, second)
         == Some(s.(tasks := s.tasks[id := if error in PassingErrors() then PayIdle else PayFailed(e)]))
  {
  }

  /** A payout that succeeds leaves the burnt amount less the fee with the receiver. */
  lemma PayoutSucceeds(s: State, id: nat, e: BurntEventData, first: Icrc2.Round, refresh: Option<Icrc2.Error>,
                       second: Icrc2.Round)
    requires HasTask(s, id, PayAwaiting(e))
    requires Icrc2.PaysInTime(Get(s.custody, e.toToken), e.amount, first, refresh, second)
    ensures var s' := PayLedger(s, id, first, refresh, second);
            var fee := FeePaid(s, e, first, second);
      && s'.Some? && fee <= e.amount && HasTask(s'.value, id, PayDone(e, e.amount - fee))
      && (e.recipientId != s.canister ==> Get(s'.value.custody, e.toToken) + e.amount == Get(s.custody, e.toToken))
  {
    var custody, toMain := Get(s.custody, e.toToken), e.recipientId == s.canister;
    Icrc2.MintPaysExactly(custody, toMain, e.amount, first, refresh, second);
    Icrc2.MintDebitsExactly(custody, toMain, e.amount, true, first, refresh, second);
  }

  /** Whatever await of a task fails without effect, the task starts over. */
  lemma FailedStartsOver(s: State, id: nat)
    requires id in s.tasks
    ensures var t := s.tasks[id];
      TaskFails(s, id) ==
        if t.BurnAwaiting? then Some(s.(tasks := s.tasks[id := BurnIdle]))
        else if t.PrepareSigning? || t.PrepareSigned? then Some(s.(tasks := s.tasks[id := PrepareIdle]))
        else if t.Sending? then Some(s.(tasks := s.tasks[id := SendIdle]))
        else if t.PayAwaiting? then Some(s.(tasks := s.tasks[id := PayIdle]))
        else None
  {
  }

  // ---- A deposit, stage by stage ----

  /** The request's own data, with the operation's nonce and the token's metadata. */
  function Taken(id: nat, r: Icrc2Burn, meta: TokenMetadata): BurntIcrc2Data {
    BurntIcrc2Data(sender := r.sender, amount := r.amount, srcToken := r.token, recipient := r.recipient,
                   operationId := Nonce(id), meta := meta, feePayer := r.feePayer,
                   approveAfterMint := r.approveAfterMint)
  }

  function Taking(id: nat, meta: TokenMetadata, first: Icrc2.Pull, refresh: Option<Icrc2.Error>, second: Icrc2.Pull)
    : seq<Action>
  {
    [BurnStartAction(id), BurnLedgerAction(id, meta, first, refresh, second)]
  }

  lemma TakingFinishes(s: State, id: nat, r: Icrc2Burn, meta: TokenMetadata)
    requires Sound(s) && HasTask(s, id, BurnTaken(r, meta))
    ensures var s' := BurnFinish(s, id);
      && s'.Some? && SameElsewhere(s, s'.value) && s'.value.custody == s.custody
      && IsAt(s'.value, id, Deposit(Icrc2Burned(Taken(id, r, meta))), Some(PrepareIdle))
  {
    TaskIsLive(s, id);
    StatusIsSet(s, id, Deposit(Icrc2Burned(BurntData(id, r, meta))));
  }

  lemma TakingStarts(s: State, id: nat, r: Icrc2Burn, meta: TokenMetadata, first: Icrc2.Pull,
                     refresh: Option<Icrc2.Error>, second: Icrc2.Pull)
    requires IsAt(s, id, Deposit(DepositScheduled(r)), Some(BurnIdle))
    requires Icrc2.TakesInTime(Get(s.custody, r.token), SourceOf(s.canister, r), r.amount, first, refresh, second)
    ensures var s' := Execution(s, Taking(id, meta, first, refresh, second));
      && SameElsewhere(s, s') && SameRecords(s, s') && HasTask(s', id, BurnTaken(r, meta))
      && (SourceOf(s.canister, r).Elsewhere? ==> Get(s'.custody, r.token) == Get(s.custody, r.token) + r.amount)
  {
    var s1 := s.(tasks := s.tasks[id := BurnAwaiting(r)]);
    LedgerTakes(s1, id, r, meta, first, refresh, second);
    Steps2(s, BurnStartAction(id), s1, BurnLedgerAction(id, meta, first, refresh, second),
           BurnLedger(s1, id, meta, first, refresh, second).value);
  }

  lemma FinishesTaking(s: State, id: nat)
    ensures Next(s, BurnFinishAction(id)) == BurnFinish(s, id)
  {
  }

  lemma FinishesSending(s: State, id: nat, txId: U256)
    ensures Next(s, SendFinishAction(id, txId)) == SendFinish(s, id, txId)
  {
  }

  /** The tokens are taken, and the minter owes an order for them. */
  lemma DepositIsTaken(s: State, id: nat, r: Icrc2Burn, meta: TokenMetadata, first: Icrc2.Pull,
                       refresh: Option<Icrc2.Error>, second: Icrc2.Pull)
    requires Inv(s) && IsAt(s, id, Deposit(DepositScheduled(r)), Some(BurnIdle))
    requires Icrc2.TakesInTime(Get(s.custody, r.token), SourceOf(s.canister, r), r.amount, first, refresh, second)
    ensures var s' := Execution(s, Taking(id, meta, first, refresh, second) + [BurnFinishAction(id)]);
      && SameElsewhere(s, s')
      && IsAt(s', id, Deposit(Icrc2Burned(Taken(id, r, meta))), Some(PrepareIdle))
      && (SourceOf(s.canister, r).Elsewhere? ==> Get(s'.custody, r.token) == Get(s.custody, r.token) + r.amount)
  {
    var run := Taking(id, meta, first, refresh, second);
    TakingStarts(s, id, r, meta, first, refresh, second);
    EveryStateSound(s, run);
    var s2 := Execution(s, run);
    TakingFinishes(s2, id, r, meta);
    FinishesTaking(s2, id);
    OneMore(s, run, BurnFinishAction(id), BurnFinish(s2, id).value);
  }

  /** The order carries the data field by field. */
  predicate Carries(o: MintOrder, d: BurntIcrc2Data, chainId: U32) {
    && o.amount == d.amount && o.sender == d.sender && o.srcToken == d.srcToken && o.recipient == d.recipient
    && o.dstToken == ZERO_ADDRESS && o.nonce == d.operationId
    && o.senderChainId == 0 && o.recipientChainId == chainId
    && TokenMetadata(o.name, o.symbol, o.decimals) == d.meta
    && (if d.approveAfterMint.Some? then ApproveAfterMint(o.approveSpender, o.approveAmount) == d.approveAfterMint.value
        else o.approveSpender == ZERO_ADDRESS && o.approveAmount == 0)
    && o.feePayer == if d.feePayer.Some? then d.feePayer.value else ZERO_ADDRESS
  }

  predicate IsPaid(d: BurntIcrc2Data) {
    d.feePayer.Some? && d.feePayer.value != ZERO_ADDRESS
  }

  function Signing(id: nat, chainId: U32): seq<Action> {
    [PrepareStartAction(id, chainId), PrepareSignAction(id)]
  }

  lemma SigningEnds(s: State, id: nat, o: MintOrder, isDeposit: bool)
    requires Sound(s) && HasTask(s, id, PrepareSigning(o, isDeposit))
    ensures var s' := PrepareSign(s, id);
      && s'.Some? && SameElsewhere(s, s'.value) && s'.value.custody == s.custody
      && s'.value.orders == s.orders[id := o]
      && IsAt(s'.value, id, if isDeposit then Deposit(MintOrderSigned(o.srcToken, o.amount, o))
                            else Withdrawal(RefundMintOrderSigned(o.srcToken, o.amount, o)),
              if o.feePayer != ZERO_ADDRESS then Some(PrepareSigned) else None)
  {
    TaskIsLive(s, id);
    StatusIsSet(s, id, SignedStatus(o, isDeposit));
  }

  /** An order for a deposit or a refund is signed; it is to be sent exactly if it names a fee payer. */
  lemma OrderIsSigned(s: State, id: nat, d: BurntIcrc2Data, isDeposit: bool, chainId: U32)
    requires Inv(s)
    requires var p := if isDeposit then Deposit(Icrc2Burned(d)) else Withdrawal(RefundScheduled(d));
      IsAt(s, id, p, Some(PrepareIdle))
    ensures var s' := Execution(s, Signing(id, chainId));
      && SameElsewhere(s, s') && s'.custody == s.custody && id in s'.orders && Carries(s'.orders[id], d, chainId)
      && IsAt(s', id, if isDeposit then Deposit(MintOrderSigned(d.srcToken, d.amount, s'.orders[id]))
                      else Withdrawal(RefundMintOrderSigned(d.srcToken, d.amount, s'.orders[id])),
              if IsPaid(d) then Some(PrepareSigned) else None)
  {
    var start, o := PrepareStartAction(id, chainId), OrderFor(d, chainId);
    var s1 := s.(tasks := s.tasks[id := PrepareSigning(o, isDeposit)]);
    assert Next(s, start) == Some(s1);
    NextKeeps(s, start);
    SigningEnds(s1, id, o, isDeposit);
    Steps2(s, start, s1, PrepareSignAction(id), PrepareSign(s1, id).value);
  }

  function HandingOver(id: nat): seq<Action> {
    [PrepareFinishAction(id), SendStartAction(id)]
  }

  lemma FinishesPreparing(s: State, id: nat)
    requires HasTask(s, id, PrepareSigned)
    ensures Next(s, PrepareFinishAction(id)) == Some(s.(tasks := s.tasks[id := SendIdle]))
  {
  }

  lemma SendStarts(s: State, id: nat, t: Id256, a: U256, o: MintOrder)
    requires IsAt(s, id, Deposit(MintOrderSigned(t, a, o)), Some(SendIdle))
    ensures Next(s, SendStartAction(id)) == Some(s.(tasks := s.tasks[id := Task.Sending(o, a, t, true)]))
  {
    StatusIsFound(s, id, Deposit(MintOrderSigned(t, a, o)));
  }

  lemma HandsOver(s: State, id: nat, t: Id256, a: U256, o: MintOrder)
    requires IsAt(s, id, Deposit(MintOrderSigned(t, a, o)), Some(PrepareSigned))
    ensures var s' := Execution(s, HandingOver(id));
      s' == s.(tasks := s.tasks[id := Task.Sending(o, a, t, true)])
  {
    var s1 := s.(tasks := s.tasks[id := SendIdle]);
    var s2 := s1.(tasks := s1.tasks[id := Task.Sending(o, a, t, true)]);
    FinishesPreparing(s, id);
    SendStarts(s1, id, t, a, o);
    assert s2 == s.(tasks := s.tasks[id := Task.Sending(o, a, t, true)]);
    Steps2(s, PrepareFinishAction(id), s1, SendStartAction(id), s2);
  }

  function Sending(id: nat, txId: U256): seq<Action> {
    HandingOver(id) + [SendFinishAction(id, txId)]
  }

  lemma SendingEnds(s: State, id: nat, t: Id256, a: U256, o: MintOrder, txId: U256)
    requires Sound(s) && HasTask(s, id, Task.Sending(o, a, t, true))
    ensures var s' := SendFinish(s, id, txId);
      && s'.Some? && SameElsewhere(s, s'.value) && s'.value.custody == s.custody && s'.value.orders == s.orders
      && id in s'.value.sent && IsAt(s'.value, id, Deposit(MintOrderSent(t, a, o, txId)), None)
  {
    TaskIsLive(s, id);
    StatusIsSet(s, id, Deposit(MintOrderSent(t, a, o, txId)));
  }

  /** A signed order with a fee payer is sent, exactly as it was signed. */
  lemma PaidOrderIsSent(s: State, id: nat, t: Id256, a: U256, o: MintOrder, txId: U256)
    requires Inv(s) && IsAt(s, id, Deposit(MintOrderSigned(t, a, o)), Some(PrepareSigned))
    ensures var s' := Execution(s, Sending(id, txId));
      && SameElsewhere(s, s') && s'.custody == s.custody && s'.orders == s.orders
      && id in s'.sent && IsAt(s', id, Deposit(MintOrderSent(t, a, o, txId)), None)
  {
    HandsOver(s, id, t, a, o);
    EveryStateSound(s, HandingOver(id));
    var s1 := Execution(s, HandingOver(id));
    SendingEnds(s1, id, t, a, o, txId);
    FinishesSending(s1, id, txId);
    OneMore(s, HandingOver(id), SendFinishAction(id, txId), SendFinish(s1, id, txId).value);
  }

  /** From the scheduled request to the sent order. */
  function DepositRun(id: nat, meta: TokenMetadata, first: Icrc2.Pull, refresh: Option<Icrc2.Error>, second: Icrc2.Pull,
                      chainId: U32, txId: U256): seq<Action>
  {
    Taking(id, meta, first, refresh, second) + [BurnFinishAction(id)] + Signing(id, chainId) + Sending(id, txId)
  }

  /** A deposit whose order names a fee payer gets its order signed and sent, for what was asked and taken. */
  lemma DepositIsSent(s: State, id: nat, r: Icrc2Burn, meta: TokenMetadata, first: Icrc2.Pull,
                      refresh: Option<Icrc2.Error>, second: Icrc2.Pull, chainId: U32, txId: U256)
    requires Inv(s) && IsAt(s, id, Deposit(DepositScheduled(r)), Some(BurnIdle)) && IsPaid(Taken(id, r, meta))
    requires Icrc2.TakesInTime(Get(s.custody, r.token), SourceOf(s.canister, r), r.amount, first, refresh, second)
    ensures var s' := Execution(s, DepositRun(id, meta, first, refresh, second, chainId, txId));
      && SameElsewhere(s, s') && id in s'.orders && Carries(s'.orders[id], Taken(id, r, meta), chainId)
      && IsAt(s', id, Deposit(MintOrderSent(r.token, r.amount, s'.orders[id], txId)), None)
  {
    var d := Taken(id, r, meta);
    var taking := Taking(id, meta, first, refresh, second) + [BurnFinishAction(id)];
    DepositIsTaken(s, id, r, meta, first, refresh, second);
    var s1 := Execution(s, taking);
    EveryStateSound(s, taking);
    OrderIsSigned(s1, id, d, true, chainId);
    ExecutionSplit(s, taking, Signing(id, chainId));
    var s2 := Execution(s1, Signing(id, chainId));
    EveryStateSound(s1, Signing(id, chainId));
    PaidOrderIsSent(s2, id, d.srcToken, d.amount, s2.orders[id], txId);
    ExecutionSplit(s, taking + Signing(id, chainId), Sending(id, txId));
  }

  // ---- The order is minted, and the event comes back ----

  /** The operation of a sent order is the oldest of its wallet with its nonce. */
  lemma SentIsOldest(s: State, id: nat, o: MintOrder, txId: U256)
    requires Faithful(s) && Addressed(s) && NoncesUnique(s.history) && o.nonce == Nonce(id)
    requires HasStatus(s, id, Deposit(MintOrderSent(o.srcToken, o.amount, o, txId)))
    ensures IsOldest(s, o.recipient, o.nonce, id)
  {
    StatusInHistory(s, id);
    UniqueIsAtMostOne(s.history, o.recipient, o.nonce);
  }

  function Completing(caller: Address, id: nat, feeOk: bool, k: nat): seq<Action> {
    [MintAction(caller, id, feeOk), CollectAction(k)]
  }

  lemma CollectsMinted(s: State, k: nat)
    requires k < |s.bridge.events| && s.bridge.events[k].Minted?
    ensures CollectEvent(s, k) == Some(s.(collected := s.collected + {k}))
  {
  }

  lemma MintLogs(s: State, s1: State, caller: Address, id: nat, feeOk: bool)
    requires Inv(s) && MintOnChain(s, caller, id, feeOk) == Some(s1)
    ensures s1.bridge.events == s.bridge.events + [MintedEvent(s.bridge, s.orders[id])]
    ensures Target(s.bridge, s.orders[id]) in s.bridge.tokens
  {
    AcceptedOrder(s, caller, id, feeOk);
  }

  lemma MintCredits(b: BridgeState, b': BridgeState, caller: Address, o: MintOrder, feeOk: bool)
    requires TokensBalanced(b) && Target(b, o) in b.tokens
    requires MintDecoded(b, caller, o, b.minter, true, feeOk) == Some(b')
    ensures BalanceOf(b', Target(b, o), o.recipient) == BalanceOf(b, Target(b, o), o.recipient) + o.amount
  {
    MintEffect(b, caller, o, b.minter, true, feeOk);
  }

  /** A mint logs its event, and credits the recipient in the order's token. */
  lemma MintLogsAndCredits(s: State, s1: State, caller: Address, id: nat, feeOk: bool)
    requires Inv(s) && MintOnChain(s, caller, id, feeOk) == Some(s1)
    ensures s1.bridge.events == s.bridge.events + [MintedEvent(s.bridge, s.orders[id])]
    ensures var o := s.orders[id]; var w := Target(s.bridge, o);
      w in s.bridge.tokens && BalanceOf(s1.bridge, w, o.recipient) == BalanceOf(s.bridge, w, o.recipient) + o.amount
  {
    MintLogs(s, s1, caller, id, feeOk);
    SuppliesBalanced(s.bridge);
    MintCredits(s.bridge, s1.bridge, caller, s.orders[id], feeOk);
  }

  lemma MintsOnChain(s: State, caller: Address, id: nat, feeOk: bool)
    ensures Next(s, MintAction(caller, id, feeOk)) == MintOnChain(s, caller, id, feeOk)
  {
  }

  lemma Collects(s: State, k: nat)
    ensures Next(s, CollectAction(k)) == CollectEvent(s, k)
  {
  }

  /** After a mint the new event is collected; the operation is as it was. */
  lemma MintIsCollected(s: State, s1: State, caller: Address, id: nat, feeOk: bool, k: nat)
    requires MintOnChain(s, caller, id, feeOk) == Some(s1) && k < |s1.bridge.events| && s1.bridge.events[k].Minted?
    ensures Execution(s, Completing(caller, id, feeOk, k)) == s1.(collected := s1.collected + {k})
  {
    CollectsMinted(s1, k);
    MintsOnChain(s, caller, id, feeOk);
    Collects(s1, k);
    Steps2(s, MintAction(caller, id, feeOk), s1, CollectAction(k), s1.(collected := s1.collected + {k}));
  }

  /** The mint event of a sent order completes its operation. */
  lemma EventCompletes(s: State, k: nat, id: nat, o: MintOrder, txId: U256)
    requires Explained(s) && NoncesUnique(s.history) && o.nonce == Nonce(id)
    requires HasStatus(s, id, Deposit(MintOrderSent(o.srcToken, o.amount, o, txId)))
    requires k in s.collected && k < |s.bridge.events| && s.bridge.events[k].Minted?
    requires EventIsOrder(s.bridge.events[k].minted, o)
    ensures var s' := RemoveMintOrder(s, k);
      && s'.Some? && s'.value.minted == s.minted && s'.value.bridge == s.bridge && id < |s'.value.history|
      && s'.value.history[id].payload == Deposit(DepositMinted(o.srcToken, o.amount, txId))
  {
    SentIsOldest(s, id, o, txId);
    OlderIsCompleted(s, k, id, o.amount, o, txId);
    StatusInHistory(s, id);
  }

  lemma OrderHasNonce(s: State, id: nat)
    requires Sound(s) && id in s.orders
    ensures s.orders[id].nonce == Nonce(id)
  {
    assert Coherent(ViewOf(s, id), id);
  }

  lemma RemovesOrder(s: State, k: nat)
    ensures Next(s, RemoveOrderAction(k)) == RemoveMintOrder(s, k)
  {
  }

  /** A sent order that the contract accepts completes its operation, for the amount and token of the order. */
  lemma SentIsCompleted(s: State, caller: Address, id: nat, feeOk: bool, o: MintOrder, txId: U256)
    requires Explained(s) && NoncesUnique(s.history) && id in s.orders && s.orders[id] == o
    requires HasStatus(s, id, Deposit(MintOrderSent(o.srcToken, o.amount, o, txId)))
    requires MintOnChain(s, caller, id, feeOk).Some?
    ensures var k := |s.bridge.events|;
            var s' := Execution(s, Completing(caller, id, feeOk, k) + [RemoveOrderAction(k)]);
      && id in s'.minted && id < |s'.history|
      && s'.history[id].payload == Deposit(DepositMinted(o.srcToken, o.amount, txId))
      && var w := Target(s.bridge, o);
         w in s.bridge.tokens && BalanceOf(s'.bridge, w, o.recipient) == BalanceOf(s.bridge, w, o.recipient) + o.amount
  {
    var k := |s.bridge.events|;
    var run := Completing(caller, id, feeOk, k);
    OrderHasNonce(s, id);
    var s1 := MintOnChain(s, caller, id, feeOk).value;
    MintLogsAndCredits(s, s1, caller, id, feeOk);
    MintIsCollected(s, s1, caller, id, feeOk, k);
    EveryRunAdvances(s, run, false);
    var s2 := Execution(s, run);
    EventCompletes(s2, k, id, o, txId);
    RemovesOrder(s2, k);
    OneMore(s, run, RemoveOrderAction(k), RemoveMintOrder(s2, k).value);
  }

  /** The contract accepts an order that carries a deposit, if it knows the token and has room for the amount. */
  lemma OrderIsAccepted(s: State, id: nat, d: BurntIcrc2Data, chainId: U32)
    requires BridgeInv(s.bridge) && id in s.orders && Carries(s.orders[id], d, chainId)
    requires HasRoom(s.bridge, d, chainId)
    ensures MintOnChain(s, s.bridge.minter, id, true).Some?
  {
    SuppliesBalanced(s.bridge);
    MintAcceptedExactly(s.bridge, s.bridge.minter, s.orders[id], s.bridge.minter, true, true);
  }

  predicate HasRoom(b: BridgeState, d: BurntIcrc2Data, chainId: U32) {
    && !b.paused && b.self != ZERO_ADDRESS && chainId == b.chainId
    && d.recipient != ZERO_ADDRESS && d.amount > 0 && (d.sender, d.operationId) !in b.usedNonces
    && d.srcToken in b.erc20Registry && b.erc20Registry[d.srcToken] in b.tokens
    && b.tokens[b.erc20Registry[d.srcToken]].supply + d.amount <= MAX_U256
  }

  /**
   A deposit whose order names a fee payer completes: if the ledger gives the tokens, and the contract knows the token
   and has room, the wallet gets the amount in the wrapped token, and the operation ends as minted.
   */
  lemma DepositCompletes(s: State, id: nat, r: Icrc2Burn, meta: TokenMetadata, first: Icrc2.Pull,
                         refresh: Option<Icrc2.Error>, second: Icrc2.Pull, chainId: U32, txId: U256)
    requires Explained(s) && NoncesUnique(s.history)
    requires IsAt(s, id, Deposit(DepositScheduled(r)), Some(BurnIdle)) && IsPaid(Taken(id, r, meta))
    requires Icrc2.TakesInTime(Get(s.custody, r.token), SourceOf(s.canister, r), r.amount, first, refresh, second)
    requires HasRoom(s.bridge, Taken(id, r, meta), chainId)
    ensures var k, w := |s.bridge.events|, s.bridge.erc20Registry[r.token];
            var run := DepositRun(id, meta, first, refresh, second, chainId, txId)
              + (Completing(s.bridge.minter, id, true, k) + [RemoveOrderAction(k)]);
            var s' := Execution(s, run);
      && id in s'.minted && id < |s'.history|
      && s'.history[id].payload == Deposit(DepositMinted(r.token, r.amount, txId))
      && BalanceOf(s'.bridge, w, r.recipient) == BalanceOf(s.bridge, w, r.recipient) + r.amount
  {
    var run, k := DepositRun(id, meta, first, refresh, second, chainId, txId), |s.bridge.events|;
    DepositIsSent(s, id, r, meta, first, refresh, second, chainId, txId);
    EveryRunAdvances(s, run, false);
    var s1 := Execution(s, run);
    OrderIsAccepted(s1, id, Taken(id, r, meta), chainId);
    AcceptedOrder(s1, s.bridge.minter, id, true);
    SameUnique(s.history, s1.history);
    SentIsCompleted(s1, s.bridge.minter, id, true, s1.orders[id], txId);
    ExecutionSplit(s, run, Completing(s.bridge.minter, id, true, k) + [RemoveOrderAction(k)]);
  }

  lemma SameUnique(h: History<OperationState>, h': History<OperationState>)
    requires NoncesUnique(h) && SameOwners(h, h')
    ensures NoncesUnique(h')
  {
  }

  // ---- A withdrawal ----

  /** The refund of a burn to the burner, with the operation's nonce, no fee payer and no approval. */
  function ToRefund(id: nat, e: BurntEventData): BurntIcrc2Data {
    BurntIcrc2Data(sender := e.recipientId, amount := e.amount, srcToken := e.toToken, recipient := e.sender,
                   operationId := Nonce(id), meta := e.meta, feePayer := None, approveAfterMint := None)
  }

  function Paying(id: nat, first: Icrc2.Round, refresh: Option<Icrc2.Error>, second: Icrc2.Round): seq<Action> {
    [PayStartAction(id), PayLedgerAction(id, first, refresh, second)]
  }

  function PayingOut(id: nat, first: Icrc2.Round, refresh: Option<Icrc2.Error>, second: Icrc2.Round, tx: nat)
    : seq<Action>
  {
    Paying(id, first, refresh, second) + [PayFinishAction(id, tx)]
  }

  lemma PaymentEnds(s: State, id: nat, e: BurntEventData, received: nat, tx: nat)
    requires Sound(s) && Faithful(s) && HasTask(s, id, PayDone(e, received))
    ensures var s' := PayFinish(s, id, tx);
      && s'.Some? && SameElsewhere(s, s'.value) && s'.value.custody == s.custody && id !in s'.value.tasks
      && id < |s'.value.history|
      && s'.value.history[id].payload == Withdrawal(Transferred(e.toToken, e.recipientId, received, tx))
  {
    TaskIsLive(s, id);
    StatusInHistory(s, id);
  }

  lemma PayStarts(s: State, id: nat, e: BurntEventData)
    requires IsAt(s, id, Withdrawal(WithdrawalScheduled(e)), Some(PayIdle))
    ensures Next(s, PayStartAction(id)) == Some(s.(tasks := s.tasks[id := PayAwaiting(e)]))
  {
    StatusIsFound(s, id, Withdrawal(WithdrawalScheduled(e)));
  }

  lemma PaysByLedger(s: State, id: nat, first: Icrc2.Round, refresh: Option<Icrc2.Error>, second: Icrc2.Round)
    requires id in s.tasks && s.tasks[id].PayAwaiting?
    ensures Next(s, PayLedgerAction(id, first, refresh, second)) == PayLedger(s, id, first, refresh, second)
    ensures PayLedger(s, id, first, refresh, second).Some?
  {
  }

  lemma PayingStarts(s: State, id: nat, e: BurntEventData, first: Icrc2.Round, refresh: Option<Icrc2.Error>,
                     second: Icrc2.Round)
    requires IsAt(s, id, Withdrawal(WithdrawalScheduled(e)), Some(PayIdle))
    ensures var s1 := s.(tasks := s.tasks[id := PayAwaiting(e)]);
      && PayLedger(s1, id, first, refresh, second).Some?
      && Execution(s, Paying(id, first, refresh, second)) == PayLedger(s1, id, first, refresh, second).value
  {
    var s1 := s.(tasks := s.tasks[id := PayAwaiting(e)]);
    PayStarts(s, id, e);
    PaysByLedger(s1, id, first, refresh, second);
    Steps2(s, PayStartAction(id), s1, PayLedgerAction(id, first, refresh, second),
           PayLedger(s1, id, first, refresh, second).value);
  }

  /** The ledger has paid, and the status is yet to be set. */
  ghost predicate IsPaying(s: State, s': State, id: nat, e: BurntEventData, received: nat) {
    && SameElsewhere(s, s') && SameRecords(s, s') && HasTask(s', id, PayDone(e, received))
    && (e.recipientId != s.canister ==> Get(s'.custody, e.toToken) + e.amount == Get(s.custody, e.toToken))
  }

  /** The ledger pays in time, and the receiver gets the amount less the fee of the round that paid. */
  lemma PayingSucceeds(s: State, id: nat, e: BurntEventData, first: Icrc2.Round, refresh: Option<Icrc2.Error>,
                       second: Icrc2.Round)
    requires IsAt(s, id, Withdrawal(WithdrawalScheduled(e)), Some(PayIdle))
    requires Icrc2.PaysInTime(Get(s.custody, e.toToken), e.amount, first, refresh, second)
    ensures FeePaid(s, e, first, second) <= e.amount
    ensures var s' := Execution(s, Paying(id, first, refresh, second));
      IsPaying(s, s', id, e, e.amount - FeePaid(s, e, first, second))
  {
    PayingStarts(s, id, e, first, refresh, second);
    PayoutSucceeds(s.(tasks := s.tasks[id := PayAwaiting(e)]), id, e, first, refresh, second);
  }

  lemma PayingFails(s: State, id: nat, e: BurntEventData, first: Icrc2.Round, refresh: Option<Icrc2.Error>,
                    second: Icrc2.Round, error: Icrc2.Error)
    requires IsAt(s, id, Withdrawal(WithdrawalScheduled(e)), Some(PayIdle))
    requires IsRefused(s, e, first, refresh, second, error) && error !in PassingErrors()
    ensures Execution(s, Paying(id, first, refresh, second)) == s.(tasks := s.tasks[id := PayFailed(e)])
  {
    var s1 := s.(tasks := s.tasks[id := PayAwaiting(e)]);
    PayingStarts(s, id, e, first, refresh, second);
    PayoutFails(s1, id, e, first, refresh, second, error);
    assert s1.tasks[id := PayFailed(e)] == s.tasks[id := PayFailed(e)];
  }

  /** The last step, as a step. */
  lemma FinishesPaying(s: State, id: nat, tx: nat)
    ensures Next(s, PayFinishAction(id, tx)) == PayFinish(s, id, tx)
  {
  }

  /** What a paid withdrawal leaves behind. */
  ghost predicate IsPaidOut(s: State, s': State, id: nat, e: BurntEventData, received: nat, tx: nat) {
    && SameElsewhere(s, s') && id !in s'.tasks && id < |s'.history|
    && s'.history[id].payload == Withdrawal(Transferred(e.toToken, e.recipientId, received, tx))
    && (e.recipientId != s.canister ==> Get(s'.custody, e.toToken) + e.amount == Get(s.custody, e.toToken))
  }

  lemma PaymentCompletes(s: State, s2: State, id: nat, e: BurntEventData, received: nat, tx: nat)
    requires Faithful(s) && Sound(s2) && IsPaying(s, s2, id, e, received)
    ensures PayFinish(s2, id, tx).Some? && IsPaidOut(s, PayFinish(s2, id, tx).value, id, e, received, tx)
  {
    FaithfulStays(s, s2);
    PaymentEnds(s2, id, e, received, tx);
  }

  lemma PaidRunEnds(s: State, run: seq<Action>, id: nat, e: BurntEventData, received: nat, tx: nat)
    requires Inv(s) && Faithful(s) && IsPaying(s, Execution(s, run), id, e, received)
    ensures IsPaidOut(s, Execution(s, run + [PayFinishAction(id, tx)]), id, e, received, tx)
  {
    EveryStateSound(s, run);
    var s2 := Execution(s, run);
    PaymentCompletes(s, s2, id, e, received, tx);
    FinishesPaying(s2, id, tx);
    OneMore(s, run, PayFinishAction(id, tx), PayFinish(s2, id, tx).value);
  }

  /** A withdrawal that the ledger has paid is complete, and custody has paid exactly the burnt amount. */
  lemma WithdrawalIsPaid(s: State, id: nat, e: BurntEventData, first: Icrc2.Round, refresh: Option<Icrc2.Error>,
                         second: Icrc2.Round, received: nat, tx: nat)
    requires Inv(s) && Faithful(s)
    requires IsPaying(s, Execution(s, Paying(id, first, refresh, second)), id, e, received)
    ensures IsPaidOut(s, Execution(s, PayingOut(id, first, refresh, second, tx)), id, e, received, tx)
  {
    PaidRunEnds(s, Paying(id, first, refresh, second), id, e, received, tx);
  }

  lemma RefundIsDue(s: State, id: nat, e: BurntEventData, tx: nat)
    requires Sound(s) && HasTask(s, id, PayFailed(e))
    ensures var s' := PayFinish(s, id, tx);
      && s'.Some? && SameElsewhere(s, s'.value) && s'.value.custody == s.custody
      && IsAt(s'.value, id, Withdrawal(RefundScheduled(ToRefund(id, e))), Some(PrepareIdle))
  {
    TaskIsLive(s, id);
    StatusIsSet(s, id, Withdrawal(RefundScheduled(RefundData(id, e))));
  }

  /** A payout that fails for good leads to a refund of the burn. */
  lemma WithdrawalIsRefunded(s: State, id: nat, e: BurntEventData, first: Icrc2.Round, refresh: Option<Icrc2.Error>,
                             second: Icrc2.Round, error: Icrc2.Error, tx: nat)
    requires Inv(s) && IsAt(s, id, Withdrawal(WithdrawalScheduled(e)), Some(PayIdle))
    requires IsRefused(s, e, first, refresh, second, error)
    requires error !in PassingErrors()
    ensures var s' := Execution(s, PayingOut(id, first, refresh, second, tx));
      && SameElsewhere(s, s') && s'.custody == s.custody
      && IsAt(s', id, Withdrawal(RefundScheduled(ToRefund(id, e))), Some(PrepareIdle))
  {
    var run := Paying(id, first, refresh, second);
    PayingFails(s, id, e, first, refresh, second, error);
    EveryStateSound(s, run);
    var s2 := Execution(s, run);
    RefundIsDue(s2, id, e, tx);
    FinishesPaying(s2, id, tx);
    OneMore(s, run, PayFinishAction(id, tx), PayFinish(s2, id, tx).value);
  }

  /** And the burner can then fetch an order for what he burnt. */
  lemma RefundIsSigned(s: State, id: nat, e: BurntEventData, first: Icrc2.Round, refresh: Option<Icrc2.Error>,
                       second: Icrc2.Round, error: Icrc2.Error, tx: nat, chainId: U32)
    requires Inv(s) && IsAt(s, id, Withdrawal(WithdrawalScheduled(e)), Some(PayIdle))
    requires IsRefused(s, e, first, refresh, second, error) && error !in PassingErrors()
    ensures var s' := Execution(s, PayingOut(id, first, refresh, second, tx) + Signing(id, chainId));
      && SameElsewhere(s, s') && id in s'.orders && Carries(s'.orders[id], ToRefund(id, e), chainId)
      && IsAt(s', id, Withdrawal(RefundMintOrderSigned(e.toToken, e.amount, s'.orders[id])), None)
  {
    var run := PayingOut(id, first, refresh, second, tx);
    WithdrawalIsRefunded(s, id, e, first, refresh, second, error, tx);
    EveryStateSound(s, run);
    OrderIsSigned(Execution(s, run), id, ToRefund(id, e), false, chainId);
    ExecutionSplit(s, run, Signing(id, chainId));
  }

  /** A payout that fails for the moment leaves the withdrawal as it was, to be tried again. */
  lemma WithdrawalWaits(s: State, id: nat, e: BurntEventData, first: Icrc2.Round, refresh: Option<Icrc2.Error>,
                        second: Icrc2.Round, error: Icrc2.Error)
    requires IsAt(s, id, Withdrawal(WithdrawalScheduled(e)), Some(PayIdle))
    requires IsRefused(s, e, first, refresh, second, error)
    requires error in PassingErrors()
    ensures Execution(s, Paying(id, first, refresh, second)) == s
  {
    var s1 := s.(tasks := s.tasks[id := PayAwaiting(e)]);
    PayingStarts(s, id, e, first, refresh, second);
    PayoutFails(s1, id, e, first, refresh, second, error);
    assert s1.tasks[id := PayIdle] == s.tasks;
  }
}
