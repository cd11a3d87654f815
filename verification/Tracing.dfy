/** Every signed mint order is the order for one logged event, over every run of the bridge. */
module Tracing {
  import opened Words
  import opened Sums
  import opened MintOrders
  import opened Events
  import opened Operations
  import opened OperationStores
  import opened BftBridges
  import opened Protocol
  import opened Backing
  import opened Provenance

  /** Event `e` is a notification that asks for `r`, with the approval kept only for the sender's own wallet. */
  predicate IsRequest(e: BridgeEvent, r: Icrc2Burn) {
    e.Notify? && e.userData.Some? && Vetted(e.txSender, e.userData.value) == r
  }

  ghost predicate Requested(events: seq<BridgeEvent>, r: Icrc2Burn) {
    exists k :: 0 <= k < |events| && IsRequest(events[k], r)
  }

  ghost predicate IsDepositData(events: seq<BridgeEvent>, id: nat, d: BurntIcrc2Data, r: Icrc2Burn) {
    Requested(events, r) && d == BurntData(id, r, d.meta)
  }

  ghost predicate IsRefundData(events: seq<BridgeEvent>, id: nat, d: BurntIcrc2Data, e: BurntEventData) {
    Burnt(e) in events && d == RefundData(id, e)
  }

  ghost predicate IsDepositOrder(events: seq<BridgeEvent>, id: nat, o: MintOrder, r: Icrc2Burn, meta: TokenMetadata) {
    Requested(events, r) && o == OrderFor(BurntData(id, r, meta), o.recipientChainId)
  }

  ghost predicate IsRefundOrder(events: seq<BridgeEvent>, id: nat, o: MintOrder, e: BurntEventData) {
    Burnt(e) in events && o == OrderFor(RefundData(id, e), o.recipientChainId)
  }

  ghost predicate OrderTraced(events: seq<BridgeEvent>, id: nat, o: MintOrder) {
    || (exists r, meta :: IsDepositOrder(events, id, o, r, meta))
    || (exists e :: IsRefundOrder(events, id, o, e))
  }

  ghost predicate StatusTraced(events: seq<BridgeEvent>, id: nat, p: OperationState) {
    match p
    case Deposit(DepositScheduled(r)) => Requested(events, r)
    case Deposit(Icrc2Burned(d)) => exists r :: IsDepositData(events, id, d, r)
    case Withdrawal(WithdrawalScheduled(e)) => Burnt(e) in events
    case Withdrawal(RefundScheduled(d)) => exists e :: IsRefundData(events, id, d, e)
    case _ => true
  }

  ghost predicate Traced(v: View, id: nat, events: seq<BridgeEvent>) {
    && (v.status.Some? ==> StatusTraced(events, id, v.status.value))
    && (v.order.Some? ==> OrderTraced(events, id, v.order.value))
  }

  ghost predicate AllTraced(s: State) {
    forall id: nat :: Traced(ViewOf(s, id), id, s.bridge.events)
  }

  // ---- Traces survive later events ----

  lemma RequestStays(events: seq<BridgeEvent>, events': seq<BridgeEvent>, r: Icrc2Burn)
    requires events <= events' && Requested(events, r)
    ensures Requested(events', r)
  {
    var k :| 0 <= k < |events| && IsRequest(events[k], r);
    assert IsRequest(events'[k], r);
  }

  lemma OrderTraceStays(events: seq<BridgeEvent>, events': seq<BridgeEvent>, id: nat, o: MintOrder)
    requires events <= events' && OrderTraced(events, id, o)
    ensures OrderTraced(events', id, o)
  {
    if r, meta :| IsDepositOrder(events, id, o, r, meta) {
      RequestStays(events, events', r);
      assert IsDepositOrder(events', id, o, r, meta);
    } else {
      var e :| IsRefundOrder(events, id, o, e);
      assert IsRefundOrder(events', id, o, e);
    }
  }

  lemma StatusTraceStays(events: seq<BridgeEvent>, events': seq<BridgeEvent>, id: nat, p: OperationState)
    requires events <= events' && StatusTraced(events, id, p)
    ensures StatusTraced(events', id, p)
  {
    match p
    case Deposit(DepositScheduled(r)) => RequestStays(events, events', r);
    case Deposit(Icrc2Burned(d)) =>
      var r :| IsDepositData(events, id, d, r);
      RequestStays(events, events', r);
      assert IsDepositData(events', id, d, r);
    case Withdrawal(RefundScheduled(d)) =>
      var e :| IsRefundData(events, id, d, e);
      assert IsRefundData(events', id, d, e);
    case _ =>
  }

  lemma QuietTraced(s: State, s': State)
    requires AllTraced(s) && s'.store == s.store && s'.orders == s.orders && s.bridge.events <= s'.bridge.events
    ensures AllTraced(s')
  {
    forall id: nat ensures Traced(ViewOf(s', id), id, s'.bridge.events) {
      var v := ViewOf(s, id);
      assert Traced(v, id, s.bridge.events);
      if v.status.Some? {
        StatusTraceStays(s.bridge.events, s'.bridge.events, id, v.status.value);
      }
      if v.order.Some? {
        OrderTraceStays(s.bridge.events, s'.bridge.events, id, v.order.value);
      }
    }
  }

  // ---- Steps that change a status or sign an order ----

  lemma OneTraced(s: State, s': State, id: nat)
    requires AllTraced(s) && s'.bridge == s.bridge
    requires forall i: nat :: i != id ==>
      ViewOf(s', i).status == ViewOf(s, i).status && ViewOf(s', i).order == ViewOf(s, i).order
    requires Traced(ViewOf(s', id), id, s.bridge.events)
    ensures AllTraced(s')
  {
    forall i: nat ensures Traced(ViewOf(s', i), i, s'.bridge.events) {
      assert Traced(ViewOf(s, i), i, s.bridge.events);
    }
  }

  /** A step that sets the status of `id` to `p`, and leaves its order alone. */
  lemma StatusStepTraced(s: State, s': State, id: nat, p: OperationState)
    requires Sound(s) && AllTraced(s) && id in s.store.incomplete && !IsRefundMinted(p)
    requires s'.store == SetStatus(s, id, p).store && s'.orders == s.orders && s'.bridge == s.bridge
    requires StatusTraced(s.bridge.events, id, p)
    ensures AllTraced(s')
  {
    StatusEffect(s, id, p);
    var marked := SetStatus(s, id, p);
    assert forall i: nat ::
      ViewOf(s', i).status == ViewOf(marked, i).status && ViewOf(s', i).order == ViewOf(marked, i).order;
    assert Traced(ViewOf(s, id), id, s.bridge.events);
    OneTraced(s, s', id);
  }

  lemma BurnFinishTraced(s: State, id: nat)
    requires Sound(s) && AllTraced(s) && BurnFinish(s, id).Some?
    ensures AllTraced(BurnFinish(s, id).value)
  {
    TaskIsLive(s, id);
    var r := s.tasks[id].request;
    var d := BurntData(id, r, s.tasks[id].meta);
    assert Traced(ViewOf(s, id), id, s.bridge.events);
    assert IsDepositData(s.bridge.events, id, d, r);
    StatusStepTraced(s, BurnFinish(s, id).value, id, Deposit(Icrc2Burned(d)));
  }

  lemma SendFinishTraced(s: State, id: nat, txId: U256)
    requires Sound(s) && AllTraced(s) && SendFinish(s, id, txId).Some?
    ensures AllTraced(SendFinish(s, id, txId).value)
  {
    TaskIsLive(s, id);
    StatusStepTraced(s, SendFinish(s, id, txId).value, id, SentStatus(s.tasks[id], txId));
  }

  lemma PayFinishTraced(s: State, id: nat, ledgerTx: nat)
    requires Sound(s) && AllTraced(s) && PayFinish(s, id, ledgerTx).Some?
    ensures AllTraced(PayFinish(s, id, ledgerTx).value)
  {
    TaskIsLive(s, id);
    var e := s.tasks[id].event;
    assert Traced(ViewOf(s, id), id, s.bridge.events);
    assert s.tasks[id].PayFailed? ==> IsRefundData(s.bridge.events, id, RefundData(id, e), e);
    StatusStepTraced(s, PayFinish(s, id, ledgerTx).value, id, PaidStatus(s.tasks[id], id, ledgerTx));
  }

  lemma RemoveMintOrderTraced(s: State, k: nat)
    requires Sound(s) && AllTraced(s) && RemoveMintOrder(s, k).Some?
    ensures AllTraced(RemoveMintOrder(s, k).value)
  {
    RemovedOrderIsSent(s, k);
    var e := s.bridge.events[k].minted;
    var (id, p) := FindNonce(GetForAddress(s.store, e.recipient), e.nonce).value;
    StatusStepTraced(s, RemoveMintOrder(s, k).value, id, Deposit(DepositMinted(e.fromToken, e.amount, p.deposit.txId)));
  }

  /** The order being signed is the order for the data of the operation's status. */
  lemma SigningTraced(v: View, id: nat, events: seq<BridgeEvent>)
    requires Coherent(v, id) && Traced(v, id, events) && v.task.Some? && v.task.value.PrepareSigning?
    ensures OrderTraced(events, id, v.task.value.order)
  {
    var o := v.task.value.order;
    match v.status
    case Some(Deposit(Icrc2Burned(d))) =>
      var r :| IsDepositData(events, id, d, r);
      assert IsDepositOrder(events, id, o, r, d.meta);
    case Some(Withdrawal(RefundScheduled(d))) =>
      var e :| IsRefundData(events, id, d, e);
      assert IsRefundOrder(events, id, o, e);
    case _ =>
  }

  lemma PrepareSignTraced(s: State, id: nat)
    requires Sound(s) && AllTraced(s) && PrepareSign(s, id).Some?
    ensures AllTraced(PrepareSign(s, id).value)
  {
    TaskIsLive(s, id);
    var o := s.tasks[id].order;
    assert Traced(ViewOf(s, id), id, s.bridge.events);
    SigningTraced(ViewOf(s, id), id, s.bridge.events);
    var p := SignedStatus(o, s.tasks[id].isDeposit);
    StatusEffect(s, id, p);
    SigningEffect(s, SetStatus(s, id, p), id, o, if o.feePayer != ZERO_ADDRESS then Some(PrepareSigned) else None);
    OneTraced(s, PrepareSign(s, id).value, id);
  }

  lemma NewTaskTraced(s: State, seen: State, dst: Address, payload: OperationState, task: Task)
    requires Sound(s) && AllTraced(s) && !IsComplete(payload) && StatusTraced(s.bridge.events, s.store.next, payload)
    requires seen.store == s.store && seen.tasks == s.tasks && seen.orders == s.orders && seen.bridge == s.bridge
    requires seen.minted == s.minted && seen.sent == s.sent
    ensures AllTraced(NewTask(seen, dst, payload, task))
  {
    assert forall i: nat :: ViewOf(seen, i) == ViewOf(s, i);
    NewTaskEffect(seen, dst, payload, task);
    OneTraced(s, NewTask(seen, dst, payload, task), s.store.next);
  }

  lemma BurntTraced(s: State, k: nat, e: BurntEventData)
    requires Sound(s) && AllTraced(s) && k < |s.bridge.events| && s.bridge.events[k] == Burnt(e)
    ensures AllTraced(CollectBurnt(s, k, e))
  {
    NewTaskTraced(s, Claimed(s, k, e), e.sender, Withdrawal(WithdrawalScheduled(e)), PayIdle);
  }

  lemma RequestTraced(s: State, k: nat, r: Icrc2Burn)
    requires Sound(s) && AllTraced(s) && k < |s.bridge.events| && IsRequest(s.bridge.events[k], r)
    ensures AllTraced(CollectRequest(s, k, r))
  {
    NewTaskTraced(s, s.(collected := s.collected + {k}), r.recipient, Deposit(DepositScheduled(r)), BurnIdle);
  }

  lemma CollectTraced(s: State, k: nat)
    requires Sound(s) && AllTraced(s) && CollectEvent(s, k).Some?
    ensures AllTraced(CollectEvent(s, k).value)
  {
    match s.bridge.events[k]
    case Burnt(e) => BurntTraced(s, k, e);
    case Notify(txSender, Some(request)) => RequestTraced(s, k, Vetted(txSender, request));
    case _ => QuietTraced(s, s.(collected := s.collected + {k}));
  }

  lemma StatusActionTraced(s: State, a: Action)
    requires Sound(s) && AllTraced(s) && IsStatusAction(a) && Next(s, a).Some?
    ensures AllTraced(Next(s, a).value)
  {
    match a
    case BurnFinishAction(id) => BurnFinishTraced(s, id);
    case PrepareSignAction(id) => PrepareSignTraced(s, id);
    case SendFinishAction(id, txId) => SendFinishTraced(s, id, txId);
    case PayFinishAction(id, tx) => PayFinishTraced(s, id, tx);
    case RemoveOrderAction(k) => RemoveMintOrderTraced(s, k);
    case CollectAction(k) => CollectTraced(s, k);
  }

  lemma NextTraced(s: State, s': State, a: Action)
    requires Sound(s) && AllTraced(s) && Next(s, a) == Some(s')
    ensures AllTraced(s')
  {
    if IsStatusAction(a) {
      StatusActionTraced(s, a);
    } else {
      QuietAction(s, a);
      OrdersGrow(s, a);
      EventsGrow(s, a);
      QuietTraced(s, s');
    }
  }

  lemma {:induction false} EveryRunTraced(s: State, run: seq<Action>)
    requires Inv(s) && AllTraced(s)
    ensures Inv(Execution(s, run)) && AllTraced(Execution(s, run))
    decreases |run|
  {
    if run != [] {
      EveryRunTraced(s, run[..|run| - 1]);
      var before := Execution(s, run[..|run| - 1]);
      if Next(before, run[|run| - 1]).Some? {
        NextKeeps(before, run[|run| - 1]);
        NextTraced(before, Next(before, run[|run| - 1]).value, run[|run| - 1]);
      }
    }
  }

  // ---- What follows for every reachable state ----

  ghost predicate IsGenesis(s: State) {
    exists self, minter, canister, chainId, maxLogSize ::
      self != ZERO_ADDRESS && s == Genesis(self, minter, canister, chainId, maxLogSize)
  }

  ghost predicate Reachable(s: State) {
    exists start, run :: IsGenesis(start) && s == Execution(start, run)
  }

  lemma GenesisTraced(s: State)
    requires IsGenesis(s)
    ensures Inv(s) && AllTraced(s)
  {
    var self, minter, canister, chainId, maxLogSize :|
      self != ZERO_ADDRESS && s == Genesis(self, minter, canister, chainId, maxLogSize);
    GenesisSound(self, minter, canister, chainId, maxLogSize);
  }

  lemma ReachableTraced(s: State)
    requires Reachable(s)
    ensures Inv(s) && AllTraced(s)
  {
    var start, run :| IsGenesis(start) && s == Execution(start, run);
    GenesisTraced(start);
    EveryRunTraced(start, run);
  }

  /** Every order ever signed is the order for a logged deposit notification, or the refund of a logged burn. */
  lemma EveryOrderIsTraced(s: State, id: nat)
    requires Reachable(s) && id in s.orders
    ensures OrderTraced(s.bridge.events, id, s.orders[id])
    ensures s.orders[id].nonce == Nonce(id) && s.orders[id].dstToken == ZERO_ADDRESS
  {
    ReachableTraced(s);
    assert Traced(ViewOf(s, id), id, s.bridge.events) && Coherent(ViewOf(s, id), id);
  }

  /** The order grants what a deposit notification asks for, field by field. */
  predicate Grants(o: MintOrder, e: BridgeEvent) {
    && e.Notify? && e.userData.Some?
    && var r := e.userData.value;
       && o.sender == r.sender && o.srcToken == r.token && o.amount == r.amount && o.recipient == r.recipient
       && (o.feePayer == if r.feePayer.Some? then r.feePayer.value else ZERO_ADDRESS)
       && if e.txSender == r.recipient && r.approveAfterMint.Some?
          then ApproveAfterMint(o.approveSpender, o.approveAmount) == r.approveAfterMint.value
          else o.approveSpender == ZERO_ADDRESS && o.approveAmount == 0
  }

  /** The order gives a burn back to the burner, with no fee payer and no approval. */
  predicate Refunds(o: MintOrder, e: BridgeEvent) {
    && e.Burnt?
    && o.sender == e.burnt.recipientId && o.srcToken == e.burnt.toToken && o.amount == e.burnt.amount
    && o.recipient == e.burnt.sender && TokenMetadata(o.name, o.symbol, o.decimals) == e.burnt.meta
    && o.feePayer == ZERO_ADDRESS && o.approveSpender == ZERO_ADDRESS && o.approveAmount == 0
  }

  predicate Explains(e: BridgeEvent, o: MintOrder) {
    Grants(o, e) || Refunds(o, e)
  }

  lemma OrderMatchesEvent(s: State, id: nat)
    requires Reachable(s) && id in s.orders
    ensures exists k :: 0 <= k < |s.bridge.events| && Explains(s.bridge.events[k], s.orders[id])
    ensures s.orders[id].nonce == Nonce(id) && s.orders[id].dstToken == ZERO_ADDRESS
    ensures s.orders[id].senderChainId == IC_CHAIN_ID
  {
    EveryOrderIsTraced(s, id);
    var events, o := s.bridge.events, s.orders[id];
    if r, meta :| IsDepositOrder(events, id, o, r, meta) {
      var k :| 0 <= k < |events| && IsRequest(events[k], r);
      assert Explains(events[k], o);
    } else {
      var e :| IsRefundOrder(events, id, o, e);
      var k :| 0 <= k < |events| && events[k] == Burnt(e);
      assert Explains(events[k], o);
    }
  }

  /** A signed order carries an approval only if the recipient's own wallet asked for exactly that approval. */
  lemma ApprovalsAreOwned(s: State, id: nat)
    requires Reachable(s) && id in s.orders
    requires s.orders[id].approveSpender != ZERO_ADDRESS || s.orders[id].approveAmount != 0
    ensures exists k :: 0 <= k < |s.bridge.events| && var e := s.bridge.events[k]; var o := s.orders[id];
      && e.Notify? && e.txSender == o.recipient && e.userData.Some? && e.userData.value.recipient == o.recipient
      && e.userData.value.approveAfterMint == Some(ApproveAfterMint(o.approveSpender, o.approveAmount))
      && e.userData.value.sender == o.sender && e.userData.value.token == o.srcToken
      && e.userData.value.amount == o.amount
  {
    EveryOrderIsTraced(s, id);
    var events, o := s.bridge.events, s.orders[id];
    var r, meta :| IsDepositOrder(events, id, o, r, meta);
    var k :| 0 <= k < |events| && IsRequest(events[k], r);
    assert events[k].txSender == o.recipient;
  }

  /**
   The canister itself only sends orders that name a fee payer, whether or not it learns that they arrived; so it
   never sends, or completes, a refund.
   */
  lemma OnlyPaidOrdersAreSent(s: State, id: nat)
    requires Reachable(s)
    ensures id in s.tasks && s.tasks[id].Sending? ==>
      && id in s.orders && s.tasks[id].order == s.orders[id] && s.tasks[id].isDeposit
      && s.orders[id].feePayer != ZERO_ADDRESS
    ensures id in s.sent ==> id in s.orders && s.orders[id].feePayer != ZERO_ADDRESS
    ensures StatusOf(s, id).Some? && StatusOf(s, id).value.Withdrawal? ==>
      !StatusOf(s, id).value.withdrawal.RefundMintOrderSent? && !StatusOf(s, id).value.withdrawal.RefundMinted?
  {
    ReachableTraced(s);
    assert Coherent(ViewOf(s, id), id);
  }

  /** What a user can fetch for an incomplete operation is the order that was signed for it, whenever there is one. */
  lemma SignedOrderIsOffered(s: State, id: nat, forToken: Option<Id256>)
    requires Reachable(s) && StatusOf(s, id).Some?
    ensures GetSignedMintOrder(StatusOf(s, id).value, forToken)
         == if id in s.orders && !IsComplete(StatusOf(s, id).value)
            then IfFor(forToken, s.orders[id].srcToken, s.orders[id]) else None
  {
    ReachableTraced(s);
    assert Coherent(ViewOf(s, id), id);
  }

  /** The wrapped token registered for a burnt token's base is the burnt token, if that was registered at all. */
  lemma RefundedToken(b: BridgeState, e: BurntEventData)
    requires RegistriesInverse(b) && PairsMatch(b) && Burnt(e) in b.events && e.toToken in b.erc20Registry
    ensures b.erc20Registry[e.toToken] == e.fromErc20 <==> e.fromErc20 in b.tokens
  {
    var k :| 0 <= k < |b.events| && b.events[k] == Burnt(e);
    assert e.toToken == BaseOf(b, e.fromErc20);
  }

  /** An accepted refund gives the burner the burnt amount, and in the burnt token exactly if the bridge deployed it. */
  lemma RefundPaysBurntToken(s: State, id: nat, e: BurntEventData, caller: Address, feeOk: bool)
    requires Reachable(s) && id in s.orders && IsRefundOrder(s.bridge.events, id, s.orders[id], e)
    requires MintOnChain(s, caller, id, feeOk).Some?
    ensures s.orders[id].recipient == e.sender && s.orders[id].amount == e.amount
    ensures Target(s.bridge, s.orders[id]) == e.fromErc20 <==> e.fromErc20 in s.bridge.tokens
  {
    var b, o := s.bridge, s.orders[id];
    assert RegistriesInverse(b) && PairsMatch(b) by {
      ReachableTraced(s);
    }
    assert o.srcToken in b.erc20Registry && Target(b, o) == b.erc20Registry[o.srcToken] by {
      ReachableTraced(s);
      AcceptedOrder(s, caller, id, feeOk);
    }
    RefundedToken(b, e);
  }
}
