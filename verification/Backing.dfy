/**
 Conservation over every run of the bridge: custody plus unbacked claims is exactly what the minter was
 given, plus the wrapped supply, plus everything the bridge still owes.
 */
module Backing {
  import opened Words
  import opened Sums
  import opened MintOrders
  import opened Events
  import opened Operations
  import opened OperationStores
  import opened WrappedTokens
  import opened BftBridges
  import opened Protocol
  import Icrc2

  // ---- One operation, seen from all sides ----

  /** `status` is None once the operation is complete (or if it does not exist). */
  datatype View = View(
    status: Option<OperationState>,
    task: Option<Task>,
    order: Option<MintOrder>,
    minted: bool,
    sent: bool)

  ghost function ViewOf(s: State, id: nat): View {
    View(
      if id in s.store.incomplete then Some(s.store.incomplete[id].payload) else None,
      if id in s.tasks then Some(s.tasks[id]) else None,
      if id in s.orders then Some(s.orders[id]) else None,
      id in s.minted,
      id in s.sent)
  }

  const NO_OPERATION: View := View(None, None, None, false, false)

  /** What the bridge owes in token `t` for an operation, apart from its signed order. */
  function OwedByStatus(v: View, t: Id256): nat {
    match v.status
    case Some(Deposit(DepositScheduled(r))) =>
      if v.task.Some? && v.task.value.BurnTaken? && r.token == t then r.amount else 0
    case Some(Deposit(Icrc2Burned(d))) => if d.srcToken == t then d.amount else 0
    case Some(Withdrawal(WithdrawalScheduled(e))) =>
      if e.toToken == t && !(v.task.Some? && v.task.value.PayDone?) then e.amount else 0
    case Some(Withdrawal(RefundScheduled(d))) => if d.srcToken == t then d.amount else 0
    case _ => 0
  }

  /** What is owed in all: also a signed order, until it is minted. */
  function Owed(v: View, t: Id256): nat {
    OwedByStatus(v, t)
    + if v.order.Some? && !v.minted && v.order.value.srcToken == t then v.order.value.amount else 0
  }

  /** Status, running task and signed order of an operation fit together. */
  ghost predicate Coherent(v: View, id: nat) {
    && (v.minted ==> v.order.Some?)
    && (v.sent ==> v.order.Some? && v.order.value.feePayer != ZERO_ADDRESS)
    && (v.order.Some? ==> v.order.value.nonce == Nonce(id) && v.order.value.dstToken == ZERO_ADDRESS)
    && match v.status
       case None => v.task == None
       case Some(Deposit(DepositScheduled(r))) =>
         && v.order == None
         && (v.task == None || v.task.value.BurnIdle?
             || ((v.task.value.BurnAwaiting? || v.task.value.BurnTaken?) && v.task.value.request == r))
       case Some(Deposit(Icrc2Burned(d))) =>
         && v.order == None && d.operationId == Nonce(id)
         && (v.task == None || v.task.value.PrepareIdle?
             || (v.task.value.PrepareSigning? && v.task.value.isDeposit
                 && v.task.value.order == OrderFor(d, v.task.value.order.recipientChainId)))
       case Some(Deposit(MintOrderSigned(t, a, o))) =>
         && v.order == Some(o) && o.srcToken == t && o.amount == a
         && (v.task == None || v.task.value.PrepareIdle?
             || ((v.task.value.PrepareSigned? || v.task.value.SendIdle?) && o.feePayer != ZERO_ADDRESS)
             || (v.task.value == Sending(o, a, t, true) && o.feePayer != ZERO_ADDRESS))
       case Some(Deposit(MintOrderSent(t, a, o, _))) =>
         && v.order == Some(o) && o.srcToken == t && o.amount == a && v.sent && v.task == None
       case Some(Withdrawal(WithdrawalScheduled(e))) =>
         && v.order == None
         && (v.task == None || v.task.value.PayIdle?
             || ((v.task.value.PayAwaiting? || v.task.value.PayFailed?) && v.task.value.event == e)
             || (v.task.value.PayDone? && v.task.value.event == e && 0 < v.task.value.received <= e.amount))
       case Some(Withdrawal(RefundScheduled(d))) =>
         && v.order == None && d.operationId == Nonce(id) && d.feePayer == None && d.approveAfterMint == None
         && (v.task == None || v.task.value.PrepareIdle?
             || (v.task.value.PrepareSigning? && !v.task.value.isDeposit
                 && v.task.value.order == OrderFor(d, v.task.value.order.recipientChainId)))
       case Some(Withdrawal(RefundMintOrderSigned(t, a, o))) =>
         && v.order == Some(o) && o.srcToken == t && o.amount == a
         && o.feePayer == ZERO_ADDRESS && o.approveSpender == ZERO_ADDRESS && v.task == None && !v.sent
       case _ => false
  }

  predicate IsRefundMinted(p: OperationState) {
    p.Withdrawal? && p.withdrawal.RefundMinted?
  }

  /** No completed operation is incomplete, and the refund of a failed withdrawal is never marked complete. */
  ghost predicate StoreCoherent(st: Store<OperationState>) {
    && (forall i: nat :: i in st.incomplete ==> i < st.next && !IsComplete(st.incomplete[i].payload))
    && (forall i: nat :: i in st.log ==>
          i < st.next && IsComplete(st.log[i].payload) && !IsRefundMinted(st.log[i].payload))
  }

  ghost predicate OperationsCoherent(s: State) {
    && (forall id: nat :: Coherent(ViewOf(s, id), id))
    && (forall id: nat :: id >= s.store.next ==> ViewOf(s, id) == NO_OPERATION)
  }

  // ---- The books ----

  /** Wrapped tokens in circulation for token `t`. */
  function SupplyOf(b: BridgeState, t: Id256): nat {
    var w := WrappedOf(b, t);
    if w in b.tokens then b.tokens[w].supply else 0
  }

  /** What is owed for the first `n` operations. */
  ghost function OwedUpTo(s: State, t: Id256, n: nat): nat {
    if n == 0 then 0 else OwedUpTo(s, t, n - 1) + Owed(ViewOf(s, n - 1), t)
  }

  function PendingBurn(e: BridgeEvent, t: Id256): nat {
    if e.Burnt? && e.burnt.toToken == t then e.burnt.amount else 0
  }

  /** What was burnt among the first `n` events, and not yet turned into an operation. */
  function PendingBurns(events: seq<BridgeEvent>, collected: set<nat>, t: Id256, n: nat): nat
    requires n <= |events|
  {
    if n == 0 then 0 else
      PendingBurns(events, collected, t, n - 1) + if n - 1 in collected then 0 else PendingBurn(events[n - 1], t)
  }

  /** Everything held against token `t`: wrapped tokens, operations on their way, burns not yet collected. */
  ghost function Liabilities(s: State, t: Id256): nat {
    SupplyOf(s.bridge, t) + OwedUpTo(s, t, s.store.next)
    + PendingBurns(s.bridge.events, s.collected, t, |s.bridge.events|)
  }

  ghost predicate Conserved(s: State, t: Id256) {
    Get(s.custody, t) + Get(s.unbacked, t) == Get(s.surplus, t) + Liabilities(s, t)
  }

  /** Only logged events are collected, and every minted order's nonce is used up. */
  ghost predicate ChainCoherent(s: State) {
    && (forall k :: k in s.collected ==> k < |s.bridge.events|)
    && (forall id: nat :: NonceSpent(ViewOf(s, id), s.bridge))
  }

  predicate NonceSpent(v: View, b: BridgeState) {
    v.minted ==> v.order.Some? && (v.order.value.sender, v.order.value.nonce) in b.usedNonces
  }

  /** What every step keeps, besides what the contract keeps by itself. */
  ghost predicate Sound(s: State) {
    && ChainCoherent(s)
    && StoreCoherent(s.store)
    && OperationsCoherent(s)
    && (forall t: Id256 :: Conserved(s, t))
  }

  // ---- Sums ----

  /** If only operation `k` changes, what is owed in all changes by what is owed for `k`. */
  lemma {:induction false} OwedChange(s: State, s': State, t: Id256, n: nat, k: nat)
    requires forall i: nat :: i != k ==> ViewOf(s', i) == ViewOf(s, i)
    ensures OwedUpTo(s', t, n) + (if k < n then Owed(ViewOf(s, k), t) else 0)
         == OwedUpTo(s, t, n) + if k < n then Owed(ViewOf(s', k), t) else 0
    decreases n
  {
    if n > 0 {
      OwedChange(s, s', t, n - 1, k);
    }
  }

  lemma {:induction false} PendingExtend(events: seq<BridgeEvent>, e: BridgeEvent, collected: set<nat>, t: Id256,
                                         n: nat)
    requires n <= |events|
    ensures PendingBurns(events + [e], collected, t, n) == PendingBurns(events, collected, t, n)
  {
    if n > 0 {
      PendingExtend(events, e, collected, t, n - 1);
    }
  }

  lemma {:induction false} PendingCollect(events: seq<BridgeEvent>, collected: set<nat>, t: Id256, n: nat, k: nat)
    requires n <= |events| && k < |events| && k !in collected
    ensures PendingBurns(events, collected, t, n)
         == PendingBurns(events, collected + {k}, t, n) + if k < n then PendingBurn(events[k], t) else 0
  {
    if n > 0 {
      PendingCollect(events, collected, t, n - 1, k);
    }
  }

  // ---- Steps that concern one operation ----

  /** A step of operation `id` alone, after which the books still balance. */
  lemma OperationStep(s: State, s': State, id: nat)
    requires Sound(s) && id < s.store.next
    requires s'.bridge == s.bridge && s'.collected == s.collected
    requires s'.store.next == s.store.next && StoreCoherent(s'.store)
    requires forall i: nat :: i != id ==> ViewOf(s', i) == ViewOf(s, i)
    requires Coherent(ViewOf(s', id), id) && NonceSpent(ViewOf(s', id), s.bridge)
    requires forall t: Id256 ::
      Get(s'.custody, t) + Get(s'.unbacked, t) + Get(s.surplus, t) + Owed(ViewOf(s, id), t)
      == Get(s.custody, t) + Get(s.unbacked, t) + Get(s'.surplus, t) + Owed(ViewOf(s', id), t)
    ensures Sound(s')
  {
    forall t: Id256 ensures Conserved(s', t) {
      OwedChange(s, s', t, s.store.next, id);
      assert Conserved(s, t);
    }
  }

  lemma StatusStore(st: Store<OperationState>, id: nat, p: OperationState)
    requires StoreCoherent(st) && id in st.incomplete && !IsRefundMinted(p)
    ensures var st' := Update(st, IsComplete, id, p);
      && StoreCoherent(st') && st'.next == st.next
      && st'.incomplete == if IsComplete(p) then st.incomplete - {id}
                           else st.incomplete[id := st.incomplete[id].(payload := p)]
  {
    if IsComplete(p) {
      LogAfterMove(st, id, st.incomplete[id].(payload := p));
    }
  }

  /** What changing a status does to the views. */
  lemma StatusEffect(s: State, id: nat, p: OperationState)
    requires StoreCoherent(s.store) && id in s.store.incomplete && !IsRefundMinted(p)
    ensures var s' := SetStatus(s, id, p);
      && StoreCoherent(s'.store) && s'.store.next == s.store.next
      && (forall i: nat :: i != id ==> ViewOf(s', i) == ViewOf(s, i))
      && ViewOf(s', id) == ViewOf(s, id).(status := if IsComplete(p) then None else Some(p))
  {
    StatusStore(s.store, id, p);
  }

  lemma TaskEffect(s: State, id: nat, task: Task)
    ensures forall i: nat :: i != id ==> ViewOf(SetTask(s, id, task), i) == ViewOf(s, i)
    ensures ViewOf(SetTask(s, id, task), id) == ViewOf(s, id).(task := Some(task))
    ensures forall i: nat :: i != id ==> ViewOf(EndTask(s, id), i) == ViewOf(s, i)
    ensures ViewOf(EndTask(s, id), id) == ViewOf(s, id).(task := None)
  {
  }

  /** A task belongs to an operation that exists and is not complete. */
  lemma TaskIsLive(s: State, id: nat)
    requires StoreCoherent(s.store) && OperationsCoherent(s) && id in s.tasks
    ensures id < s.store.next && id in s.store.incomplete && Coherent(ViewOf(s, id), id)
    ensures StatusOf(s, id) == ViewOf(s, id).status
    ensures ChainCoherent(s) ==> NonceSpent(ViewOf(s, id), s.bridge)
  {
    assert Coherent(ViewOf(s, id), id);
  }

  /** A step that only moves a task on, and owes the same. */
  lemma TaskStep(s: State, s': State, id: nat)
    requires Sound(s) && id in s.tasks
    requires s' == EndTask(s, id) || exists task :: s' == SetTask(s, id, task)
    requires Coherent(ViewOf(s', id), id)
    requires forall t: Id256 :: Owed(ViewOf(s', id), t) == Owed(ViewOf(s, id), t)
    ensures Sound(s')
  {
    TaskIsLive(s, id);
    if s' != EndTask(s, id) {
      var task :| s' == SetTask(s, id, task);
      TaskEffect(s, id, task);
    } else {
      TaskEffect(s, id, BurnIdle);
    }
    OperationStep(s, s', id);
  }

  lemma BurnStartKeeps(s: State, id: nat)
    requires Sound(s) && BurnStart(s, id).Some?
    ensures Sound(BurnStart(s, id).value)
  {
    TaskIsLive(s, id);
    TaskStep(s, BurnStart(s, id).value, id);
  }

  /** Tokens taken for a deposit are owed from then on: they add to custody, or count as an unbacked claim. */
  lemma TakingKeeps(s: State, s': State, id: nat, r: Icrc2Burn, meta: TokenMetadata)
    requires Sound(s) && HasTask(s, id, BurnAwaiting(r))
    requires s' == SetTask(s.(custody := s'.custody, unbacked := s'.unbacked), id, BurnTaken(r, meta))
    requires forall t: Id256 :: Get(s'.custody, t) + Get(s'.unbacked, t)
                             == Get(s.custody, t) + Get(s.unbacked, t) + if t == r.token then r.amount else 0
    ensures Sound(s')
  {
    TaskIsLive(s, id);
    assert ViewOf(s', id) == ViewOf(s, id).(task := Some(BurnTaken(r, meta)));
    OperationStep(s, s', id);
  }

  lemma BurnLedgerKeeps(s: State, id: nat, meta: TokenMetadata, first: Icrc2.Pull, refresh: Option<Icrc2.Error>,
                        second: Icrc2.Pull)
    requires Sound(s) && BurnLedger(s, id, meta, first, refresh, second).Some?
    ensures Sound(BurnLedger(s, id, meta, first, refresh, second).value)
  {
    var s' := BurnLedger(s, id, meta, first, refresh, second).value;
    var r := s.tasks[id].request;
    Icrc2.BurnCreditsExactly(Get(s.custody, r.token), SourceOf(s.canister, r), r.amount, true, first, refresh, second);
    if s'.tasks[id].BurnTaken? {
      TakingKeeps(s, s', id, r, meta);
    } else {
      TaskIsLive(s, id);
      TaskStep(s, s', id);
    }
  }

  lemma BurnFinishKeeps(s: State, id: nat)
    requires Sound(s) && BurnFinish(s, id).Some?
    ensures Sound(BurnFinish(s, id).value)
  {
    var s' := BurnFinish(s, id).value;
    TaskIsLive(s, id);
    var p := Deposit(Icrc2Burned(BurntData(id, s.tasks[id].request, s.tasks[id].meta)));
    StatusEffect(s, id, p);
    TaskEffect(SetStatus(s, id, p), id, PrepareIdle);
    OperationStep(s, s', id);
  }

  lemma PrepareStartKeeps(s: State, id: nat, chainId: U32)
    requires Sound(s) && PrepareStart(s, id, chainId).Some?
    ensures Sound(PrepareStart(s, id, chainId).value)
  {
    TaskIsLive(s, id);
    TaskStep(s, PrepareStart(s, id, chainId).value, id);
  }

  /** The order signed for an operation is owed exactly as the operation was before. */
  lemma SigningKeepsView(v: View, id: nat)
    requires Coherent(v, id) && v.task.Some? && v.task.value.PrepareSigning?
    ensures var o := v.task.value.order;
            var v' := v.(status := Some(SignedStatus(o, v.task.value.isDeposit)), order := Some(o),
                         task := if o.feePayer != ZERO_ADDRESS then Some(PrepareSigned) else None);
      Coherent(v', id) && forall t :: Owed(v', t) == Owed(v, t)
  {
  }

  lemma OrderEffect(s: State, id: nat, o: MintOrder)
    ensures forall i: nat :: i != id ==> ViewOf(s.(orders := s.orders[id := o]), i) == ViewOf(s, i)
    ensures ViewOf(s.(orders := s.orders[id := o]), id) == ViewOf(s, id).(order := Some(o))
  {
  }

  lemma SigningEffect(s: State, marked: State, id: nat, o: MintOrder, task: Option<Task>)
    requires forall i: nat :: i != id ==> ViewOf(marked, i) == ViewOf(s, i)
    ensures var signed := marked.(orders := marked.orders[id := o]);
            var s' := if task.Some? then SetTask(signed, id, task.value) else EndTask(signed, id);
      && (forall i: nat :: i != id ==> ViewOf(s', i) == ViewOf(s, i))
      && ViewOf(s', id) == ViewOf(marked, id).(order := Some(o), task := task)
      && s'.store == marked.store
  {
    OrderEffect(marked, id, o);
    var signed := marked.(orders := marked.orders[id := o]);
    TaskEffect(signed, id, if task.Some? then task.value else BurnIdle);
  }

  lemma PrepareSignKeeps(s: State, id: nat)
    requires Sound(s) && PrepareSign(s, id).Some?
    ensures Sound(PrepareSign(s, id).value)
  {
    TaskIsLive(s, id);
    var o := s.tasks[id].order;
    var p := SignedStatus(o, s.tasks[id].isDeposit);
    StatusEffect(s, id, p);
    SigningEffect(s, SetStatus(s, id, p), id, o, if o.feePayer != ZERO_ADDRESS then Some(PrepareSigned) else None);
    SigningKeepsView(ViewOf(s, id), id);
    OperationStep(s, PrepareSign(s, id).value, id);
  }

  lemma PrepareFinishKeeps(s: State, id: nat)
    requires Sound(s) && PrepareFinish(s, id).Some?
    ensures Sound(PrepareFinish(s, id).value)
  {
    TaskIsLive(s, id);
    TaskStep(s, PrepareFinish(s, id).value, id);
  }

  lemma SendStartKeeps(s: State, id: nat)
    requires Sound(s) && SendStart(s, id).Some?
    ensures Sound(SendStart(s, id).value)
  {
    TaskIsLive(s, id);
    TaskStep(s, SendStart(s, id).value, id);
  }

  lemma SendFinishKeeps(s: State, id: nat, txId: U256)
    requires Sound(s) && SendFinish(s, id, txId).Some?
    ensures Sound(SendFinish(s, id, txId).value)
  {
    var s' := SendFinish(s, id, txId).value;
    TaskIsLive(s, id);
    var p := SentStatus(s.tasks[id], txId);
    StatusEffect(s, id, p);
    TaskEffect(SetStatus(s, id, p), id, BurnIdle);
    var ended := EndTask(SetStatus(s, id, p), id);
    assert forall i: nat :: i != id ==> ViewOf(s', i) == ViewOf(ended, i);
    assert ViewOf(s', id) == ViewOf(s, id).(status := Some(p), task := None, sent := true);
    OperationStep(s, s', id);
  }

  lemma PayStartKeeps(s: State, id: nat)
    requires Sound(s) && PayStart(s, id).Some?
    ensures Sound(PayStart(s, id).value)
  {
    TaskIsLive(s, id);
    TaskStep(s, PayStart(s, id).value, id);
  }

  /** What is paid out leaves custody and is owed no more, or comes back as a gift. */
  lemma PayingKeeps(s: State, s': State, id: nat, e: BurntEventData, received: nat)
    requires Sound(s) && HasTask(s, id, PayAwaiting(e)) && 0 < received <= e.amount
    requires s' == SetTask(s.(custody := s'.custody, surplus := s'.surplus), id, PayDone(e, received))
    requires forall t: Id256 :: Get(s'.custody, t) + Get(s.surplus, t) + (if t == e.toToken then e.amount else 0)
                             == Get(s.custody, t) + Get(s'.surplus, t)
    ensures Sound(s')
  {
    TaskIsLive(s, id);
    assert ViewOf(s', id) == ViewOf(s, id).(task := Some(PayDone(e, received)));
    OperationStep(s, s', id);
  }

  lemma PayLedgerKeeps(s: State, id: nat, first: Icrc2.Round, refresh: Option<Icrc2.Error>, second: Icrc2.Round)
    requires Sound(s) && PayLedger(s, id, first, refresh, second).Some?
    ensures Sound(PayLedger(s, id, first, refresh, second).value)
  {
    var s' := PayLedger(s, id, first, refresh, second).value;
    var e := s.tasks[id].event;
    Icrc2.MintDebitsExactly(Get(s.custody, e.toToken), e.recipientId == s.canister, e.amount, true,
                            first, refresh, second);
    if s'.tasks[id].PayDone? {
      PayingKeeps(s, s', id, e, s'.tasks[id].received);
    } else {
      TaskIsLive(s, id);
      TaskStep(s, s', id);
    }
  }

  lemma PayFinishKeeps(s: State, id: nat, ledgerTx: nat)
    requires Sound(s) && PayFinish(s, id, ledgerTx).Some?
    ensures Sound(PayFinish(s, id, ledgerTx).value)
  {
    var s' := PayFinish(s, id, ledgerTx).value;
    TaskIsLive(s, id);
    var p := PaidStatus(s.tasks[id], id, ledgerTx);
    StatusEffect(s, id, p);
    TaskEffect(SetStatus(s, id, p), id, PrepareIdle);
    OperationStep(s, s', id);
  }

  lemma TaskFailsKeeps(s: State, id: nat)
    requires Sound(s) && TaskFails(s, id).Some?
    ensures Sound(TaskFails(s, id).value)
  {
    TaskIsLive(s, id);
    TaskStep(s, TaskFails(s, id).value, id);
  }

  lemma TaskDroppedKeeps(s: State, id: nat)
    requires Sound(s) && TaskDropped(s, id).Some?
    ensures Sound(TaskDropped(s, id).value)
  {
    TaskIsLive(s, id);
    TaskStep(s, TaskDropped(s, id).value, id);
  }

  // ---- Steps on the EVM side ----

  /** The books of token `t` stay balanced if the contract's side of them changes as `unbacked` does. */
  lemma ContractStep(s: State, b': BridgeState, unbacked': map<Id256, nat>, t: Id256)
    requires Conserved(s, t)
    requires SupplyOf(b', t) + PendingBurns(b'.events, s.collected, t, |b'.events|) + Get(s.unbacked, t)
          == SupplyOf(s.bridge, t) + PendingBurns(s.bridge.events, s.collected, t, |s.bridge.events|)
             + Get(unbacked', t)
    ensures Conserved(s.(bridge := b', unbacked := unbacked'), t)
  {
    var s' := s.(bridge := b', unbacked := unbacked');
    assert forall i: nat :: ViewOf(s', i) == ViewOf(s, i);
    OwedChange(s, s', t, s.store.next, s.store.next);
  }

  /** Address `a` is the wrapped token of `t`. */
  predicate IsWrapped(b: BridgeState, a: Address, t: Id256) {
    a in b.tokens && BaseOf(b, a) == t
  }

  /** A logged event changes the supply of exactly the base token it is about. */
  lemma LoggedSupply(b: BridgeState, b': BridgeState, e: BridgeEvent, t: Id256)
    requires RegistriesInverse(b) && Logs(b, b', e)
    ensures SupplyOf(b', t) + (if e.Burnt? && IsWrapped(b, e.burnt.fromErc20, t) then e.burnt.amount else 0)
         == SupplyOf(b, t) + if e.Minted? && IsWrapped(b, e.minted.toErc20, t) then e.minted.amount else 0
  {
    var w := WrappedOf(b, t);
    assert WrappedOf(b', t) == w;
    if w in b.tokens {
      assert BaseOf(b, w) == t;
    }
  }

  /** A logged event waits to be collected. */
  lemma LoggedPending(s: State, e: BridgeEvent, t: Id256)
    requires ChainCoherent(s)
    ensures var events' := s.bridge.events + [e];
      PendingBurns(events', s.collected, t, |events'|)
      == PendingBurns(s.bridge.events, s.collected, t, |s.bridge.events|) + PendingBurn(e, t)
  {
    PendingExtend(s.bridge.events, e, s.collected, t, |s.bridge.events|);
  }

  lemma ContractStepKeeps(s: State, b': BridgeState, unbacked': map<Id256, nat>)
    requires Sound(s)
    requires |s.bridge.events| <= |b'.events| && s.bridge.usedNonces <= b'.usedNonces
    requires forall t: Id256 :: Conserved(s.(bridge := b', unbacked := unbacked'), t)
    ensures Sound(s.(bridge := b', unbacked := unbacked'))
  {
    var s' := s.(bridge := b', unbacked := unbacked');
    assert forall i: nat :: ViewOf(s', i) == ViewOf(s, i);
  }

  /** A burn of the bridge's own token moves its amount from the supply to the pending burns; another adds a claim. */
  lemma BurnBooks(s: State, b': BridgeState, e: BurntEventData, t: Id256)
    requires RegistriesInverse(s.bridge) && ChainCoherent(s) && Conserved(s, t)
    requires Logs(s.bridge, b', Burnt(e)) && e.toToken == BaseOf(s.bridge, e.fromErc20)
    ensures Conserved(s.(bridge := b', unbacked := if e.fromErc20 in s.bridge.tokens then s.unbacked
                                                   else Plus(s.unbacked, ZERO_ID, e.amount)), t)
  {
    var unbacked' := if e.fromErc20 in s.bridge.tokens then s.unbacked else Plus(s.unbacked, ZERO_ID, e.amount);
    LoggedSupply(s.bridge, b', Burnt(e), t);
    LoggedPending(s, Burnt(e), t);
    ContractStep(s, b', unbacked', t);
  }

  lemma BurnCallBooks(s: State, c: BridgeCall, t: Id256)
    requires BridgeInv(s.bridge) && ChainCoherent(s) && Conserved(s, t) && c.BurnCall? && EvmCall(s, c).Some?
    ensures Conserved(EvmCall(s, c).value, t)
  {
    var b := s.bridge;
    SuppliesBalanced(b);
    BurnEffect(b, c.msgSender, c.amount, c.fromErc20, c.recipientId, c.meta, c.foreignOk);
    var e := BurntEvent(b, c.msgSender, c.amount, c.fromErc20, c.recipientId, c.meta).burnt;
    BurnBooks(s, EvmCall(s, c).value.bridge, e, t);
  }

  lemma DeployBooks(s: State, baseId: Id256, created: Address, t: Id256)
    requires RegistriesInverse(s.bridge) && Conserved(s, t) && DeployErc20(s.bridge, baseId, created).Some?
    ensures Conserved(s.(bridge := DeployErc20(s.bridge, baseId, created).value), t)
  {
    var b' := DeployErc20(s.bridge, baseId, created).value;
    assert baseId !in s.bridge.erc20Registry;
    assert SupplyOf(b', t) == SupplyOf(s.bridge, t);
    ContractStep(s, b', s.unbacked, t);
  }

  lemma UserCallBooks(s: State, token: Address, msgSender: Address, call: TokenCall, t: Id256)
    requires BridgeInv(s.bridge) && Conserved(s, t) && UserCall(s.bridge, token, msgSender, call).Some?
    ensures Conserved(s.(bridge := UserCall(s.bridge, token, msgSender, call).value), t)
  {
    UserCallKeeps(s.bridge, token, msgSender, call);
    ContractStep(s, UserCall(s.bridge, token, msgSender, call).value, s.unbacked, t);
  }

  lemma NotifyBooks(s: State, msgSender: Address, userData: Option<Icrc2Burn>, t: Id256)
    requires ChainCoherent(s) && Conserved(s, t)
    ensures Conserved(s.(bridge := NotifyMinter(s.bridge, msgSender, userData)), t)
  {
    LoggedPending(s, Notify(msgSender, userData), t);
    ContractStep(s, NotifyMinter(s.bridge, msgSender, userData), s.unbacked, t);
  }

  lemma CallBooks(s: State, c: BridgeCall, t: Id256)
    requires BridgeInv(s.bridge) && ChainCoherent(s) && Conserved(s, t) && EvmCall(s, c).Some?
    ensures Conserved(EvmCall(s, c).value, t)
  {
    match c
    case DeployCall(baseId, created) => DeployBooks(s, baseId, created, t);
    case BurnCall(_, _, _, _, _, _) => BurnCallBooks(s, c, t);
    case NotifyCall(msgSender, userData) => NotifyBooks(s, msgSender, userData, t);
    case TokenUserCall(token, msgSender, call) => UserCallBooks(s, token, msgSender, call, t);
    case PauseCall(paused) => ContractStep(s, s.bridge.(paused := paused), s.unbacked, t);
  }

  lemma EvmCallKeeps(s: State, c: BridgeCall)
    requires BridgeInv(s.bridge) && Sound(s) && EvmCall(s, c).Some?
    ensures Sound(EvmCall(s, c).value) && BridgeInv(EvmCall(s, c).value.bridge)
  {
    var s' := EvmCall(s, c).value;
    assert BridgeInv(s'.bridge) by {
      ApplyKeeps(s.bridge, c);
    }
    assert |s.bridge.events| <= |s'.bridge.events| && s.bridge.usedNonces <= s'.bridge.usedNonces by {
      CallGrows(s.bridge, c);
    }
    forall t: Id256 ensures Conserved(s', t) {
      assert Conserved(s, t);
      CallBooks(s, c, t);
    }
    ContractStepKeeps(s, s'.bridge, s'.unbacked);
  }

  lemma CallGrows(b: BridgeState, c: BridgeCall)
    requires !c.MintCall? && Apply(b, c).Some?
    ensures |b.events| <= |Apply(b, c).value.events| && b.usedNonces <= Apply(b, c).value.usedNonces
  {
  }

  // ---- A signed order is minted ----

  /** While its nonce is unused an operation has not been minted. */
  lemma AcceptedOnce(s: State, s': State, caller: Address, id: nat, feeOk: bool)
    requires BridgeInv(s.bridge) && Sound(s) && id in s.orders
    requires MintDecoded(s.bridge, caller, s.orders[id], s.bridge.minter, true, feeOk) == Some(s'.bridge)
    ensures id !in s.minted
    ensures var o := s.orders[id];
      && o.srcToken in s.bridge.erc20Registry
      && Target(s.bridge, o) == s.bridge.erc20Registry[o.srcToken]
      && Logs(s.bridge, s'.bridge, MintedEvent(s.bridge, o))
      && s'.bridge.usedNonces == s.bridge.usedNonces + {(o.sender, o.nonce)}
  {
    assert Coherent(ViewOf(s, id), id) && NonceSpent(ViewOf(s, id), s.bridge);
    MintedOrder(s.bridge, s'.bridge, caller, s.orders[id], true, feeOk);
  }

  /** An accepted order is minted for the first time, in the wrapped token of the very token it was signed for. */
  lemma AcceptedOrder(s: State, caller: Address, id: nat, feeOk: bool)
    requires BridgeInv(s.bridge) && Sound(s) && MintOnChain(s, caller, id, feeOk).Some?
    ensures id !in s.minted
    ensures var o := s.orders[id]; var b' := MintOnChain(s, caller, id, feeOk).value.bridge;
      && o.srcToken in s.bridge.erc20Registry
      && Target(s.bridge, o) == s.bridge.erc20Registry[o.srcToken]
      && Logs(s.bridge, b', MintedEvent(s.bridge, o))
      && b'.usedNonces == s.bridge.usedNonces + {(o.sender, o.nonce)}
  {
    AcceptedOnce(s, MintOnChain(s, caller, id, feeOk).value, caller, id, feeOk);
  }

  lemma MintSupply(b: BridgeState, b': BridgeState, o: MintOrder, t: Id256)
    requires RegistriesInverse(b) && o.srcToken in b.erc20Registry && Target(b, o) == b.erc20Registry[o.srcToken]
    requires Logs(b, b', MintedEvent(b, o))
    ensures SupplyOf(b', t) == SupplyOf(b, t) + if o.srcToken == t then o.amount else 0
  {
    LoggedSupply(b, b', MintedEvent(b, o), t);
  }

  lemma MintOwed(s: State, s': State, id: nat, t: Id256)
    requires id in s.orders && id !in s.minted && id < s.store.next
    requires s'.store == s.store && s'.tasks == s.tasks && s'.orders == s.orders && s'.sent == s.sent
    requires s'.minted == s.minted + {id}
    ensures OwedUpTo(s, t, s.store.next)
         == OwedUpTo(s', t, s.store.next) + if s.orders[id].srcToken == t then s.orders[id].amount else 0
  {
    assert forall i: nat :: i != id ==> ViewOf(s', i) == ViewOf(s, i);
    assert ViewOf(s', id) == ViewOf(s, id).(minted := true);
    OwedChange(s, s', t, s.store.next, id);
  }

  lemma MintBooks(s: State, s': State, id: nat, t: Id256)
    requires RegistriesInverse(s.bridge) && ChainCoherent(s) && Conserved(s, t)
    requires id in s.orders && id !in s.minted && id < s.store.next
    requires s' == s.(bridge := s'.bridge, minted := s.minted + {id})
    requires s.orders[id].srcToken in s.bridge.erc20Registry
    requires Target(s.bridge, s.orders[id]) == s.bridge.erc20Registry[s.orders[id].srcToken]
    requires Logs(s.bridge, s'.bridge, MintedEvent(s.bridge, s.orders[id]))
    ensures Conserved(s', t)
  {
    var o := s.orders[id];
    assert SupplyOf(s'.bridge, t) == SupplyOf(s.bridge, t) + if o.srcToken == t then o.amount else 0 by {
      MintSupply(s.bridge, s'.bridge, o, t);
    }
    assert PendingBurns(s'.bridge.events, s'.collected, t, |s'.bridge.events|)
        == PendingBurns(s.bridge.events, s.collected, t, |s.bridge.events|) by {
      LoggedPending(s, MintedEvent(s.bridge, o), t);
    }
    MintOwed(s, s', id, t);
  }

  lemma MintSound(s: State, s': State, id: nat)
    requires RegistriesInverse(s.bridge) && Sound(s)
    requires id in s.orders && id !in s.minted
    requires s' == s.(bridge := s'.bridge, minted := s.minted + {id})
    requires s.orders[id].srcToken in s.bridge.erc20Registry
    requires Target(s.bridge, s.orders[id]) == s.bridge.erc20Registry[s.orders[id].srcToken]
    requires Logs(s.bridge, s'.bridge, MintedEvent(s.bridge, s.orders[id]))
    requires s'.bridge.usedNonces == s.bridge.usedNonces + {(s.orders[id].sender, s.orders[id].nonce)}
    ensures Sound(s')
  {
    MintedViews(s, s', id);
    assert ViewOf(s, id).order == Some(s.orders[id]);
    forall t: Id256 ensures Conserved(s', t) {
      assert Conserved(s, t);
      MintBooks(s, s', id, t);
    }
  }

  lemma MintOnChainKeeps(s: State, caller: Address, id: nat, feeOk: bool)
    requires BridgeInv(s.bridge) && Sound(s) && MintOnChain(s, caller, id, feeOk).Some?
    ensures Sound(MintOnChain(s, caller, id, feeOk).value) && BridgeInv(MintOnChain(s, caller, id, feeOk).value.bridge)
  {
    var s' := MintOnChain(s, caller, id, feeOk).value;
    assert BridgeInv(s'.bridge) by {
        MintKeeps(s.bridge, caller, s.orders[id], s.bridge.minter, true, feeOk);
    }
    AcceptedOrder(s, caller, id, feeOk);
    MintSound(s, s', id);
  }

  lemma MintedViews(s: State, s': State, id: nat)
    requires ChainCoherent(s) && OperationsCoherent(s) && id in s.orders
    requires s' == s.(bridge := s'.bridge, minted := s.minted + {id})
    requires |s.bridge.events| <= |s'.bridge.events|
    requires s'.bridge.usedNonces == s.bridge.usedNonces + {(s.orders[id].sender, s.orders[id].nonce)}
    ensures ChainCoherent(s') && OperationsCoherent(s')
  {
    assert ViewOf(s, id).order == Some(s.orders[id]);
    assert id < s.store.next;
    forall i: nat ensures Coherent(ViewOf(s', i), i) && NonceSpent(ViewOf(s', i), s'.bridge)
      ensures i >= s.store.next ==> ViewOf(s', i) == NO_OPERATION
    {
      assert Coherent(ViewOf(s, i), i) && NonceSpent(ViewOf(s, i), s.bridge);
      assert ViewOf(s', i) == if i == id then ViewOf(s, i).(minted := true) else ViewOf(s, i);
    }
  }

  // ---- Collected events ----

  lemma NewTaskEffect(s: State, dst: Address, payload: OperationState, task: Task)
    requires StoreCoherent(s.store) && !IsComplete(payload)
    requires forall id: nat :: id >= s.store.next ==> ViewOf(s, id) == NO_OPERATION
    ensures var s' := NewTask(s, dst, payload, task); var id := s.store.next;
      && StoreCoherent(s'.store) && s'.store.next == id + 1
      && (forall i: nat :: i != id ==> ViewOf(s', i) == ViewOf(s, i))
      && ViewOf(s', id) == NO_OPERATION.(status := Some(payload), task := Some(task))
  {
    var s' := NewTask(s, dst, payload, task);
    assert ViewOf(s, s.store.next) == NO_OPERATION;
    assert s'.store.incomplete == s.store.incomplete[s.store.next := Entry(dst, payload)];
  }

  /** The newest operation of `s'` owes what left the pending burns, or was added to the unbacked claims. */
  ghost predicate ClaimBalances(s: State, s': State, t: Id256)
    requires forall k :: k in s'.collected ==> k < |s.bridge.events|
  {
    Get(s'.unbacked, t) + PendingBurns(s.bridge.events, s.collected, t, |s.bridge.events|)
    == Get(s.unbacked, t) + PendingBurns(s.bridge.events, s'.collected, t, |s.bridge.events|)
       + Owed(ViewOf(s', s.store.next), t)
  }

  /** A new operation owes what its creation takes out of the pending burns, or adds to the unbacked claims. */
  lemma NewOperationKeeps(s: State, s': State)
    requires Sound(s)
    requires s'.bridge == s.bridge && s'.custody == s.custody && s'.surplus == s.surplus
    requires forall k :: k in s'.collected ==> k < |s.bridge.events|
    requires StoreCoherent(s'.store) && s'.store.next == s.store.next + 1
    requires forall i: nat :: i != s.store.next ==> ViewOf(s', i) == ViewOf(s, i)
    requires Coherent(ViewOf(s', s.store.next), s.store.next) && !ViewOf(s', s.store.next).minted
    requires forall t: Id256 :: ClaimBalances(s, s', t)
    ensures Sound(s')
  {
    forall t: Id256 ensures Conserved(s', t) {
      OwedChange(s, s', t, s.store.next, s.store.next);
      assert Conserved(s, t) && ClaimBalances(s, s', t);
    }
  }

  lemma CollectPending(s: State, k: nat, t: Id256)
    requires k < |s.bridge.events|
    ensures PendingBurns(s.bridge.events, s.collected, t, |s.bridge.events|)
         == PendingBurns(s.bridge.events, s.collected + {k}, t, |s.bridge.events|)
            + if k in s.collected then 0 else PendingBurn(s.bridge.events[k], t)
  {
    if k in s.collected {
      assert s.collected + {k} == s.collected;
    } else {
      PendingCollect(s.bridge.events, s.collected, t, |s.bridge.events|, k);
    }
  }

  lemma CollectBurntBooks(s: State, k: nat, e: BurntEventData, t: Id256)
    requires k < |s.bridge.events| && s.bridge.events[k] == Burnt(e)
    ensures var unbacked' := if k in s.collected then Plus(s.unbacked, e.toToken, e.amount) else s.unbacked;
            var v := NO_OPERATION.(status := Some(Withdrawal(WithdrawalScheduled(e))), task := Some(PayIdle));
      Get(unbacked', t) + PendingBurns(s.bridge.events, s.collected, t, |s.bridge.events|)
      == Get(s.unbacked, t) + PendingBurns(s.bridge.events, s.collected + {k}, t, |s.bridge.events|) + Owed(v, t)
  {
    CollectPending(s, k, t);
  }

  lemma CollectedBurnKeeps(s: State, s': State, k: nat, e: BurntEventData)
    requires Sound(s) && k < |s.bridge.events| && s.bridge.events[k] == Burnt(e)
    requires s'.bridge == s.bridge && s'.custody == s.custody && s'.surplus == s.surplus
    requires s'.collected == s.collected + {k}
    requires s'.unbacked == if k in s.collected then Plus(s.unbacked, e.toToken, e.amount) else s.unbacked
    requires StoreCoherent(s'.store) && s'.store.next == s.store.next + 1
    requires forall i: nat :: i != s.store.next ==> ViewOf(s', i) == ViewOf(s, i)
    requires ViewOf(s', s.store.next)
          == NO_OPERATION.(status := Some(Withdrawal(WithdrawalScheduled(e))), task := Some(PayIdle))
    ensures Sound(s')
  {
    forall t: Id256 ensures ClaimBalances(s, s', t) {
      CollectBurntBooks(s, k, e, t);
    }
    NewOperationKeeps(s, s');
  }

  lemma BurntViews(s: State, k: nat, e: BurntEventData)
    requires StoreCoherent(s.store) && forall id: nat :: id >= s.store.next ==> ViewOf(s, id) == NO_OPERATION
    ensures var s' := CollectBurnt(s, k, e); var id := s.store.next;
      && StoreCoherent(s'.store) && s'.store.next == id + 1
      && (forall i: nat :: i != id ==> ViewOf(s', i) == ViewOf(s, i))
      && ViewOf(s', id) == NO_OPERATION.(status := Some(Withdrawal(WithdrawalScheduled(e))), task := Some(PayIdle))
  {
    var claimed := Claimed(s, k, e);
    assert forall i: nat :: ViewOf(claimed, i) == ViewOf(s, i);
    NewTaskEffect(claimed, e.sender, Withdrawal(WithdrawalScheduled(e)), PayIdle);
  }

  lemma RequestViews(s: State, k: nat, r: Icrc2Burn)
    requires StoreCoherent(s.store) && forall id: nat :: id >= s.store.next ==> ViewOf(s, id) == NO_OPERATION
    ensures var s' := CollectRequest(s, k, r); var id := s.store.next;
      && StoreCoherent(s'.store) && s'.store.next == id + 1
      && (forall i: nat :: i != id ==> ViewOf(s', i) == ViewOf(s, i))
      && ViewOf(s', id) == NO_OPERATION.(status := Some(Deposit(DepositScheduled(r))), task := Some(BurnIdle))
  {
    var seen := s.(collected := s.collected + {k});
    assert forall i: nat :: ViewOf(seen, i) == ViewOf(s, i);
    NewTaskEffect(seen, r.recipient, Deposit(DepositScheduled(r)), BurnIdle);
  }

  lemma CollectBurntKeeps(s: State, k: nat, e: BurntEventData)
    requires Sound(s) && k < |s.bridge.events| && s.bridge.events[k] == Burnt(e)
    ensures Sound(CollectBurnt(s, k, e))
  {
    BurntViews(s, k, e);
    CollectedBurnKeeps(s, CollectBurnt(s, k, e), k, e);
  }

  lemma CollectedRequestKeeps(s: State, s': State, k: nat)
    requires Sound(s) && k < |s.bridge.events| && !s.bridge.events[k].Burnt?
    requires s'.bridge == s.bridge && s'.custody == s.custody && s'.surplus == s.surplus && s'.unbacked == s.unbacked
    requires s'.collected == s.collected + {k}
    requires StoreCoherent(s'.store) && s'.store.next == s.store.next + 1
    requires forall i: nat :: i != s.store.next ==> ViewOf(s', i) == ViewOf(s, i)
    requires Coherent(ViewOf(s', s.store.next), s.store.next) && !ViewOf(s', s.store.next).minted
    requires forall t: Id256 :: Owed(ViewOf(s', s.store.next), t) == 0
    ensures Sound(s')
  {
    forall t: Id256 ensures ClaimBalances(s, s', t) {
      CollectPending(s, k, t);
    }
    NewOperationKeeps(s, s');
  }

  lemma CollectRequestKeeps(s: State, k: nat, r: Icrc2Burn)
    requires Sound(s) && k < |s.bridge.events| && !s.bridge.events[k].Burnt?
    ensures Sound(CollectRequest(s, k, r))
  {
    RequestViews(s, k, r);
    CollectedRequestKeeps(s, CollectRequest(s, k, r), k);
  }

  lemma CollectOtherKeeps(s: State, k: nat)
    requires Sound(s) && k < |s.bridge.events| && !s.bridge.events[k].Burnt?
    ensures Sound(s.(collected := s.collected + {k}))
  {
    var s' := s.(collected := s.collected + {k});
    assert forall i: nat :: ViewOf(s', i) == ViewOf(s, i);
    forall t: Id256 ensures Conserved(s', t) {
      CollectPending(s, k, t);
      OwedChange(s, s', t, s.store.next, s.store.next);
      assert Conserved(s, t);
    }
  }

  lemma CollectKeeps(s: State, k: nat)
    requires Sound(s) && CollectEvent(s, k).Some?
    ensures Sound(CollectEvent(s, k).value) && CollectEvent(s, k).value.bridge == s.bridge
  {
    match s.bridge.events[k]
    case Burnt(e) => CollectBurntKeeps(s, k, e);
    case Notify(txSender, Some(r)) => CollectRequestKeeps(s, k, Vetted(txSender, r));
    case _ => CollectOtherKeeps(s, k);
  }

  // ---- Mint events come back ----

  lemma {:induction false} FindNonceFinds(ops: seq<(nat, OperationState)>, nonce: U32)
    requires FindNonce(ops, nonce).Some?
    ensures FindNonce(ops, nonce).value in ops && Nonce(FindNonce(ops, nonce).value.0) == nonce
  {
    if Nonce(ops[0].0) != nonce {
      FindNonceFinds(ops[1..], nonce);
    }
  }

  lemma {:induction false} PresentIsStored<P>(st: Store<P>, ids: seq<nat>, id: nat, p: P)
    requires (id, p) in Present(st, ids)
    ensures Lookup(st, id) == Some(p) && id in ids
  {
    if (Lookup(st, ids[0]).None? || (id, p) != (ids[0], Lookup(st, ids[0]).value)) {
      PresentIsStored(st, ids[1..], id, p);
    }
  }

  /** The operation that a mint event completes is a deposit whose order was sent. */
  lemma RemovedOrderIsSent(s: State, k: nat)
    requires Sound(s) && RemoveMintOrder(s, k).Some?
    ensures var e := s.bridge.events[k].minted; var found := FindNonce(GetForAddress(s.store, e.recipient), e.nonce);
      && found.Some? && found.value.0 in s.store.incomplete
      && ViewOf(s, found.value.0).status == Some(found.value.1)
      && found.value.1.Deposit? && found.value.1.deposit.MintOrderSent? && Nonce(found.value.0) == e.nonce
  {
    var e := s.bridge.events[k].minted;
    var ops := GetForAddress(s.store, e.recipient);
    FindNonceFinds(ops, e.nonce);
    var (id, p) := FindNonce(ops, e.nonce).value;
    PresentIsStored(s.store, IdsOf(s.store.index, e.recipient), id, p);
    assert Coherent(ViewOf(s, id), id);
  }

  lemma RemoveMintOrderKeeps(s: State, k: nat)
    requires Sound(s) && RemoveMintOrder(s, k).Some?
    ensures Sound(RemoveMintOrder(s, k).value)
  {
    var s' := RemoveMintOrder(s, k).value;
    RemovedOrderIsSent(s, k);
    var e := s.bridge.events[k].minted;
    var (id, p) := FindNonce(GetForAddress(s.store, e.recipient), e.nonce).value;
    assert Coherent(ViewOf(s, id), id) && NonceSpent(ViewOf(s, id), s.bridge);
    StatusEffect(s, id, Deposit(DepositMinted(e.fromToken, e.amount, p.deposit.txId)));
    OperationStep(s, s', id);
  }

  lemma DonateKeeps(s: State, t: Id256, n: nat)
    requires Sound(s)
    ensures Sound(Donate(s, t, n))
  {
    var s' := Donate(s, t, n);
    assert forall i: nat :: ViewOf(s', i) == ViewOf(s, i);
    forall u: Id256 ensures Conserved(s', u) {
      OwedChange(s, s', u, s.store.next, s.store.next);
      assert Conserved(s, u);
    }
  }

  // ---- Every run ----

  ghost predicate Inv(s: State) {
    BridgeInv(s.bridge) && Sound(s)
  }

  /** The steps that belong to one operation's task. */
  predicate IsTaskAction(a: Action) {
    !(a.DonateAction? || a.EvmAction? || a.MintAction? || a.CollectAction? || a.RemoveOrderAction?)
  }

  lemma TaskActionKeeps(s: State, a: Action)
    requires Sound(s) && IsTaskAction(a) && Next(s, a).Some?
    ensures Sound(Next(s, a).value)
  {
    match a
    case BurnStartAction(id) => BurnStartKeeps(s, id);
    case BurnLedgerAction(id, meta, first, refresh, second) => BurnLedgerKeeps(s, id, meta, first, refresh, second);
    case BurnFinishAction(id) => BurnFinishKeeps(s, id);
    case PrepareStartAction(id, chainId) => PrepareStartKeeps(s, id, chainId);
    case PrepareSignAction(id) => PrepareSignKeeps(s, id);
    case PrepareFinishAction(id) => PrepareFinishKeeps(s, id);
    case SendStartAction(id) => SendStartKeeps(s, id);
    case SendFinishAction(id, txId) => SendFinishKeeps(s, id, txId);
    case PayStartAction(id) => PayStartKeeps(s, id);
    case PayLedgerAction(id, first, refresh, second) => PayLedgerKeeps(s, id, first, refresh, second);
    case PayFinishAction(id, tx) => PayFinishKeeps(s, id, tx);
    case TaskFailsAction(id) => TaskFailsKeeps(s, id);
    case TaskDroppedAction(id) => TaskDroppedKeeps(s, id);
  }

  lemma TaskActionFrame(s: State, a: Action)
    requires IsTaskAction(a) && Next(s, a).Some?
    ensures SameOutside(s, Next(s, a).value)
  {
  }

  lemma TaskActionAccounts(s: State, a: Action)
    requires IsTaskAction(a) && Next(s, a).Some?
    ensures !a.BurnLedgerAction? ==> Next(s, a).value.unbacked == s.unbacked
    ensures !a.PayLedgerAction? ==> Next(s, a).value.surplus == s.surplus
  {
  }

  lemma NextKeeps(s: State, a: Action)
    requires Inv(s) && Next(s, a).Some?
    ensures Inv(Next(s, a).value)
  {
    match a
    case DonateAction(t, n) => DonateKeeps(s, t, n);
    case EvmAction(c) => EvmCallKeeps(s, c);
    case MintAction(caller, id, feeOk) => MintOnChainKeeps(s, caller, id, feeOk);
    case CollectAction(k) => CollectKeeps(s, k);
    case RemoveOrderAction(k) => RemoveMintOrderKeeps(s, k);
    case _ => TaskActionKeeps(s, a); TaskActionFrame(s, a);
  }

  function Genesis(self: Address, minter: Address, canister: Id256, chainId: nat, maxLogSize: nat): State {
    InitialState(InitialBridge(self, minter, chainId, true), canister, maxLogSize)
  }

  lemma GenesisSound(self: Address, minter: Address, canister: Id256, chainId: nat, maxLogSize: nat)
    requires self != ZERO_ADDRESS
    ensures Inv(Genesis(self, minter, canister, chainId, maxLogSize))
  {
    var s := Genesis(self, minter, canister, chainId, maxLogSize);
    EveryRunKeeps(self, minter, chainId, true, []);
    assert forall id: nat :: ViewOf(s, id) == NO_OPERATION;
  }

  lemma {:induction false} EveryStateSound(s: State, run: seq<Action>)
    requires Inv(s)
    ensures Inv(Execution(s, run))
    decreases |run|
  {
    if run != [] {
      EveryStateSound(s, run[..|run| - 1]);
      var before := Execution(s, run[..|run| - 1]);
      if Next(before, run[|run| - 1]).Some? {
        NextKeeps(before, run[|run| - 1]);
      }
    }
  }

  /**
   Exact conservation, in every reachable state and for every token: custody and the claims nobody gave
   anything up for are what the minter was given, the wrapped supply, and all that is still owed.
   */
  lemma Conservation(self: Address, minter: Address, canister: Id256, chainId: nat, maxLogSize: nat, run: seq<Action>,
                     t: Id256)
    requires self != ZERO_ADDRESS
    ensures var s := Execution(Genesis(self, minter, canister, chainId, maxLogSize), run);
      && Get(s.custody, t) + Get(s.unbacked, t) == Get(s.surplus, t) + Liabilities(s, t)
      && (Get(s.custody, t) >= Liabilities(s, t) <==> Get(s.unbacked, t) <= Get(s.surplus, t))
  {
    GenesisSound(self, minter, canister, chainId, maxLogSize);
    EveryStateSound(Genesis(self, minter, canister, chainId, maxLogSize), run);
    assert Conserved(Execution(Genesis(self, minter, canister, chainId, maxLogSize), run), t);
  }
}
