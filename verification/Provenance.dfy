/**
 Where every signed order and every status comes from, over every run of the bridge: orders trace back
 to logged events, an order is minted at most once, and an operation only ever moves forward.
 */
module Provenance {
  import opened Words
  import opened Sums
  import opened MintOrders
  import opened Events
  import opened Operations
  import opened OperationStores
  import opened BftBridges
  import opened Protocol
  import opened Backing

  // ---- Each order is minted at most once ----

  /** How often the order of operation `id` is accepted by the contract during a run. */
  ghost function MintCount(s: State, run: seq<Action>, id: nat): nat {
    if run == [] then 0 else
      var front, a := run[..|run| - 1], run[|run| - 1];
      MintCount(s, front, id) + if a.MintAction? && a.id == id && Next(Execution(s, front), a).Some? then 1 else 0
  }

  lemma MintedGrowth(s: State, a: Action)
    requires Next(s, a).Some?
    ensures Next(s, a).value.minted == s.minted + if a.MintAction? then {a.id} else {}
  {
    if IsTaskAction(a) {
      TaskActionFrame(s, a);
    }
  }

  /** The contract accepts an order only if it was not minted before. */
  lemma MintIsFirst(s: State, a: Action)
    requires Inv(s) && a.MintAction? && Next(s, a).Some?
    ensures a.id !in s.minted
  {
    AcceptedOrder(s, a.caller, a.id, a.feeOk);
  }

  lemma {:induction false} MintedAtMostOnce(s: State, run: seq<Action>, id: nat)
    requires Inv(s) && id !in s.minted
    ensures MintCount(s, run, id) == if id in Execution(s, run).minted then 1 else 0
    decreases |run|
  {
    if run != [] {
      var front, a := run[..|run| - 1], run[|run| - 1];
      MintedAtMostOnce(s, front, id);
      var before := Execution(s, front);
      if Next(before, a).Some? {
        MintedGrowth(before, a);
        assert a.MintAction? ==> a.id !in before.minted by {
          if a.MintAction? {
            EveryStateSound(s, front);
            MintIsFirst(before, a);
          }
        }
      }
    }
  }

  // ---- The store always stands for the history ----

  ghost predicate Faithful(s: State) {
    Represents(s.store, IsComplete, s.history)
  }

  lemma NewTaskFaithful(s: State, dst: Address, payload: OperationState, task: Task)
    requires Faithful(s) && !IsComplete(payload)
    ensures Faithful(NewTask(s, dst, payload, task))
  {
    CreateKeeps(s.store, IsComplete, s.history, dst, payload);
  }

  lemma StatusFaithful(s: State, id: nat, p: OperationState)
    requires Faithful(s)
    ensures Faithful(SetStatus(s, id, p))
  {
    UpdateKeeps(s.store, IsComplete, s.history, id, p);
  }

  /** The status a running task's operation has in the history. */
  lemma StatusInHistory(s: State, id: nat)
    requires Faithful(s) && id in s.store.incomplete
    ensures id < |s.history| && s.history[id].payload == s.store.incomplete[id].payload
    ensures !IsComplete(s.history[id].payload)
  {
  }

  // ---- Operations only move forward ----

  /**
   A later status of the same operation: same kind, token and wallet, further on, and nothing follows
   completion. The amount stays too, less the fee once it is paid out; the amount a mint event reports is claimed
   to be the operation's own only if `unique`, that is if no two operations of one wallet share a nonce.
   */
  predicate Advances(p: OperationState, p': OperationState, unique: bool) {
    p' == p || (
      && !IsComplete(p)
      && p.Deposit? == p'.Deposit?
      && Rank(p) < Rank(p')
      && TokenOf(p') == TokenOf(p)
      && (IsComplete(p') || RecipientOf(p') == RecipientOf(p))
      && match p'
         case Withdrawal(Transferred(_, _, _, _)) => AmountOf(p') <= AmountOf(p)
         case Deposit(DepositMinted(_, _, _)) => unique ==> AmountOf(p') == AmountOf(p)
         case _ => AmountOf(p') == AmountOf(p))
  }

  ghost predicate HistoryAdvances(h: History<OperationState>, h': History<OperationState>, unique: bool) {
    && |h| <= |h'|
    && forall id :: 0 <= id < |h| ==> h'[id].dst == h[id].dst && Advances(h[id].payload, h'[id].payload, unique)
  }

  /** A mint event stands for the order of one operation that was minted. */
  predicate EventIsOrder(m: MintedEventData, o: MintOrder) {
    && m.amount == o.amount && m.fromToken == o.srcToken && m.sender == o.sender
    && m.recipient == o.recipient && m.nonce == o.nonce
  }

  ghost predicate IsMintOf(s: State, m: MintedEventData, id: nat) {
    id in s.minted && id in s.orders && EventIsOrder(m, s.orders[id])
  }

  ghost predicate MintEventsExplained(s: State) {
    forall k :: 0 <= k < |s.bridge.events| && s.bridge.events[k].Minted? ==>
      exists id: nat :: IsMintOf(s, s.bridge.events[k].minted, id)
  }

  lemma StatusAdvances(s: State, id: nat, p: OperationState, unique: bool)
    requires Faithful(s) && id in s.store.incomplete && Advances(s.store.incomplete[id].payload, p, unique)
    ensures Faithful(SetStatus(s, id, p)) && HistoryAdvances(s.history, SetStatus(s, id, p).history, unique)
  {
    StatusInHistory(s, id);
    StatusFaithful(s, id, p);
  }

  lemma BurnFinishAdvances(s: State, id: nat, unique: bool)
    requires Sound(s) && Faithful(s) && BurnFinish(s, id).Some?
    ensures Faithful(BurnFinish(s, id).value) && HistoryAdvances(s.history, BurnFinish(s, id).value.history, unique)
  {
    TaskIsLive(s, id);
    StatusAdvances(s, id, Deposit(Icrc2Burned(BurntData(id, s.tasks[id].request, s.tasks[id].meta))), unique);
  }

  lemma PrepareSignAdvances(s: State, id: nat, unique: bool)
    requires Sound(s) && Faithful(s) && PrepareSign(s, id).Some?
    ensures Faithful(PrepareSign(s, id).value) && HistoryAdvances(s.history, PrepareSign(s, id).value.history, unique)
  {
    TaskIsLive(s, id);
    StatusAdvances(s, id, SignedStatus(s.tasks[id].order, s.tasks[id].isDeposit), unique);
  }

  lemma SendFinishAdvances(s: State, id: nat, txId: U256, unique: bool)
    requires Sound(s) && Faithful(s) && SendFinish(s, id, txId).Some?
    ensures Faithful(SendFinish(s, id, txId).value)
    ensures HistoryAdvances(s.history, SendFinish(s, id, txId).value.history, unique)
  {
    TaskIsLive(s, id);
    StatusAdvances(s, id, SentStatus(s.tasks[id], txId), unique);
  }

  lemma PayFinishAdvances(s: State, id: nat, ledgerTx: nat, unique: bool)
    requires Sound(s) && Faithful(s) && PayFinish(s, id, ledgerTx).Some?
    ensures Faithful(PayFinish(s, id, ledgerTx).value)
    ensures HistoryAdvances(s.history, PayFinish(s, id, ledgerTx).value.history, unique)
  {
    TaskIsLive(s, id);
    StatusAdvances(s, id, PaidStatus(s.tasks[id], id, ledgerTx), unique);
  }

  /** No two operations of one wallet share a nonce. */
  ghost predicate NoncesUnique(h: History<OperationState>) {
    forall i, j :: 0 <= i < j < |h| && h[i].dst == h[j].dst ==> Nonce(i) != Nonce(j)
  }

  /** So it is for the first 2^32 - 1 operations, and as long as no wallet's operations are that far apart. */
  lemma FewAreUnique(h: History<OperationState>)
    requires |h| <= NONCE_MODULUS
    ensures NoncesUnique(h)
  {
    forall i, j | 0 <= i < j < |h| ensures Nonce(i) != Nonce(j) {
      NonceCollision(i, j);
    }
  }

  /** Every operation in progress, and every signed order, is for the wallet the operation is listed under. */
  ghost predicate HistoryAddressed(h: History<OperationState>) {
    forall id :: 0 <= id < |h| ==> IsComplete(h[id].payload) || RecipientOf(h[id].payload) == Some(h[id].dst)
  }

  ghost predicate OrdersAddressed(s: State) {
    forall id :: id in s.orders ==> id < |s.history| && s.orders[id].recipient == s.history[id].dst
  }

  /** At most one operation of a wallet has a given nonce. */
  ghost predicate AtMostOne(h: History<OperationState>, dst: Address, nonce: U32) {
    forall i, j :: 0 <= i < |h| && 0 <= j < |h| && h[i].dst == dst && h[j].dst == dst ==>
      Nonce(i) == nonce && Nonce(j) == nonce ==> i == j
  }

  lemma UniqueIsAtMostOne(h: History<OperationState>, dst: Address, nonce: U32)
    requires NoncesUnique(h)
    ensures AtMostOne(h, dst, nonce)
  {
  }

  /** The operation a mint event is matched with belongs to the event's recipient. */
  lemma FoundIsOwned(s: State, k: nat)
    requires Sound(s) && Faithful(s) && RemoveMintOrder(s, k).Some?
    ensures var e := s.bridge.events[k].minted; var found := FindNonce(GetForAddress(s.store, e.recipient), e.nonce);
      found.Some? && found.value.0 < |s.history| && s.history[found.value.0].dst == e.recipient
  {
    var e := s.bridge.events[k].minted;
    var ops := GetForAddress(s.store, e.recipient);
    FindNonceFinds(ops, e.nonce);
    var (id, p) := FindNonce(ops, e.nonce).value;
    PresentIsStored(s.store, IdsOf(s.store.index, e.recipient), id, p);
    assert Listed(s.store.index, e.recipient, id);
  }

  /**
   If no other operation of the event's recipient has the event's nonce, the operation marked as minted is the
   one whose order was minted, and the event carries its amount.
   */
  lemma MarkedIsMinted(s: State, k: nat)
    requires Sound(s) && Faithful(s) && MintEventsExplained(s) && OrdersAddressed(s) && RemoveMintOrder(s, k).Some?
    requires AtMostOne(s.history, s.bridge.events[k].minted.recipient, s.bridge.events[k].minted.nonce)
    ensures var e := s.bridge.events[k].minted; var found := FindNonce(GetForAddress(s.store, e.recipient), e.nonce);
      && found.Some? && found.value.0 in s.store.incomplete
      && found.value.1 == s.store.incomplete[found.value.0].payload
      && found.value.1.Deposit? && found.value.1.deposit.MintOrderSent?
      && found.value.1.deposit.amount == e.amount && found.value.1.deposit.tokenId == e.fromToken
      && IsMintOf(s, e, found.value.0)
  {
    var e := s.bridge.events[k].minted;
    RemovedOrderIsSent(s, k);
    FoundIsOwned(s, k);
    var (id, p) := FindNonce(GetForAddress(s.store, e.recipient), e.nonce).value;
    var origin: nat :| IsMintOf(s, e, origin);
    assert Coherent(ViewOf(s, id), id) && Coherent(ViewOf(s, origin), origin);
    assert ViewOf(s, origin).order == Some(s.orders[origin]);
    assert id == origin;
  }

  lemma RemoveMintOrderAdvances(s: State, k: nat, unique: bool)
    requires Sound(s) && Faithful(s) && MintEventsExplained(s) && RemoveMintOrder(s, k).Some?
    requires unique ==> OrdersAddressed(s) && NoncesUnique(s.history)
    ensures Faithful(RemoveMintOrder(s, k).value)
    ensures HistoryAdvances(s.history, RemoveMintOrder(s, k).value.history, unique)
  {
    RemovedOrderIsSent(s, k);
    if unique {
      UniqueIsAtMostOne(s.history, s.bridge.events[k].minted.recipient, s.bridge.events[k].minted.nonce);
      MarkedIsMinted(s, k);
    }
    var e := s.bridge.events[k].minted;
    var (id, p) := FindNonce(GetForAddress(s.store, e.recipient), e.nonce).value;
    StatusAdvances(s, id, Deposit(DepositMinted(e.fromToken, e.amount, p.deposit.txId)), unique);
  }

  /** A new operation joins the history; the others stay as they are. */
  lemma NewTaskAdvances(s: State, dst: Address, payload: OperationState, task: Task, unique: bool)
    requires Faithful(s) && !IsComplete(payload)
    ensures Faithful(NewTask(s, dst, payload, task))
    ensures HistoryAdvances(s.history, NewTask(s, dst, payload, task).history, unique)
  {
    NewTaskFaithful(s, dst, payload, task);
  }

  lemma BurntAdvances(s: State, k: nat, e: BurntEventData, unique: bool)
    requires Faithful(s)
    ensures Faithful(CollectBurnt(s, k, e)) && HistoryAdvances(s.history, CollectBurnt(s, k, e).history, unique)
  {
    NewTaskAdvances(Claimed(s, k, e), e.sender, Withdrawal(WithdrawalScheduled(e)), PayIdle, unique);
  }

  lemma RequestAdvances(s: State, k: nat, r: Icrc2Burn, unique: bool)
    requires Faithful(s)
    ensures Faithful(CollectRequest(s, k, r)) && HistoryAdvances(s.history, CollectRequest(s, k, r).history, unique)
  {
    NewTaskAdvances(s.(collected := s.collected + {k}), r.recipient, Deposit(DepositScheduled(r)), BurnIdle, unique);
  }

  lemma CollectAdvances(s: State, k: nat, unique: bool)
    requires Faithful(s) && CollectEvent(s, k).Some?
    ensures Faithful(CollectEvent(s, k).value) && HistoryAdvances(s.history, CollectEvent(s, k).value.history, unique)
  {
    match s.bridge.events[k]
    case Burnt(e) => BurntAdvances(s, k, e, unique);
    case Notify(txSender, Some(request)) => RequestAdvances(s, k, Vetted(txSender, request), unique);
    case _ =>
  }

  predicate IsStatusAction(a: Action) {
    || a.BurnFinishAction? || a.PrepareSignAction? || a.SendFinishAction? || a.PayFinishAction?
    || a.RemoveOrderAction? || a.CollectAction?
  }

  lemma QuietAction(s: State, a: Action)
    requires !IsStatusAction(a) && Next(s, a).Some?
    ensures Next(s, a).value.store == s.store && Next(s, a).value.history == s.history
  {
  }

  lemma StatusActionAdvances(s: State, a: Action, unique: bool)
    requires Sound(s) && Faithful(s) && MintEventsExplained(s) && IsStatusAction(a) && Next(s, a).Some?
    requires unique ==> OrdersAddressed(s) && NoncesUnique(s.history)
    ensures Faithful(Next(s, a).value) && HistoryAdvances(s.history, Next(s, a).value.history, unique)
  {
    match a
    case BurnFinishAction(id) => BurnFinishAdvances(s, id, unique);
    case PrepareSignAction(id) => PrepareSignAdvances(s, id, unique);
    case SendFinishAction(id, txId) => SendFinishAdvances(s, id, txId, unique);
    case PayFinishAction(id, tx) => PayFinishAdvances(s, id, tx, unique);
    case RemoveOrderAction(k) => RemoveMintOrderAdvances(s, k, unique);
    case CollectAction(k) => CollectAdvances(s, k, unique);
  }

  lemma NextAdvances(s: State, s': State, a: Action, unique: bool)
    requires Sound(s) && Faithful(s) && MintEventsExplained(s) && Next(s, a) == Some(s')
    requires unique ==> OrdersAddressed(s) && NoncesUnique(s.history)
    ensures Faithful(s') && HistoryAdvances(s.history, s'.history, unique)
  {
    if IsStatusAction(a) {
      StatusActionAdvances(s, a, unique);
    } else {
      QuietAction(s, a);
    }
  }

  // ---- Every mint event is the mint of one operation's order ----

  lemma MintedEventExplained(s: State, s': State, id: nat, e: BridgeEvent)
    requires MintEventsExplained(s) && id in s.orders
    requires s'.orders == s.orders && s'.minted == s.minted + {id} && s'.bridge.events == s.bridge.events + [e]
    requires e.Minted? && EventIsOrder(e.minted, s.orders[id])
    ensures MintEventsExplained(s')
  {
    forall k | 0 <= k < |s'.bridge.events| && s'.bridge.events[k].Minted?
      ensures exists i: nat :: IsMintOf(s', s'.bridge.events[k].minted, i)
    {
      if k < |s.bridge.events| {
        var i: nat :| IsMintOf(s, s.bridge.events[k].minted, i);
        assert IsMintOf(s', s'.bridge.events[k].minted, i);
      } else {
        assert IsMintOf(s', s'.bridge.events[k].minted, id);
      }
    }
  }

  lemma MintedExplained(s: State, s': State, caller: Address, id: nat, feeOk: bool)
    requires Inv(s) && MintEventsExplained(s) && id in s.orders
    requires MintDecoded(s.bridge, caller, s.orders[id], s.bridge.minter, true, feeOk) == Some(s'.bridge)
    requires s'.orders == s.orders && s'.minted == s.minted + {id}
    ensures MintEventsExplained(s')
  {
    var e := MintedEvent(s.bridge, s.orders[id]);
    assert s'.bridge.events == s.bridge.events + [e] by {
      AcceptedOnce(s, s', caller, id, feeOk);
    }
    MintedEventExplained(s, s', id, e);
  }

  lemma MintExplained(s: State, caller: Address, id: nat, feeOk: bool)
    requires Inv(s) && MintEventsExplained(s) && MintOnChain(s, caller, id, feeOk).Some?
    ensures MintEventsExplained(MintOnChain(s, caller, id, feeOk).value)
  {
    MintedExplained(s, MintOnChain(s, caller, id, feeOk).value, caller, id, feeOk);
  }

  /** Later events, orders and mints leave the explanation of a mint event standing. */
  lemma ExplanationStays(s: State, s': State)
    requires MintEventsExplained(s)
    requires s.minted <= s'.minted
    requires forall id: nat :: id in s.minted && id in s.orders ==> id in s'.orders && s'.orders[id] == s.orders[id]
    requires s.bridge.events <= s'.bridge.events
    requires forall k :: |s.bridge.events| <= k < |s'.bridge.events| ==> !s'.bridge.events[k].Minted?
    ensures MintEventsExplained(s')
  {
    forall k | 0 <= k < |s'.bridge.events| && s'.bridge.events[k].Minted?
      ensures exists i: nat :: IsMintOf(s', s'.bridge.events[k].minted, i)
    {
      assert s'.bridge.events[k] == s.bridge.events[k];
      var i: nat :| IsMintOf(s, s.bridge.events[k].minted, i);
      assert IsMintOf(s', s'.bridge.events[k].minted, i);
    }
  }

  lemma OrdersGrow(s: State, a: Action)
    requires Next(s, a).Some? && !a.PrepareSignAction?
    ensures Next(s, a).value.orders == s.orders
  {
  }

  lemma EventsGrow(s: State, a: Action)
    requires Next(s, a).Some?
    ensures s.bridge.events <= Next(s, a).value.bridge.events
    ensures !a.MintAction? ==> forall k :: |s.bridge.events| <= k < |Next(s, a).value.bridge.events| ==>
      !Next(s, a).value.bridge.events[k].Minted?
  {
    if a.EvmAction? {
      ApplyLogs(s.bridge, a.call);
    }
  }

  lemma NextExplained(s: State, a: Action)
    requires Inv(s) && MintEventsExplained(s) && Next(s, a).Some?
    ensures MintEventsExplained(Next(s, a).value)
  {
    if a.MintAction? {
      MintExplained(s, a.caller, a.id, a.feeOk);
    } else {
      var s' := Next(s, a).value;
      EventsGrow(s, a);
      MintedGrowth(s, a);
      if a.PrepareSignAction? {
        TaskIsLive(s, a.id);
        assert a.id !in s.minted;
      } else {
        OrdersGrow(s, a);
      }
      ExplanationStays(s, s');
    }
  }

  // ---- Every operation stays its wallet's ----

  lemma NewIsAddressed(h: History<OperationState>, dst: Address, p: OperationState)
    requires HistoryAddressed(h) && RecipientOf(p) == Some(dst)
    ensures HistoryAddressed(h + [Entry(dst, p)])
  {
  }

  lemma CollectAddressed(s: State, k: nat)
    requires CollectEvent(s, k).Some? && HistoryAddressed(s.history)
    ensures HistoryAddressed(CollectEvent(s, k).value.history)
  {
    match s.bridge.events[k]
    case Burnt(e) => NewIsAddressed(s.history, e.sender, Withdrawal(WithdrawalScheduled(e)));
    case Notify(txSender, Some(request)) =>
      NewIsAddressed(s.history, request.recipient, Deposit(DepositScheduled(Vetted(txSender, request))));
    case _ =>
  }

  lemma AdvancesAddressed(h: History<OperationState>, h': History<OperationState>, unique: bool)
    requires HistoryAdvances(h, h', unique) && |h| == |h'| && HistoryAddressed(h)
    ensures HistoryAddressed(h')
  {
  }

  lemma SameLength(s: State, a: Action)
    requires Next(s, a).Some? && !a.CollectAction?
    ensures SameOwners(s.history, Next(s, a).value.history)
  {
    if IsTaskAction(a) {
      TaskActionFrame(s, a);
    }
  }

  /** The order being signed is for the operation's wallet. */
  lemma SignedForOwner(s: State, id: nat)
    requires Sound(s) && Faithful(s) && HistoryAddressed(s.history) && PrepareSign(s, id).Some?
    ensures id < |s.history| && s.tasks[id].order.recipient == s.history[id].dst
  {
    TaskIsLive(s, id);
    StatusInHistory(s, id);
  }

  ghost predicate Addressed(s: State) {
    HistoryAddressed(s.history) && OrdersAddressed(s)
  }

  lemma SigningAddressed(s: State, id: nat)
    requires Sound(s) && Faithful(s) && Addressed(s) && PrepareSign(s, id).Some?
    ensures OrdersAddressed(PrepareSign(s, id).value)
  {
    SignedForOwner(s, id);
    var s' := PrepareSign(s, id).value;
    assert s'.orders == s.orders[id := s.tasks[id].order] && SameOwners(s.history, s'.history);
  }

  lemma OrdersStayAddressed(s: State, s': State)
    requires OrdersAddressed(s) && s'.orders == s.orders && |s.history| <= |s'.history|
    requires forall i :: 0 <= i < |s.history| ==> s'.history[i].dst == s.history[i].dst
    ensures OrdersAddressed(s')
  {
  }

  lemma NextAddressed(s: State, s': State, a: Action, unique: bool)
    requires Sound(s) && Faithful(s) && Addressed(s) && Next(s, a) == Some(s')
    requires HistoryAdvances(s.history, s'.history, unique)
    ensures Addressed(s')
  {
    if a.PrepareSignAction? {
      SigningAddressed(s, a.id);
    } else {
      OrdersGrow(s, a);
      OrdersStayAddressed(s, s');
    }
    if a.CollectAction? {
      CollectAddressed(s, a.event);
    } else {
      SameLength(s, a);
      AdvancesAddressed(s.history, s'.history, unique);
    }
  }

  // ---- Whole runs ----

  ghost predicate Explained(s: State) {
    Inv(s) && Faithful(s) && MintEventsExplained(s) && Addressed(s)
  }

  /** Operations are added, and keep their wallets; so nonces that are unique later were unique before. */
  lemma HistoryGrows(s: State, a: Action)
    requires Next(s, a).Some?
    ensures NoncesUnique(Next(s, a).value.history) ==> NoncesUnique(s.history)
  {
    if !a.CollectAction? {
      SameLength(s, a);
    }
  }

  lemma AdvancesTransitive(h: History<OperationState>, h': History<OperationState>, h'': History<OperationState>,
                           unique: bool)
    requires HistoryAdvances(h, h', unique) && HistoryAdvances(h', h'', unique)
    ensures HistoryAdvances(h, h'', unique)
  {
  }

  /**
   Over every run each operation's status only climbs its own path, keeps its kind, token and wallet, and never
   leaves completion; its amount is kept to the end if no two operations of one wallet share a nonce; and the
   store always stands for that history.
   */
  lemma {:induction false} EveryRunAdvances(s: State, run: seq<Action>, unique: bool)
    requires Explained(s) && (unique ==> NoncesUnique(Execution(s, run).history))
    ensures Explained(Execution(s, run)) && HistoryAdvances(s.history, Execution(s, run).history, unique)
    decreases |run|
  {
    if run != [] {
      var front, a := run[..|run| - 1], run[|run| - 1];
      var before := Execution(s, front);
      if Next(before, a).Some? {
        HistoryGrows(before, a);
        EveryRunAdvances(s, front, unique);
        var after := Next(before, a).value;
        NextKeeps(before, a);
        NextAdvances(before, after, a, unique);
        NextExplained(before, a);
        NextAddressed(before, after, a, unique);
        AdvancesTransitive(s.history, before.history, after.history, unique);
      } else {
        EveryRunAdvances(s, front, unique);
      }
    }
  }

  lemma GenesisExplained(self: Address, minter: Address, canister: Id256, chainId: nat, maxLogSize: nat)
    requires self != ZERO_ADDRESS
    ensures Explained(Genesis(self, minter, canister, chainId, maxLogSize))
  {
    GenesisSound(self, minter, canister, chainId, maxLogSize);
    EveryRunRepresents(maxLogSize, IsComplete, []);
  }

  lemma {:induction false} ExecutionSplit(s: State, first: seq<Action>, second: seq<Action>)
    ensures Execution(s, first + second) == Execution(Execution(s, first), second)
    decreases |second|
  {
    if second == [] {
      assert first + second == first;
    } else {
      var front := second[..|second| - 1];
      ExecutionSplit(s, first, front);
      assert (first + second)[..|first + second| - 1] == first + front;
    }
  }

  lemma Execute1(s: State, a: Action)
    ensures Execution(s, [a]) == if Next(s, a).Some? then Next(s, a).value else s
  {
    assert [a][..0] == [];
    assert Execution(s, []) == s;
  }

  lemma Execute2(s: State, a: Action, b: Action)
    ensures Execution(s, [a, b]) == Execution(Execution(s, [a]), [b])
  {
    ExecutionSplit(s, [a], [b]);
    assert [a] + [b] == [a, b];
  }

  lemma Execute3(s: State, a: Action, b: Action, c: Action)
    ensures Execution(s, [a, b, c]) == Execution(Execution(s, [a, b]), [c])
  {
    ExecutionSplit(s, [a, b], [c]);
    assert [a, b] + [c] == [a, b, c];
  }

  lemma Steps2(s: State, a: Action, s1: State, b: Action, s2: State)
    requires Next(s, a) == Some(s1) && Next(s1, b) == Some(s2)
    ensures Execution(s, [a, b]) == s2
  {
    Execute2(s, a, b);
    Execute1(s, a);
    Execute1(s1, b);
  }

  lemma Steps3(s: State, a: Action, s1: State, b: Action, s2: State, c: Action, s3: State)
    requires Next(s, a) == Some(s1) && Next(s1, b) == Some(s2) && Next(s2, c) == Some(s3)
    ensures Execution(s, [a, b, c]) == s3
  {
    Execute3(s, a, b, c);
    Steps2(s, a, s1, b, s2);
    Execute1(s2, c);
  }

  /** Between any two states of a run, every operation that was there has stayed or moved forward. */
  lemma LaterStatesAdvance(self: Address, minter: Address, canister: Id256, chainId: nat, maxLogSize: nat,
                           run: seq<Action>, more: seq<Action>, unique: bool)
    requires self != ZERO_ADDRESS
    requires unique ==>
      NoncesUnique(Execution(Genesis(self, minter, canister, chainId, maxLogSize), run + more).history)
    ensures var start := Genesis(self, minter, canister, chainId, maxLogSize);
      && Faithful(Execution(start, run))
      && HistoryAdvances(Execution(start, run).history, Execution(start, run + more).history, unique)
  {
    var start := Genesis(self, minter, canister, chainId, maxLogSize);
    GenesisExplained(self, minter, canister, chainId, maxLogSize);
    EveryRunAdvances(start, run, false);
    ExecutionSplit(start, run, more);
    EveryRunAdvances(Execution(start, run), more, unique);
  }
}
