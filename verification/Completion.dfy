/**
 Which operations complete, over every run: a completed deposit was minted, and an operation whose order names no
 fee payer never completes, even if its order is minted.
 */
module Completion {
  import opened Words
  import opened Sums
  import opened MintOrders
  import opened Events
  import opened Operations
  import opened OperationStores
  import opened Protocol
  import opened Backing
  import opened Provenance

  // ---- Nothing is minted for the zero address ----

  ghost predicate MintedForWallets(s: State) {
    forall id: nat :: id in s.minted ==> id in s.orders && s.orders[id].recipient != ZERO_ADDRESS
  }

  lemma NextMintsForWallets(s: State, s': State, a: Action)
    requires Sound(s) && MintedForWallets(s) && Next(s, a) == Some(s')
    ensures MintedForWallets(s')
  {
    MintedGrowth(s, a);
    if a.PrepareSignAction? {
      TaskIsLive(s, a.id);
      assert a.id !in s.minted;
    } else {
      OrdersGrow(s, a);
    }
  }

  lemma {:induction false} EveryRunMintsForWallets(s: State, run: seq<Action>)
    requires Inv(s) && MintedForWallets(s)
    ensures MintedForWallets(Execution(s, run))
    decreases |run|
  {
    if run != [] {
      var front, a := run[..|run| - 1], run[|run| - 1];
      EveryRunMintsForWallets(s, front);
      var before := Execution(s, front);
      if Next(before, a).Some? {
        EveryStateSound(s, front);
        NextMintsForWallets(before, Next(before, a).value, a);
      }
    }
  }

  /** An order for the zero address, such as one for a deposit out of the minter's own account, is never minted. */
  lemma ZeroRecipientIsNeverMinted(self: Address, minter: Address, canister: Id256, chainId: nat, maxLogSize: nat,
                                   run: seq<Action>, id: nat)
    requires self != ZERO_ADDRESS
    ensures var s := Execution(Genesis(self, minter, canister, chainId, maxLogSize), run);
      id in s.orders && s.orders[id].recipient == ZERO_ADDRESS ==> id !in s.minted
  {
    GenesisSound(self, minter, canister, chainId, maxLogSize);
    EveryRunMintsForWallets(Genesis(self, minter, canister, chainId, maxLogSize), run);
  }

  // ---- Which operation a mint event is matched with ----

  /** The operation is the oldest of its wallet's retained ones with this nonce. */
  ghost predicate IsOldest(s: State, dst: Address, nonce: U32, id: nat) {
    && IsMatch(s, dst, nonce, id)
    && forall i: nat :: IsMatch(s, dst, nonce, i) ==> id <= i
  }

  ghost predicate IsMatch(s: State, dst: Address, nonce: U32, id: nat) {
    id < |s.history| && Retained(s.store, id) && s.history[id].dst == dst && Nonce(id) == nonce
  }

  lemma {:induction false} FirstIsLeast(st: Store<OperationState>, ids: seq<nat>, nonce: U32, j: nat)
    requires Ascending(ids) && j in ids && Lookup(st, j).Some? && Nonce(j) == nonce
    ensures FindNonce(Present(st, ids), nonce).Some? && FindNonce(Present(st, ids), nonce).value.0 <= j
  {
    var rest := ids[1..];
    if ids[0] != j {
      assert j in rest;
      FirstIsLeast(st, rest, nonce, j);
      var k :| 0 <= k < |ids| && ids[k] == j;
      assert ids[0] < ids[k];
    }
  }

  /** What is found for a wallet and a nonce is the oldest retained operation, if there is one. */
  lemma FoundIsOldest(s: State, dst: Address, nonce: U32, id: nat)
    requires Faithful(s) && FindNonce(GetForAddress(s.store, dst), nonce).Some?
    ensures FindNonce(GetForAddress(s.store, dst), nonce).value.0 == id <==> IsOldest(s, dst, nonce, id)
  {
    var ids, found := IdsOf(s.store.index, dst), FindNonce(GetForAddress(s.store, dst), nonce).value;
    FindNonceFinds(GetForAddress(s.store, dst), nonce);
    PresentIsStored(s.store, ids, found.0, found.1);
    assert Listed(s.store.index, dst, found.0);
    assert IsMatch(s, dst, nonce, found.0);
    forall i: nat | IsMatch(s, dst, nonce, i) ensures found.0 <= i {
      assert Listed(s.store.index, dst, i);
      FirstIsLeast(s.store, ids, nonce, i);
    }
  }

  /**
   So the operation that a mint event completes is the one whose order was minted exactly if that one is the
   oldest retained operation of its wallet with its nonce.
   */
  lemma MarkedExactly(s: State, k: nat, origin: nat)
    requires Sound(s) && Faithful(s) && RemoveMintOrder(s, k).Some? && IsMintOf(s, s.bridge.events[k].minted, origin)
    ensures var e := s.bridge.events[k].minted; var found := FindNonce(GetForAddress(s.store, e.recipient), e.nonce);
      found.Some? && (found.value.0 == origin <==> IsOldest(s, e.recipient, e.nonce, origin))
  {
    RemovedOrderIsSent(s, k);
    FoundIsOldest(s, s.bridge.events[k].minted.recipient, s.bridge.events[k].minted.nonce, origin);
  }

  /**
   An older deposit of the wallet in the same token, with the same nonce and its order sent, is completed by the
   mint event of a younger one, with the younger one's amount, whether or not its own order is ever minted.
   */
  lemma OlderIsCompleted(s: State, k: nat, older: nat, amount: U256, o: MintOrder, txId: U256)
    requires Sound(s) && Faithful(s) && k in s.collected && s.bridge.events[k].Minted?
    requires var e := s.bridge.events[k].minted;
      && IsOldest(s, e.recipient, e.nonce, older)
      && HasStatus(s, older, Deposit(MintOrderSent(e.fromToken, amount, o, txId)))
    ensures var e := s.bridge.events[k].minted;
      RemoveMintOrder(s, k) == Some(SetStatus(s, older, Deposit(DepositMinted(e.fromToken, e.amount, txId))))
  {
    var e := s.bridge.events[k].minted;
    var ids := IdsOf(s.store.index, e.recipient);
    assert Listed(s.store.index, e.recipient, older);
    FirstIsLeast(s.store, ids, e.nonce, older);
    FoundIsOldest(s, e.recipient, e.nonce, older);
    var found := FindNonce(GetForAddress(s.store, e.recipient), e.nonce).value;
    FindNonceFinds(GetForAddress(s.store, e.recipient), e.nonce);
    PresentIsStored(s.store, ids, found.0, found.1);
  }

  // ---- A completed deposit was minted ----

  predicate IsDepositMinted(p: OperationState) {
    p.Deposit? && p.deposit.DepositMinted?
  }

  /** The operation's own order was minted, for the token and the amount that its status reports. */
  ghost predicate IsMarked(s: State, id: nat)
    requires id < |s.history|
  {
    && id in s.minted && id in s.orders
    && s.orders[id].srcToken == TokenOf(s.history[id].payload) && s.orders[id].amount == AmountOf(s.history[id].payload)
  }

  ghost predicate MarksMinted(s: State) {
    forall id: nat :: id < |s.history| && IsDepositMinted(s.history[id].payload) ==> IsMarked(s, id)
  }

  /** No operation of `h'` is newly marked. */
  ghost predicate NoNewMarks(h: History<OperationState>, h': History<OperationState>) {
    forall i :: 0 <= i < |h'| && IsDepositMinted(h'[i].payload) ==> i < |h| && h'[i] == h[i]
  }

  lemma StatusMarks(s: State, id: nat, p: OperationState)
    requires !IsDepositMinted(p)
    ensures NoNewMarks(s.history, SetStatus(s, id, p).history)
  {
  }

  lemma FinishMarks(s: State, a: Action)
    requires Next(s, a).Some?
    requires a.BurnFinishAction? || a.PrepareSignAction? || a.SendFinishAction? || a.PayFinishAction?
    ensures NoNewMarks(s.history, Next(s, a).value.history)
  {
    var task := s.tasks[a.id];
    match a
    case BurnFinishAction(id) => StatusMarks(s, id, Deposit(Icrc2Burned(BurntData(id, task.request, task.meta))));
    case PrepareSignAction(id) => StatusMarks(s, id, SignedStatus(task.order, task.isDeposit));
    case SendFinishAction(id, txId) => StatusMarks(s, id, SentStatus(task, txId));
    case PayFinishAction(id, tx) => StatusMarks(s, id, PaidStatus(task, id, tx));
  }

  lemma CollectMarks(s: State, k: nat)
    requires CollectEvent(s, k).Some?
    ensures NoNewMarks(s.history, CollectEvent(s, k).value.history)
  {
  }

  lemma OtherMarks(s: State, a: Action)
    requires Next(s, a).Some? && !a.RemoveOrderAction?
    ensures NoNewMarks(s.history, Next(s, a).value.history)
  {
    if a.CollectAction? {
      CollectMarks(s, a.event);
    } else if IsStatusAction(a) {
      FinishMarks(s, a);
    } else {
      QuietAction(s, a);
    }
  }

  lemma MarksStay(s: State, s': State)
    requires MarksMinted(s) && NoNewMarks(s.history, s'.history) && s.minted <= s'.minted
    requires forall id: nat :: id in s.orders && id < |s.history| && IsComplete(s.history[id].payload) ==>
      id in s'.orders && s'.orders[id] == s.orders[id]
    ensures MarksMinted(s')
  {
    forall id: nat | id < |s'.history| && IsDepositMinted(s'.history[id].payload) ensures IsMarked(s', id) {
      assert IsMarked(s, id);
    }
  }

  lemma MarkedOneMore(s: State, s': State, id: nat, p: OperationState)
    requires MarksMinted(s) && IsDepositMinted(p) && s'.orders == s.orders && s'.minted == s.minted
    requires s'.history == Amend(s.history, IsComplete, id, p)
    requires id in s.minted && id in s.orders
    requires s.orders[id].srcToken == TokenOf(p) && s.orders[id].amount == AmountOf(p)
    ensures MarksMinted(s')
  {
    forall i: nat | i < |s'.history| && IsDepositMinted(s'.history[i].payload) ensures IsMarked(s', i) {
      if s'.history[i] == s.history[i] {
        assert IsMarked(s, i);
      }
    }
  }

  lemma RemoveMarks(s: State, k: nat)
    requires Explained(s) && MarksMinted(s) && NoncesUnique(s.history) && RemoveMintOrder(s, k).Some?
    ensures MarksMinted(RemoveMintOrder(s, k).value)
  {
    var e := s.bridge.events[k].minted;
    UniqueIsAtMostOne(s.history, e.recipient, e.nonce);
    MarkedIsMinted(s, k);
    var (id, p) := FindNonce(GetForAddress(s.store, e.recipient), e.nonce).value;
    MarkedOneMore(s, RemoveMintOrder(s, k).value, id, Deposit(DepositMinted(e.fromToken, e.amount, p.deposit.txId)));
  }

  lemma SigningMarks(s: State, id: nat)
    requires Sound(s) && Faithful(s) && MarksMinted(s) && PrepareSign(s, id).Some?
    requires NoNewMarks(s.history, PrepareSign(s, id).value.history)
    ensures MarksMinted(PrepareSign(s, id).value)
  {
    TaskIsLive(s, id);
    StatusInHistory(s, id);
    MarksStay(s, PrepareSign(s, id).value);
  }

  lemma NextMarks(s: State, s': State, a: Action)
    requires Explained(s) && MarksMinted(s) && NoncesUnique(s.history) && Next(s, a) == Some(s')
    ensures MarksMinted(s')
  {
    if a.RemoveOrderAction? {
      RemoveMarks(s, a.event);
    } else {
      OtherMarks(s, a);
      if a.PrepareSignAction? {
        SigningMarks(s, a.id);
      } else {
        MintedGrowth(s, a);
        OrdersGrow(s, a);
        MarksStay(s, s');
      }
    }
  }

  lemma {:induction false} EveryRunMarks(s: State, run: seq<Action>)
    requires Explained(s) && MarksMinted(s) && NoncesUnique(Execution(s, run).history)
    ensures MarksMinted(Execution(s, run))
    decreases |run|
  {
    if run != [] {
      var front, a := run[..|run| - 1], run[|run| - 1];
      var before := Execution(s, front);
      if Next(before, a).Some? {
        HistoryGrows(before, a);
        EveryRunMarks(s, front);
        EveryRunAdvances(s, front, false);
        NextMarks(before, Next(before, a).value, a);
      } else {
        EveryRunMarks(s, front);
      }
    }
  }

  /**
   Over every run, if no two operations of one wallet share a nonce: a deposit is completed only after its own
   order was minted.
   */
  lemma CompletedIsMinted(self: Address, minter: Address, canister: Id256, chainId: nat, maxLogSize: nat,
                          run: seq<Action>, id: nat)
    requires self != ZERO_ADDRESS
    requires var s := Execution(Genesis(self, minter, canister, chainId, maxLogSize), run);
      NoncesUnique(s.history) && id < |s.history| && IsDepositMinted(s.history[id].payload)
    ensures IsMarked(Execution(Genesis(self, minter, canister, chainId, maxLogSize), run), id)
  {
    GenesisExplained(self, minter, canister, chainId, maxLogSize);
    EveryRunMarks(Genesis(self, minter, canister, chainId, maxLogSize), run);
  }

  // ---- An order that names no fee payer ----

  /** A signed deposit or refund whose order names no fee payer. */
  predicate IsUnpaidSigned(p: OperationState) {
    match p
    case Deposit(MintOrderSigned(_, _, o)) => o.feePayer == ZERO_ADDRESS
    case Withdrawal(RefundMintOrderSigned(_, _, o)) => o.feePayer == ZERO_ADDRESS
    case _ => false
  }

  ghost predicate HasStatus(s: State, id: nat, p: OperationState) {
    id in s.store.incomplete && s.store.incomplete[id].payload == p
  }

  /** Setting the status of another operation. */
  lemma OtherStatusStays(s: State, other: nat, next: OperationState, id: nat, p: OperationState)
    requires StoreCoherent(s.store) && other in s.store.incomplete && other != id && !IsRefundMinted(next)
    requires HasStatus(s, id, p)
    ensures HasStatus(SetStatus(s, other, next), id, p)
  {
    StatusEffect(s, other, next);
    assert ViewOf(SetStatus(s, other, next), id) == ViewOf(s, id);
  }

  lemma DepositFinishLeaves(s: State, a: Action, id: nat, p: OperationState)
    requires Sound(s) && Next(s, a).Some? && HasStatus(s, id, p) && IsUnpaidSigned(p)
    requires a.BurnFinishAction? || a.PrepareSignAction?
    ensures HasStatus(Next(s, a).value, id, p)
  {
    TaskIsLive(s, a.id);
    var task := s.tasks[a.id];
    var next := if a.BurnFinishAction? then Deposit(Icrc2Burned(BurntData(a.id, task.request, task.meta)))
                else SignedStatus(task.order, task.isDeposit);
    OtherStatusStays(s, a.id, next, id, p);
  }

  lemma SendFinishLeaves(s: State, i: nat, txId: U256, id: nat, p: OperationState)
    requires Sound(s) && SendFinish(s, i, txId).Some? && HasStatus(s, id, p) && IsUnpaidSigned(p)
    ensures HasStatus(SendFinish(s, i, txId).value, id, p)
  {
    TaskIsLive(s, i);
    OtherStatusStays(s, i, SentStatus(s.tasks[i], txId), id, p);
  }

  lemma PayFinishLeaves(s: State, i: nat, tx: nat, id: nat, p: OperationState)
    requires Sound(s) && PayFinish(s, i, tx).Some? && HasStatus(s, id, p) && IsUnpaidSigned(p)
    ensures HasStatus(PayFinish(s, i, tx).value, id, p)
  {
    TaskIsLive(s, i);
    OtherStatusStays(s, i, PaidStatus(s.tasks[i], i, tx), id, p);
  }

  lemma NextLeavesUnpaid(s: State, a: Action, id: nat, p: OperationState)
    requires Sound(s) && Next(s, a).Some? && HasStatus(s, id, p) && IsUnpaidSigned(p)
    ensures HasStatus(Next(s, a).value, id, p)
  {
    if a.CollectAction? {
      CollectLeavesOthers(s, a.event, id, p);
    } else if a.RemoveOrderAction? {
      RemovedOrderIsSent(s, a.event);
      var e := s.bridge.events[a.event].minted;
      var (i, q) := FindNonce(GetForAddress(s.store, e.recipient), e.nonce).value;
      OtherStatusStays(s, i, Deposit(DepositMinted(e.fromToken, e.amount, q.deposit.txId)), id, p);
    } else if a.SendFinishAction? {
      SendFinishLeaves(s, a.id, a.txId, id, p);
    } else if a.PayFinishAction? {
      PayFinishLeaves(s, a.id, a.ledgerTx, id, p);
    } else if IsStatusAction(a) {
      DepositFinishLeaves(s, a, id, p);
    } else {
      QuietAction(s, a);
    }
  }

  lemma CollectLeavesOthers(s: State, k: nat, id: nat, p: OperationState)
    requires Sound(s) && CollectEvent(s, k).Some? && HasStatus(s, id, p)
    ensures HasStatus(CollectEvent(s, k).value, id, p)
  {
    assert id < s.store.next;
    match s.bridge.events[k]
    case Burnt(e) => BurntViews(s, k, e); assert ViewOf(CollectBurnt(s, k, e), id) == ViewOf(s, id);
    case Notify(txSender, Some(r)) =>
      var r' := Vetted(txSender, r);
      RequestViews(s, k, r');
      assert ViewOf(CollectRequest(s, k, r'), id) == ViewOf(s, id);
    case _ =>
  }

  /**
   Over every run, an operation whose signed order names no fee payer keeps that very status: a refund always,
   and a deposit even after its order was minted, since a mint event completes only orders the canister sent.
   */
  lemma {:induction false} UnpaidStaysSigned(s: State, run: seq<Action>, id: nat)
    requires Inv(s) && id in s.store.incomplete && IsUnpaidSigned(s.store.incomplete[id].payload)
    ensures HasStatus(Execution(s, run), id, s.store.incomplete[id].payload)
    decreases |run|
  {
    if run != [] {
      var front, a := run[..|run| - 1], run[|run| - 1];
      UnpaidStaysSigned(s, front, id);
      var before := Execution(s, front);
      if Next(before, a).Some? {
        EveryStateSound(s, front);
        NextLeavesUnpaid(before, a, id, s.store.incomplete[id].payload);
      }
    }
  }

  /** And a refund, once signed, is always of this kind. */
  lemma RefundsAreUnpaid(s: State, id: nat)
    requires Inv(s) && id in s.store.incomplete
    requires s.store.incomplete[id].payload.Withdrawal?
    requires s.store.incomplete[id].payload.withdrawal.RefundMintOrderSigned?
    ensures IsUnpaidSigned(s.store.incomplete[id].payload)
  {
    assert Coherent(ViewOf(s, id), id);
  }
}
