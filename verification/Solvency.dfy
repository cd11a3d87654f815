/**
 When the wrapped tokens and everything the bridge owes are backed by its custody, over every run: exactly if what
 was claimed without giving anything up is no more than what the minter was given.
 */
module Solvency {
  import opened Words
  import opened Sums
  import opened MintOrders
  import opened Events
  import opened Operations
  import opened OperationStores
  import opened BftBridges
  import opened Protocol
  import opened Backing
  import opened Provenance
  import Icrc2

  // ---- What makes a claim that nothing backs ----

  /** What one step pays out to the minter's main account itself. */
  function PaidToItself(s: State, a: Action, t: Id256): nat {
    if !a.PayLedgerAction? || a.id !in s.tasks || !s.tasks[a.id].PayAwaiting? then 0 else
      var e := s.tasks[a.id].event;
      var o := Icrc2.Mint(Get(s.custody, e.toToken), true, e.amount, true, a.first, a.refresh, a.second);
      if e.toToken == t && e.recipientId == s.canister && o.result.Ok? then o.result.value.amount else 0
  }

  /** What one step gives the minter outside any deposit. */
  function Gift(s: State, a: Action, t: Id256): nat {
    if a.DonateAction? then if a.token == t then a.amount else 0 else PaidToItself(s, a, t)
  }

  /** What a run gives the minter in token `t` outside any deposit. */
  ghost function Given(s: State, run: seq<Action>, t: Id256): nat {
    if run == [] then 0 else
      var front, a := run[..|run| - 1], run[|run| - 1];
      Given(s, front, t) + Gift(Execution(s, front), a, t)
  }

  /** The burns of `t` that collecting event `k` claims a second time. */
  function ClaimedAgain(s: State, k: nat, t: Id256): nat {
    if k in s.collected && k < |s.bridge.events| then PendingBurn(s.bridge.events[k], t) else 0
  }

  /** The burns of `t` that a run collects although they were collected before. */
  ghost function Recollected(s: State, run: seq<Action>, t: Id256): nat {
    if run == [] then 0 else
      var front, a := run[..|run| - 1], run[|run| - 1];
      var before := Execution(s, front);
      Recollected(s, front, t) + if a.CollectAction? then ClaimedAgain(before, a.event, t) else 0
  }

  /** What one accepted step burns in tokens the bridge did not deploy: all of it is claimed from token id zero. */
  ghost function ForeignBurn(s: State, a: Action, t: Id256): nat {
    if Next(s, a).Some? && a.EvmAction? && a.call.BurnCall? && a.call.fromErc20 !in s.bridge.tokens && t == ZERO_ID
    then a.call.amount else 0
  }

  /** What a run burns in such tokens. */
  ghost function ForeignBurnt(s: State, run: seq<Action>, t: Id256): nat {
    if run == [] then 0 else
      var front, a := run[..|run| - 1], run[|run| - 1];
      ForeignBurnt(s, front, t) + ForeignBurn(Execution(s, front), a, t)
  }

  /** What one step takes as a deposit from the minter's own main account: the amount, and the fee it costs. */
  function OwnDeposit(s: State, a: Action, t: Id256): nat {
    if !a.BurnLedgerAction? || a.id !in s.tasks || !s.tasks[a.id].BurnAwaiting? then 0 else
      var r := s.tasks[a.id].request;
      var custody, source := Get(s.custody, r.token), SourceOf(s.canister, r);
      var o := Icrc2.Burn(custody, source, r.amount, true, a.burnFirst, a.refresh, a.burnSecond);
      if r.token == t && source.MainAccount? && o.result.Ok? then r.amount + (custody - o.custody) else 0
  }

  /** What a run takes so. */
  ghost function OwnDeposited(s: State, run: seq<Action>, t: Id256): nat {
    if run == [] then 0 else
      var front, a := run[..|run| - 1], run[|run| - 1];
      OwnDeposited(s, front, t) + OwnDeposit(Execution(s, front), a, t)
  }

  // ---- The accounts of a run ----

  /** All that a step claims without giving anything up. */
  ghost function Unbacked(s: State, a: Action, t: Id256): nat {
    ForeignBurn(s, a, t) + OwnDeposit(s, a, t) + if a.CollectAction? then ClaimedAgain(s, a.event, t) else 0
  }

  /** What a step does to the accounts. */
  ghost predicate Accounted(s: State, s': State, a: Action, t: Id256) {
    && Get(s'.surplus, t) == Get(s.surplus, t) + Gift(s, a, t)
    && Get(s'.unbacked, t) == Get(s.unbacked, t) + Unbacked(s, a, t)
    && s'.collected == s.collected + if a.CollectAction? then {a.event} else {}
  }

  lemma CollectAccounts(s: State, k: nat, t: Id256)
    requires CollectEvent(s, k).Some?
    ensures Accounted(s, CollectEvent(s, k).value, CollectAction(k), t)
  {
  }

  lemma EvmAccounts(s: State, c: BridgeCall, t: Id256)
    requires EvmCall(s, c).Some?
    ensures Accounted(s, EvmCall(s, c).value, EvmAction(c), t)
  {
  }

  lemma BurnLedgerAccounts(s: State, s': State, a: Action, t: Id256)
    requires a.BurnLedgerAction? && Next(s, a) == Some(s')
    ensures Accounted(s, s', a, t)
  {
    TaskActionFrame(s, a);
  }

  lemma PayLedgerAccounts(s: State, s': State, a: Action, t: Id256)
    requires a.PayLedgerAction? && Next(s, a) == Some(s')
    ensures Accounted(s, s', a, t)
  {
    TaskActionFrame(s, a);
  }

  /** A step that neither gives nor claims anything for nothing. */
  lemma QuietAccounts(s: State, s': State, a: Action, t: Id256)
    requires !a.DonateAction? && !a.PayLedgerAction? && !a.BurnLedgerAction? && !a.EvmAction? && !a.CollectAction?
    requires SameBooks(s, s') && s'.collected == s.collected
    ensures Accounted(s, s', a, t)
  {
  }

  lemma QuietBooks(s: State, a: Action)
    requires !a.DonateAction? && !a.PayLedgerAction? && !a.BurnLedgerAction? && !a.EvmAction? && !a.CollectAction?
    requires Next(s, a).Some?
    ensures SameBooks(s, Next(s, a).value) && Next(s, a).value.collected == s.collected
  {
    if IsTaskAction(a) {
      TaskActionFrame(s, a);
      TaskActionAccounts(s, a);
    }
  }

  lemma StepAccounts(s: State, s': State, a: Action, t: Id256)
    requires Next(s, a) == Some(s')
    ensures Accounted(s, s', a, t)
  {
    match a
    case DonateAction(_, _) =>
    case EvmAction(c) => EvmAccounts(s, c, t);
    case CollectAction(k) => CollectAccounts(s, k, t);
    case BurnLedgerAction(_, _, _, _, _) => BurnLedgerAccounts(s, s', a, t);
    case PayLedgerAction(_, _, _, _) => PayLedgerAccounts(s, s', a, t);
    case _ => QuietBooks(s, a); QuietAccounts(s, s', a, t);
  }

  lemma {:induction false} RunAccounts(s: State, run: seq<Action>, t: Id256)
    ensures Get(Execution(s, run).surplus, t) == Get(s.surplus, t) + Given(s, run, t)
    ensures Get(Execution(s, run).unbacked, t)
         == Get(s.unbacked, t) + Recollected(s, run, t) + ForeignBurnt(s, run, t) + OwnDeposited(s, run, t)
    decreases |run|
  {
    if run != [] {
      var front, a := run[..|run| - 1], run[|run| - 1];
      RunAccounts(s, front, t);
      var before := Execution(s, front);
      if Next(before, a).Some? {
        StepAccounts(before, Next(before, a).value, a, t);
      } else {
        assert Unbacked(before, a, t) == 0 && Gift(before, a, t) == 0;
      }
    }
  }

  /**
   Over every run and for every token: it is backed exactly if no more than what the minter was given outside any
   deposit is claimed from it for nothing, that is by its burns collected again, by deposits out of the minter's own
   main account, and for token id zero by the burns of tokens the bridge did not deploy.
   */
  lemma BackedExactly(self: Address, minter: Address, canister: Id256, chainId: nat, maxLogSize: nat, run: seq<Action>,
                      t: Id256)
    requires self != ZERO_ADDRESS
    ensures var start := Genesis(self, minter, canister, chainId, maxLogSize); var s := Execution(start, run);
      Get(s.custody, t) >= Liabilities(s, t)
      <==> Recollected(start, run, t) + ForeignBurnt(start, run, t) + OwnDeposited(start, run, t)
           <= Given(start, run, t)
  {
    Conservation(self, minter, canister, chainId, maxLogSize, run, t);
    RunAccounts(Genesis(self, minter, canister, chainId, maxLogSize), run, t);
  }

  // ---- Runs without such claims ----

  ghost predicate CollectsOnce(run: seq<Action>) {
    forall i, j :: 0 <= i < j < |run| && run[i].CollectAction? && run[j].CollectAction? ==> run[i].event != run[j].event
  }

  /** No step burns a token the bridge did not deploy. */
  ghost predicate BurnsOwnTokens(s: State, run: seq<Action>) {
    forall i :: 0 <= i < |run| && run[i].EvmAction? && run[i].call.BurnCall? ==>
      var before := Execution(s, run[..i]); Next(before, run[i]).Some? ==> run[i].call.fromErc20 in before.bridge.tokens
  }

  /** The request takes from the minter's main account, which spends for itself: its recipient is the zero address. */
  predicate IsOwnRequest(canister: Id256, r: Icrc2Burn) {
    SourceOf(canister, r) == Icrc2.MainAccount(true)
  }

  predicate IsOwnNotification(canister: Id256, e: BridgeEvent) {
    e.Notify? && e.userData.Some? && IsOwnRequest(canister, e.userData.value)
  }

  lemma OwnRequestIs(canister: Id256, r: Icrc2Burn)
    ensures IsOwnRequest(canister, r) <==>
      r.sender == canister && r.recipient == ZERO_ADDRESS && (r.fromSubaccount == None || r.fromSubaccount == Some(0))
    ensures SourceOf(canister, r).MainAccount? <==>
      r.sender == canister && (r.fromSubaccount == None || r.fromSubaccount == Some(0))
  {
  }

  /** No collected notification asks for a deposit out of the minter's main account. */
  ghost predicate TakesFromOthers(s: State, run: seq<Action>) {
    forall i :: 0 <= i < |run| && run[i].CollectAction? ==>
      var events := Execution(s, run[..i]).bridge.events;
      run[i].event < |events| ==> !IsOwnNotification(s.canister, events[run[i].event])
  }

  lemma {:induction false} NoneRecollected(s: State, run: seq<Action>, t: Id256)
    requires s.collected == {} && CollectsOnce(run)
    ensures Recollected(s, run, t) == 0
    ensures forall k :: k in Execution(s, run).collected ==> exists i :: 0 <= i < |run| && run[i] == CollectAction(k)
    decreases |run|
  {
    if run != [] {
      var front, a := run[..|run| - 1], run[|run| - 1];
      NoneRecollected(s, front, t);
      var before := Execution(s, front);
      if Next(before, a).Some? {
        StepAccounts(before, Next(before, a).value, a, t);
      }
      forall k | k in Execution(s, run).collected ensures exists i :: 0 <= i < |run| && run[i] == CollectAction(k) {
        if k in before.collected {
          var i :| 0 <= i < |front| && front[i] == CollectAction(k);
          assert run[i] == CollectAction(k);
        } else {
          assert run[|run| - 1] == CollectAction(k);
        }
      }
    }
  }

  lemma {:induction false} NoneForeign(s: State, run: seq<Action>, t: Id256)
    requires t != ZERO_ID || BurnsOwnTokens(s, run)
    ensures ForeignBurnt(s, run, t) == 0
    decreases |run|
  {
    if run != [] {
      var front := run[..|run| - 1];
      assert forall i :: 0 <= i < |front| ==> front[i] == run[i] && front[..i] == run[..i];
      NoneForeign(s, front, t);
    }
  }

  // ---- Deposits out of the main account come only from notifications that ask for them ----

  predicate IsOwnScheduled(canister: Id256, p: OperationState) {
    p.Deposit? && p.deposit.DepositScheduled? && IsOwnRequest(canister, p.deposit.request)
  }

  ghost predicate NoOwnScheduled(s: State) {
    forall id: nat :: !IsOwnView(s.canister, ViewOf(s, id))
  }

  predicate IsOwnView(canister: Id256, v: View) {
    v.status.Some? && IsOwnScheduled(canister, v.status.value)
  }

  /** A step that changes the status of one operation, to another status. */
  lemma StatusKeepsOthers(s: State, s': State, id: nat, p: OperationState)
    requires StoreCoherent(s.store) && NoOwnScheduled(s) && id in s.store.incomplete && !IsRefundMinted(p)
    requires !IsOwnScheduled(s.canister, p)
    requires s'.store == SetStatus(s, id, p).store && s'.canister == s.canister
    ensures NoOwnScheduled(s')
  {
    StatusEffect(s, id, p);
    forall i: nat ensures !IsOwnView(s'.canister, ViewOf(s', i)) {
      assert ViewOf(s', i).status == ViewOf(SetStatus(s, id, p), i).status;
      assert !IsOwnView(s.canister, ViewOf(s, i));
    }
  }

  lemma DepositFinishKeepsOthers(s: State, a: Action)
    requires Sound(s) && NoOwnScheduled(s) && Next(s, a).Some? && (a.BurnFinishAction? || a.PrepareSignAction?)
    ensures NoOwnScheduled(Next(s, a).value)
  {
    TaskIsLive(s, a.id);
    var task := s.tasks[a.id];
    var p := if a.BurnFinishAction? then Deposit(Icrc2Burned(BurntData(a.id, task.request, task.meta)))
             else SignedStatus(task.order, task.isDeposit);
    StatusKeepsOthers(s, Next(s, a).value, a.id, p);
  }

  lemma OtherFinishKeepsOthers(s: State, a: Action)
    requires Sound(s) && NoOwnScheduled(s) && Next(s, a).Some? && (a.SendFinishAction? || a.PayFinishAction?)
    ensures NoOwnScheduled(Next(s, a).value)
  {
    TaskIsLive(s, a.id);
    var p := if a.SendFinishAction? then SentStatus(s.tasks[a.id], a.txId)
             else PaidStatus(s.tasks[a.id], a.id, a.ledgerTx);
    StatusKeepsOthers(s, Next(s, a).value, a.id, p);
  }

  lemma BurntKeepsOthers(s: State, k: nat, e: BurntEventData)
    requires Sound(s) && NoOwnScheduled(s)
    ensures NoOwnScheduled(CollectBurnt(s, k, e))
  {
    BurntViews(s, k, e);
    NewKeepsOthers(s, CollectBurnt(s, k, e));
  }

  lemma RequestKeepsOthers(s: State, k: nat, r: Icrc2Burn)
    requires Sound(s) && NoOwnScheduled(s) && !IsOwnRequest(s.canister, r)
    ensures NoOwnScheduled(CollectRequest(s, k, r))
  {
    RequestViews(s, k, r);
    NewKeepsOthers(s, CollectRequest(s, k, r));
  }

  lemma CollectKeepsOthers(s: State, k: nat)
    requires Sound(s) && NoOwnScheduled(s) && CollectEvent(s, k).Some?
    requires !IsOwnNotification(s.canister, s.bridge.events[k])
    ensures NoOwnScheduled(CollectEvent(s, k).value)
  {
    match s.bridge.events[k]
    case Burnt(e) => BurntKeepsOthers(s, k, e);
    case Notify(txSender, Some(r)) => RequestKeepsOthers(s, k, Vetted(txSender, r));
    case _ => QuietKeepsOthers(s, s.(collected := s.collected + {k}));
  }

  lemma NewKeepsOthers(s: State, s': State)
    requires NoOwnScheduled(s) && s'.canister == s.canister
    requires forall i: nat :: i != s.store.next ==> ViewOf(s', i) == ViewOf(s, i)
    requires !IsOwnView(s.canister, ViewOf(s', s.store.next))
    ensures NoOwnScheduled(s')
  {
    forall i: nat ensures !IsOwnView(s'.canister, ViewOf(s', i)) {
      assert !IsOwnView(s.canister, ViewOf(s, i));
    }
  }

  lemma RemoveKeepsOthers(s: State, k: nat)
    requires Sound(s) && NoOwnScheduled(s) && RemoveMintOrder(s, k).Some?
    ensures NoOwnScheduled(RemoveMintOrder(s, k).value)
  {
    RemovedOrderIsSent(s, k);
    var e := s.bridge.events[k].minted;
    var (id, p) := FindNonce(GetForAddress(s.store, e.recipient), e.nonce).value;
    var marked := Deposit(DepositMinted(e.fromToken, e.amount, p.deposit.txId));
    StatusKeepsOthers(s, RemoveMintOrder(s, k).value, id, marked);
  }

  lemma QuietKeepsOthers(s: State, s': State)
    requires NoOwnScheduled(s) && s'.store == s.store && s'.canister == s.canister
    ensures NoOwnScheduled(s')
  {
    forall i: nat ensures !IsOwnView(s'.canister, ViewOf(s', i)) {
      assert !IsOwnView(s.canister, ViewOf(s, i));
    }
  }

  lemma CanisterStays(s: State, a: Action)
    requires Next(s, a).Some?
    ensures Next(s, a).value.canister == s.canister
  {
    if IsTaskAction(a) {
      TaskActionFrame(s, a);
    }
  }

  lemma NextKeepsOthers(s: State, a: Action)
    requires Sound(s) && NoOwnScheduled(s) && Next(s, a).Some?
    requires a.CollectAction? ==> !IsOwnNotification(s.canister, s.bridge.events[a.event])
    ensures NoOwnScheduled(Next(s, a).value)
  {
    if a.CollectAction? {
      CollectKeepsOthers(s, a.event);
    } else if a.RemoveOrderAction? {
      RemoveKeepsOthers(s, a.event);
    } else if a.SendFinishAction? || a.PayFinishAction? {
      OtherFinishKeepsOthers(s, a);
    } else if IsStatusAction(a) {
      DepositFinishKeepsOthers(s, a);
    } else {
      QuietAction(s, a);
      CanisterStays(s, a);
      QuietKeepsOthers(s, Next(s, a).value);
    }
  }

  lemma NoOwnStep(s: State, a: Action, t: Id256)
    requires Sound(s) && NoOwnScheduled(s)
    ensures OwnDeposit(s, a, t) == 0
  {
    if a.BurnLedgerAction? && a.id in s.tasks && s.tasks[a.id].BurnAwaiting? {
      TaskIsLive(s, a.id);
      assert !IsOwnView(s.canister, ViewOf(s, a.id));
      var r := s.tasks[a.id].request;
      Icrc2.BurnCreditsExactly(Get(s.custody, r.token), SourceOf(s.canister, r), r.amount, true,
                               a.burnFirst, a.refresh, a.burnSecond);
    }
  }

  lemma {:induction false} NoneOwn(s: State, run: seq<Action>, t: Id256)
    requires Inv(s) && NoOwnScheduled(s) && TakesFromOthers(s, run)
    ensures OwnDeposited(s, run, t) == 0
    ensures NoOwnScheduled(Execution(s, run)) && Execution(s, run).canister == s.canister
    decreases |run|
  {
    if run != [] {
      var front, a := run[..|run| - 1], run[|run| - 1];
      assert forall i :: 0 <= i < |front| ==> front[i] == run[i] && front[..i] == run[..i];
      NoneOwn(s, front, t);
      var before := Execution(s, front);
      EveryStateSound(s, front);
      NoOwnStep(before, a, t);
      if Next(before, a).Some? {
        NextKeepsOthers(before, a);
        CanisterStays(before, a);
      }
    }
  }

  /**
   The headline: wrapped supply plus everything outstanding never exceeds what the minter holds, in any run that
   collects no event twice and no deposit out of the minter's main account; nor, for token id zero, burns any token
   that the bridge did not deploy.
   */
  lemma BackedInEveryState(self: Address, minter: Address, canister: Id256, chainId: nat, maxLogSize: nat,
                           run: seq<Action>, t: Id256)
    requires self != ZERO_ADDRESS && CollectsOnce(run)
    requires TakesFromOthers(Genesis(self, minter, canister, chainId, maxLogSize), run)
    requires t != ZERO_ID || BurnsOwnTokens(Genesis(self, minter, canister, chainId, maxLogSize), run)
    ensures var s := Execution(Genesis(self, minter, canister, chainId, maxLogSize), run);
      Get(s.custody, t) >= Liabilities(s, t)
  {
    var start := Genesis(self, minter, canister, chainId, maxLogSize);
    BackedExactly(self, minter, canister, chainId, maxLogSize, run, t);
    NoneRecollected(start, run, t);
    NoneForeign(start, run, t);
    GenesisSound(self, minter, canister, chainId, maxLogSize);
    NoneOwn(start, run, t);
  }

  // ---- Each kind of claim breaks it ----

  /** Collecting a burn event a second time is exactly what breaks it, whenever there is no surplus to spare. */
  lemma RecollectionBreaksBacking(s: State, k: nat)
    requires Inv(s) && k in s.collected && s.bridge.events[k].Burnt?
    ensures var e := s.bridge.events[k].burnt; var s' := CollectEvent(s, k).value;
      && CollectEvent(s, k).Some?
      && (Get(s'.custody, e.toToken) >= Liabilities(s', e.toToken)
          <==> Get(s.custody, e.toToken) >= Liabilities(s, e.toToken) + e.amount)
  {
    var e := s.bridge.events[k].burnt;
    CollectBurntKeeps(s, k, e);
    assert Conserved(s, e.toToken) && Conserved(CollectEvent(s, k).value, e.toToken);
  }

  /** A run that neither gives the minter anything nor pays anything out. */
  ghost predicate GivesNothing(run: seq<Action>) {
    forall i :: 0 <= i < |run| ==> !run[i].DonateAction? && !run[i].PayLedgerAction?
  }

  lemma {:induction false} NothingGiven(s: State, run: seq<Action>, t: Id256)
    requires GivesNothing(run)
    ensures Given(s, run, t) == 0
    decreases |run|
  {
    if run != [] {
      NothingGiven(s, run[..|run| - 1], t);
    }
  }

  /** After any run that gives the minter nothing, collecting a burn again leaves its token unbacked. */
  lemma CollectingAgainUnbacks(self: Address, minter: Address, canister: Id256, chainId: nat, maxLogSize: nat,
                               run: seq<Action>, k: nat)
    requires self != ZERO_ADDRESS
    requires var start := Genesis(self, minter, canister, chainId, maxLogSize); var s := Execution(start, run);
      && k in s.collected && k < |s.bridge.events| && s.bridge.events[k].Burnt? && s.bridge.events[k].burnt.amount > 0
      && Given(start, run, s.bridge.events[k].burnt.toToken) == 0
    ensures var start := Genesis(self, minter, canister, chainId, maxLogSize);
      var t := Execution(start, run).bridge.events[k].burnt.toToken;
      var s' := Execution(start, run + [CollectAction(k)]);
      Get(s'.custody, t) < Liabilities(s', t)
  {
    var start, all := Genesis(self, minter, canister, chainId, maxLogSize), run + [CollectAction(k)];
    var t := Execution(start, run).bridge.events[k].burnt.toToken;
    assert all[..|all| - 1] == run;
    BackedExactly(self, minter, canister, chainId, maxLogSize, all, t);
  }

  /**
   After any run that gives the minter nothing, a deposit out of its main account leaves the token unbacked: the
   request, collected and waiting for the ledger, needs no more than that the account can pay it.
   */
  lemma OwnDepositUnbacks(self: Address, minter: Address, canister: Id256, chainId: nat, maxLogSize: nat,
                          run: seq<Action>, a: Action, r: Icrc2Burn)
    requires self != ZERO_ADDRESS && Given(Genesis(self, minter, canister, chainId, maxLogSize), run, r.token) == 0
    requires a.BurnLedgerAction? && a.burnFirst.outage == None
    requires IsOwnRequest(canister, r) && r.amount > 0
    requires var s := Execution(Genesis(self, minter, canister, chainId, maxLogSize), run);
      && s.canister == canister && HasTask(s, a.id, BurnAwaiting(r))
      && Get(s.custody, r.token) >= r.amount + a.burnFirst.ledgerFee
    ensures var start := Genesis(self, minter, canister, chainId, maxLogSize);
      var s, s' := Execution(start, run), Execution(start, run + [a]);
      && Get(s'.custody, r.token) + a.burnFirst.ledgerFee == Get(s.custody, r.token)
      && Get(s'.custody, r.token) < Liabilities(s', r.token)
  {
    var start, all := Genesis(self, minter, canister, chainId, maxLogSize), run + [a];
    assert all[..|all| - 1] == run;
    assert OwnDeposit(Execution(start, run), a, r.token) == r.amount + a.burnFirst.ledgerFee;
    BackedExactly(self, minter, canister, chainId, maxLogSize, all, r.token);
  }

  /** Token id zero is no ledger: burning a token the bridge did not deploy claims it, and nothing backs the claim. */
  lemma ZeroTokenIsNotBacked()
    ensures var burn := BurnCall(7, 5, 9, 0, TokenMetadata(0, 0, 0), true);
            var s := Execution(Genesis(1, 2, 4, 3, 100), [EvmAction(burn)]);
      Get(s.custody, ZERO_ID) == 0 && Liabilities(s, ZERO_ID) == 5
  {
    var burn := BurnCall(7, 5, 9, 0, TokenMetadata(0, 0, 0), true);
    var run := [EvmAction(burn)];
    var g := Genesis(1, 2, 4, 3, 100);
    assert run[..0] == [];
    assert Execution(g, run[..0]) == g;
    var s := Execution(g, run);
    assert s == Next(g, EvmAction(burn)).value;
    Conservation(1, 2, 4, 3, 100, run, ZERO_ID);
  }
}
