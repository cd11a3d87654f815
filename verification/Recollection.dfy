/**
 A run in which backing fails for an ordinary token: a deposit is minted, burnt again, and the burn event is
 collected twice, as it may be when the window of blocks to collect moves back.
 */
module Recollection {
  import opened Words
  import opened Sums
  import opened MintOrders
  import opened Events
  import opened Operations
  import opened WrappedTokens
  import opened BftBridges
  import opened Protocol
  import opened Backing
  import opened Provenance
  import opened Solvency
  import Icrc2

  // ---- The cast: token 5, its wrapped token at 9, a wallet at 7, the bridge at 1 ----

  const FREE: Icrc2.Pull := Icrc2.Pull(None, 0)
  const META: TokenMetadata := TokenMetadata(0, 0, 0)
  const REQUEST: Icrc2Burn := Icrc2Burn(11, 5, 10, 7, None, None, None)

  function Order(): MintOrder {
    OrderFor(BurntData(0, REQUEST, META), 3)
  }

  function BurnOf(): BurntEventData {
    BurntEventData(7, 10, 9, 11, 5, 0, META)
  }

  /** The token is deployed, and the wallet has asked for a deposit. */
  function DeployedFor(r: Icrc2Burn): BridgeState {
    InitialBridge(1, 2, 3, true).(
      erc20Registry := map[5 := 9],
      baseRegistry := map[9 := 5],
      wrappedList := [9],
      tokens := map[9 := TokenState(1, map[], map[], 0)],
      contracts := {1, 9},
      events := [Notify(7, Some(r))])
  }

  function Deployed(): BridgeState {
    DeployedFor(REQUEST)
  }

  // ---- The run, in stages ----

  function RequestingFor(r: Icrc2Burn): seq<Action> {
    [EvmAction(DeployCall(5, 9)), EvmAction(NotifyCall(7, Some(r))), CollectAction(0)]
  }

  function Requesting(): seq<Action> {
    RequestingFor(REQUEST)
  }

  function Depositing(): seq<Action> {
    [BurnStartAction(0), BurnLedgerAction(0, META, FREE, None, FREE), BurnFinishAction(0)]
  }

  function Signing(): seq<Action> {
    [PrepareStartAction(0, 3), PrepareSignAction(0)]
  }

  function Minting(): seq<Action> {
    [MintAction(7, 0, true)]
  }

  function Burning(): seq<Action> {
    [EvmAction(TokenUserCall(9, 7, CallApprove(1, 10))), EvmAction(BurnCall(7, 10, 9, 11, META, true))]
  }

  // ---- Where each stage leaves off ----

  /** The newest operation has this status and this task, the bridge is in this state, and custody is `held`. */
  ghost predicate At(s: State, b: BridgeState, id: nat, p: OperationState, task: Task, held: nat) {
    && s.bridge == b && s.canister == 4 && Get(s.custody, 5) == held && s.store.next == id + 1
    && id in s.store.incomplete && s.store.incomplete[id].payload == p
    && id in s.tasks && s.tasks[id] == task
  }

  /** Operation 0 is the only one so far, and custody is 10. */
  ghost predicate Holding(s: State) {
    s.canister == 4 && Get(s.custody, 5) == 10 && s.store.next == 1
  }

  lemma AfterDeploying(s: State, r: Icrc2Burn)
    requires s == Genesis(1, 2, 4, 3, 100)
    ensures Execution(s, [EvmAction(DeployCall(5, 9)), EvmAction(NotifyCall(7, Some(r)))])
         == Genesis(1, 2, 4, 3, 100).(bridge := DeployedFor(r))
  {
    var deploy, notify := EvmAction(DeployCall(5, 9)), EvmAction(NotifyCall(7, Some(r)));
    Execute2(s, deploy, notify);
    Execute1(s, deploy);
    Execute1(Execution(s, [deploy]), notify);
  }

  lemma AfterFirstCollecting(s: State, r: Icrc2Burn)
    requires s == Genesis(1, 2, 4, 3, 100).(bridge := DeployedFor(r)) && r.recipient == 7
    ensures At(Execution(s, [CollectAction(0)]), DeployedFor(r), 0, Deposit(DepositScheduled(r)), BurnIdle, 0)
  {
    Execute1(s, CollectAction(0));
  }

  lemma AfterRequesting(s: State, r: Icrc2Burn)
    requires s == Genesis(1, 2, 4, 3, 100) && r.recipient == 7
    ensures At(Execution(s, RequestingFor(r)), DeployedFor(r), 0, Deposit(DepositScheduled(r)), BurnIdle, 0)
  {
    var deploy, notify := EvmAction(DeployCall(5, 9)), EvmAction(NotifyCall(7, Some(r)));
    Execute3(s, deploy, notify, CollectAction(0));
    AfterDeploying(s, r);
    AfterFirstCollecting(Execution(s, [deploy, notify]), r);
  }

  lemma AfterTaking(s: State)
    requires At(s, Deployed(), 0, Deposit(DepositScheduled(REQUEST)), BurnIdle, 0)
    ensures At(Execution(s, [BurnStartAction(0), BurnLedgerAction(0, META, FREE, None, FREE)]), Deployed(), 0,
               Deposit(DepositScheduled(REQUEST)), BurnTaken(REQUEST, META), 10)
  {
    var start, ledger := BurnStartAction(0), BurnLedgerAction(0, META, FREE, None, FREE);
    Execute2(s, start, ledger);
    Execute1(s, start);
    var started := Execution(s, [start]);
    assert At(started, Deployed(), 0, Deposit(DepositScheduled(REQUEST)), BurnAwaiting(REQUEST), 0);
    Execute1(started, ledger);
  }

  lemma AfterDepositing(s: State)
    requires At(s, Deployed(), 0, Deposit(DepositScheduled(REQUEST)), BurnIdle, 0)
    ensures At(Execution(s, Depositing()), Deployed(), 0, Deposit(Icrc2Burned(BurntData(0, REQUEST, META))),
               PrepareIdle, 10)
  {
    var start, ledger := BurnStartAction(0), BurnLedgerAction(0, META, FREE, None, FREE);
    Execute3(s, start, ledger, BurnFinishAction(0));
    AfterTaking(s);
    Execute1(Execution(s, [start, ledger]), BurnFinishAction(0));
  }

  lemma AfterSigning(s: State)
    requires At(s, Deployed(), 0, Deposit(Icrc2Burned(BurntData(0, REQUEST, META))), PrepareIdle, 10)
    ensures var s' := Execution(s, Signing());
      Holding(s') && s'.bridge == Deployed() && 0 in s'.orders && s'.orders[0] == Order()
  {
    var run := Signing();
    Execute2(s, run[0], run[1]);
    Execute1(s, run[0]);
    var started := Execution(s, [run[0]]);
    assert At(started, Deployed(), 0, Deposit(Icrc2Burned(BurntData(0, REQUEST, META))),
              PrepareSigning(Order(), true), 10);
    Execute1(started, run[1]);
  }

  function Minted10(): BridgeState {
    Deployed().(
      tokens := map[9 := TokenState(1, map[1 := 0, 7 := 10], map[], 10)],
      usedNonces := {(11, 0)},
      events := [Notify(7, Some(REQUEST)), Minted(MintedEventData(10, 5, 11, 9, 7, 0))])
  }

  lemma MintIsAccepted()
    ensures MintDecoded(Deployed(), 7, Order(), 2, true, true) == Some(Minted10())
  {
    var b, o := Deployed(), Order();
    assert Target(b, o) == 9 && Acceptable(b, 7, o, 2, true);
    var minted := MintTo(b.tokens[9], 1, 10).value;
    assert minted == TokenState(1, map[1 := 10], map[], 10);
    var balances: map<Address, nat> := map[1 := 10];
    assert balances[1 := 0][7 := 10] == map[1 := 0, 7 := 10];
    assert Move(minted, 1, 7, 10) == Some(TokenState(1, map[1 := 0, 7 := 10], map[], 10));
    var paid := b.(tokens := b.tokens[9 := TokenState(1, map[1 := 0, 7 := 10], map[], 10)]);
    assert Paid(b, 9, o, true) == Some(paid);
    assert b.usedNonces + {(o.sender, o.nonce)} == Minted10().usedNonces && b.contracts + {9 as Address} == b.contracts;
    assert b.events + [MintedEvent(b, o)] == Minted10().events && paid.tokens == Minted10().tokens;
    MintIs(b, paid, Minted10(), 7, o, 2, true, true);
  }

  lemma AfterMinting(s: State)
    requires Holding(s) && s.bridge == Deployed() && 0 in s.orders && s.orders[0] == Order()
    ensures Holding(Execution(s, Minting())) && Execution(s, Minting()).bridge == Minted10()
  {
    MintIsAccepted();
    Execute1(s, MintAction(7, 0, true));
  }

  lemma BurnIsAccepted(b: BridgeState, t: TokenState)
    requires b == Minted10().(tokens := map[9 := t]) && t == TokenState(1, map[1 := 0, 7 := 10], map[(7, 1) := 10], 10)
    ensures Burn(b, 7, 10, 9, 11, META, true).Some?
    ensures Burn(b, 7, 10, 9, 11, META, true).value.events == b.events + [Burnt(BurnOf())]
  {
    var spent := SpendAllowance(t, 7, 1, 10).value;
    assert spent == TokenState(1, map[1 := 0, 7 := 10], map[(7, 1) := 0], 10);
    var moved := Move(spent, 7, 1, 10).value;
    assert moved == TokenState(1, map[1 := 10, 7 := 0], map[(7, 1) := 0], 10);
  }

  function Approved10(): BridgeState {
    Minted10().(tokens := map[9 := TokenState(1, map[1 := 0, 7 := 10], map[(7, 1) := 10], 10)])
  }

  lemma AfterApproving(s: State)
    requires Holding(s) && s.bridge == Minted10()
    ensures var s' := Execution(s, [EvmAction(TokenUserCall(9, 7, CallApprove(1, 10)))]);
      Holding(s') && s'.bridge == Approved10()
  {
    Execute1(s, EvmAction(TokenUserCall(9, 7, CallApprove(1, 10))));
  }

  lemma AfterBurning(s: State)
    requires Holding(s) && s.bridge == Minted10()
    ensures var s' := Execution(s, Burning());
      Holding(s') && |s'.bridge.events| == 3 && s'.bridge.events[2] == Burnt(BurnOf())
  {
    var run := Burning();
    Execute2(s, run[0], run[1]);
    AfterApproving(s);
    BurnIsAccepted(Approved10(), Approved10().tokens[9]);
    Execute1(Execution(s, [run[0]]), run[1]);
  }

  function UpToDeposit(): seq<Action> {
    Requesting() + Depositing()
  }

  lemma DepositedOnce()
    ensures At(Execution(Genesis(1, 2, 4, 3, 100), UpToDeposit()), Deployed(), 0,
               Deposit(Icrc2Burned(BurntData(0, REQUEST, META))), PrepareIdle, 10)
  {
    var g := Genesis(1, 2, 4, 3, 100);
    AfterRequesting(g, REQUEST);
    ExecutionSplit(g, Requesting(), Depositing());
    AfterDepositing(Execution(g, Requesting()));
  }

  function UpToMint(): seq<Action> {
    UpToDeposit() + Signing() + Minting()
  }

  lemma MintedOnce()
    ensures var s := Execution(Genesis(1, 2, 4, 3, 100), UpToMint()); Holding(s) && s.bridge == Minted10()
  {
    var g := Genesis(1, 2, 4, 3, 100);
    DepositedOnce();
    ExecutionSplit(g, UpToDeposit(), Signing());
    AfterSigning(Execution(g, UpToDeposit()));
    ExecutionSplit(g, UpToDeposit() + Signing(), Minting());
    AfterMinting(Execution(g, UpToDeposit() + Signing()));
  }

  lemma CollectedOnce(s: State)
    requires Holding(s) && s.bridge == Minted10()
    ensures IsCollected(Execution(s, Burning() + [CollectAction(2)]))
  {
    AfterBurning(s);
    ExecutionSplit(s, Burning(), [CollectAction(2)]);
    AfterSecondCollecting(Execution(s, Burning()));
  }

  /** The burn is collected, and operation 1 is to pay it out. */
  ghost predicate IsCollected(s: State) {
    && 2 in s.collected && |s.bridge.events| == 3 && s.bridge.events[2] == Burnt(BurnOf())
    && s.canister == 4 && Get(s.custody, 5) == 10
    && 1 in s.store.incomplete && s.store.incomplete[1].payload == Withdrawal(WithdrawalScheduled(BurnOf()))
    && HasTask(s, 1, PayIdle)
  }

  /** A collected burn is scheduled to be paid out. */
  lemma CollectSchedules(s: State, k: nat, e: BurntEventData)
    requires k < |s.bridge.events| && s.bridge.events[k] == Burnt(e)
    ensures var s' := CollectEvent(s, k);
      && s'.Some? && s'.value.custody == s.custody && s'.value.canister == s.canister
      && s.store.next in s'.value.store.incomplete
      && s'.value.store.incomplete[s.store.next].payload == Withdrawal(WithdrawalScheduled(e))
      && HasTask(s'.value, s.store.next, PayIdle)
  {
    var claimed := Claimed(s, k, e);
    assert claimed.store == s.store && claimed.custody == s.custody;
  }

  lemma AfterSecondCollecting(s: State)
    requires Holding(s) && |s.bridge.events| == 3 && s.bridge.events[2] == Burnt(BurnOf())
    ensures IsCollected(Execution(s, [CollectAction(2)]))
  {
    CollectSchedules(s, 2, BurnOf());
    Execute1(s, CollectAction(2));
  }

  /** Up to the first time the burn is collected. */
  function Normal(): seq<Action> {
    UpToMint() + (Burning() + [CollectAction(2)])
  }

  lemma AfterNormal()
    ensures IsCollected(Execution(Genesis(1, 2, 4, 3, 100), Normal()))
  {
    var g := Genesis(1, 2, 4, 3, 100);
    MintedOnce();
    ExecutionSplit(g, UpToMint(), Burning() + [CollectAction(2)]);
    CollectedOnce(Execution(g, UpToMint()));
  }

  // ---- What follows ----

  lemma NormalIsPlain()
    ensures CollectsOnce(Normal()) && GivesNothing(Normal())
    ensures var run := Normal();
      && |run| == 12 && run[2] == CollectAction(0) && run[11] == CollectAction(2)
      && forall i :: 0 <= i < |run| && run[i].CollectAction? ==> i == 2 || i == 11
  {
    var run := Normal();
    assert |run| == 12 && run[2] == CollectAction(0) && run[11] == CollectAction(2);
    assert forall i :: 0 <= i < |run| && run[i].CollectAction? ==> i == 2 || i == 11;
  }

  lemma NormalTakesFromOthers()
    ensures TakesFromOthers(Genesis(1, 2, 4, 3, 100), Normal())
  {
    var g, run := Genesis(1, 2, 4, 3, 100), Normal();
    NormalIsPlain();
    assert run[..2] == [EvmAction(DeployCall(5, 9)), EvmAction(NotifyCall(7, Some(REQUEST)))];
    AfterDeploying(g, REQUEST);
    assert !IsOwnNotification(4, Execution(g, run[..2]).bridge.events[0]);
    assert run[..11] == UpToMint() + Burning();
    ExecutionSplit(g, UpToMint(), Burning());
    MintedOnce();
    AfterBurning(Execution(g, UpToMint()));
    assert !IsOwnNotification(4, Execution(g, run[..11]).bridge.events[2]);
  }

  /** So it is here: before, token 5 is backed, and afterwards it is not. */
  lemma TokenIsNotBacked()
    ensures var s := Execution(Genesis(1, 2, 4, 3, 100), Normal()); Get(s.custody, 5) >= Liabilities(s, 5)
    ensures var s := Execution(Genesis(1, 2, 4, 3, 100), Normal() + [CollectAction(2)]);
      Get(s.custody, 5) < Liabilities(s, 5)
  {
    NormalIsPlain();
    NormalTakesFromOthers();
    BackedInEveryState(1, 2, 4, 3, 100, Normal(), 5);
    AfterNormal();
    NothingGiven(Genesis(1, 2, 4, 3, 100), Normal(), 5);
    CollectingAgainUnbacks(1, 2, 4, 3, 100, Normal(), 2);
  }
}
