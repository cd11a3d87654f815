/**
 A run in which backing fails without any event collected twice: after a user's deposit, anyone asks for a deposit
 out of the minter's own account, in the name of the minter and for the zero address.
 */
module OwnDeposits {
  import opened Words
  import opened Sums
  import opened Events
  import opened Operations
  import opened BftBridges
  import opened Protocol
  import opened Backing
  import opened Provenance
  import opened Solvency
  import opened Recollection
  import Icrc2

  /** For 5 of token 5, out of the minter's main account; the ledger's fee is 1. */
  const OWN: Icrc2Burn := Icrc2Burn(4, 5, 5, 0, None, None, None)

  function OwnPull(): Action {
    BurnLedgerAction(1, META, Icrc2.Pull(None, 1), None, Icrc2.Pull(None, 1))
  }

  function Notified(): BridgeState {
    Deployed().(events := [Notify(7, Some(REQUEST)), Notify(8, Some(OWN))])
  }

  function OwnRequesting(): seq<Action> {
    [EvmAction(NotifyCall(8, Some(OWN))), CollectAction(1), BurnStartAction(1)]
  }

  lemma AfterNotifying(s: State, p: OperationState)
    requires At(s, Deployed(), 0, p, PrepareIdle, 10)
    ensures At(Execution(s, [EvmAction(NotifyCall(8, Some(OWN)))]), Notified(), 0, p, PrepareIdle, 10)
  {
    Execute1(s, EvmAction(NotifyCall(8, Some(OWN))));
  }

  lemma AfterCollecting(s: State, p: OperationState)
    requires At(s, Notified(), 0, p, PrepareIdle, 10)
    ensures At(Execution(s, [CollectAction(1)]), Notified(), 1, Deposit(DepositScheduled(OWN)), BurnIdle, 10)
  {
    Execute1(s, CollectAction(1));
  }

  lemma AfterStarting(s: State)
    requires At(s, Notified(), 1, Deposit(DepositScheduled(OWN)), BurnIdle, 10)
    ensures At(Execution(s, [BurnStartAction(1)]), Notified(), 1, Deposit(DepositScheduled(OWN)), BurnAwaiting(OWN), 10)
  {
    Execute1(s, BurnStartAction(1));
  }

  lemma AfterOwnRequesting(s: State, p: OperationState)
    requires At(s, Deployed(), 0, p, PrepareIdle, 10)
    ensures At(Execution(s, OwnRequesting()), Notified(), 1, Deposit(DepositScheduled(OWN)), BurnAwaiting(OWN), 10)
  {
    var notify, collect := EvmAction(NotifyCall(8, Some(OWN))), CollectAction(1);
    Execute3(s, notify, collect, BurnStartAction(1));
    Execute2(s, notify, collect);
    AfterNotifying(s, p);
    AfterCollecting(Execution(s, [notify]), p);
    AfterStarting(Execution(s, [notify, collect]));
  }

  function UpToOwnRequest(): seq<Action> {
    UpToDeposit() + OwnRequesting()
  }

  lemma OwnRequested()
    ensures At(Execution(Genesis(1, 2, 4, 3, 100), UpToOwnRequest()), Notified(), 1, Deposit(DepositScheduled(OWN)),
               BurnAwaiting(OWN), 10)
  {
    var g := Genesis(1, 2, 4, 3, 100);
    DepositedOnce();
    ExecutionSplit(g, UpToDeposit(), OwnRequesting());
    AfterOwnRequesting(Execution(g, UpToDeposit()), Deposit(Icrc2Burned(BurntData(0, REQUEST, META))));
  }

  lemma OwnRunIsPlain()
    ensures CollectsOnce(UpToOwnRequest() + [OwnPull()]) && GivesNothing(UpToOwnRequest())
  {
    var run := UpToOwnRequest() + [OwnPull()];
    assert |run| == 10 && run[2] == CollectAction(0) && run[7] == CollectAction(1);
    assert forall i :: 0 <= i < |run| && run[i].CollectAction? ==> i == 2 || i == 7;
  }

  /** No event is collected twice, nothing is burnt, and token 5 has 9 in custody and more than that claimed. */
  lemma OwnDepositIsNotBacked()
    ensures var run := UpToOwnRequest() + [OwnPull()]; var s := Execution(Genesis(1, 2, 4, 3, 100), run);
      CollectsOnce(run) && Get(s.custody, 5) == 9 && Get(s.custody, 5) < Liabilities(s, 5)
  {
    OwnRunIsPlain();
    OwnRequested();
    NothingGiven(Genesis(1, 2, 4, 3, 100), UpToOwnRequest(), 5);
    OwnDepositUnbacks(1, 2, 4, 3, 100, UpToOwnRequest(), OwnPull(), OWN);
  }
}
