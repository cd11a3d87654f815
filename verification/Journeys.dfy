/** Runs in which a deposit, a withdrawal and a refund come to their end. */
module Journeys {
  import opened Words
  import opened Sums
  import opened MintOrders
  import opened Events
  import opened Operations
  import opened OperationStores
  import opened WrappedTokens
  import opened BftBridges
  import opened Protocol
  import opened Backing
  import opened Provenance
  import opened Completion
  import opened Progress
  import opened Recollection
  import Icrc2

  lemma StartIsExplained(run: seq<Action>)
    ensures Explained(Execution(Genesis(1, 2, 4, 3, 100), run))
  {
    GenesisExplained(1, 2, 4, 3, 100);
    EveryRunAdvances(Genesis(1, 2, 4, 3, 100), run, false);
  }

  // ---- A deposit with a fee payer ----

  const PAID: Icrc2Burn := REQUEST.(feePayer := Some(8))

  function DepositJourney(): seq<Action> {
    RequestingFor(PAID) + Delivering()
  }

  function Delivering(): seq<Action> {
    DepositRun(0, META, FREE, None, FREE, 3, 77) + (Completing(2, 0, true, 1) + [RemoveOrderAction(1)])
  }

  /** The wallet ends up with its 10 wrapped tokens, and the operation as minted. */
  lemma DepositArrives()
    ensures var s := Execution(Genesis(1, 2, 4, 3, 100), DepositJourney());
      && |s.history| > 0 && s.history[0].payload == Deposit(DepositMinted(5, 10, 77))
      && BalanceOf(s.bridge, 9, 7) == 10
  {
    var g := Genesis(1, 2, 4, 3, 100);
    AfterRequesting(g, PAID);
    StartIsExplained(RequestingFor(PAID));
    var s := Execution(g, RequestingFor(PAID));
    FewAreUnique(s.history);
    DepositCompletes(s, 0, PAID, META, FREE, None, FREE, 3, 77);
    ExecutionSplit(g, RequestingFor(PAID), Delivering());
  }

  // ---- A withdrawal that the ledger pays, at a fee of 1 ----

  const FAIR: Icrc2.Round := Icrc2.Round(Some(1), 1, None)

  /** The burnt 10 leave custody, and the receiver gets 9. */
  lemma WithdrawalArrives()
    ensures var s := Execution(Genesis(1, 2, 4, 3, 100), Normal() + PayingOut(1, FAIR, None, FAIR, 99));
      && |s.history| > 1 && s.history[1].payload == Withdrawal(Transferred(5, 11, 9, 99))
      && Get(s.custody, 5) == 0
  {
    var g := Genesis(1, 2, 4, 3, 100);
    AfterNormal();
    StartIsExplained(Normal());
    PayingSucceeds(Execution(g, Normal()), 1, BurnOf(), FAIR, None, FAIR);
    WithdrawalIsPaid(Execution(g, Normal()), 1, BurnOf(), FAIR, None, FAIR, 9, 99);
    ExecutionSplit(g, Normal(), PayingOut(1, FAIR, None, FAIR, 99));
  }

  // ---- A withdrawal that the ledger refuses for good ----

  const BAD: Icrc2.Round := Icrc2.Round(Some(1), 1, Some(Icrc2.TransferFailed(Icrc2.BadBurn)))

  function RefundJourney(): seq<Action> {
    Normal() + Refunding()
  }

  function Refunding(): seq<Action> {
    PayingOut(1, BAD, None, BAD, 99) + Progress.Signing(1, 3)
  }

  lemma PayoutIsRefused(s: State)
    requires s.canister == 4 && Get(s.custody, 5) == 10
    ensures IsRefused(s, BurnOf(), BAD, None, BAD, Icrc2.TransferFailed(Icrc2.BadBurn))
    ensures Icrc2.TransferFailed(Icrc2.BadBurn) !in PassingErrors()
  {
    Icrc2.MintFailsWith(10, false, 10, BAD, None, BAD);
  }

  /** The order is for the burnt 10 of token 5, to the burner. */
  ghost predicate IsOffered(s: State) {
    && 1 in s.orders && s.orders[1].recipient == 7 && s.orders[1].amount == 10 && s.orders[1].srcToken == 5
    && HasStatus(s, 1, Withdrawal(RefundMintOrderSigned(5, 10, s.orders[1])))
  }

  lemma AfterRefunding(s: State)
    requires Inv(s) && IsCollected(s)
    ensures IsOffered(Execution(s, Refunding()))
  {
    PayoutIsRefused(s);
    RefundIsSigned(s, 1, BurnOf(), BAD, None, BAD, Icrc2.TransferFailed(Icrc2.BadBurn), 99, 3);
  }

  /** The burner can fetch an order for the 10 wrapped tokens he burnt. */
  lemma RefundIsOffered()
    ensures var s := Execution(Genesis(1, 2, 4, 3, 100), RefundJourney());
      && IsOffered(s) && StatusOf(s, 1).Some?
      && GetSignedMintOrder(StatusOf(s, 1).value, None) == Some(s.orders[1])
  {
    var g := Genesis(1, 2, 4, 3, 100);
    assert IsOffered(Execution(g, RefundJourney())) by {
      AfterNormal();
      StartIsExplained(Normal());
      AfterRefunding(Execution(g, Normal()));
      ExecutionSplit(g, Normal(), Refunding());
    }
    var s := Execution(g, RefundJourney());
    StatusIsFound(s, 1, Withdrawal(RefundMintOrderSigned(5, 10, s.orders[1])));
  }
}
