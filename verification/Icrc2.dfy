/**
 Calls of the minter to an ICRC-2 ledger. A ledger call that returns an error had no effect;
 `custody` is the balance of the minter's main account on the ledger.
 */
module Icrc2 {
  import opened Sums

  datatype TransferError =
    | BadFee | BadBurn | InsufficientFunds | TooOld | CreatedInFuture | Duplicate
    | TemporarilyUnavailable | GenericError | InsufficientAllowance

  datatype Error =
    | InvalidBurnOperation
    | TransferFailed(error: TransferError)
    | CallFailed(transient: bool)

  datatype Result<T> = Ok(value: T) | Err(error: Error)

  datatype Success = Success(amount: nat)

  /**
   One round of conversation with the ledger, as the environment decides it: the fee the minter
   believes in (None if it cannot be read), the fee the ledger asks for, and an error that may
   strike the call for a reason of its own.
   */
  datatype Round = Round(knownFee: Option<nat>, ledgerFee: nat, outage: Option<Error>)

  /**
   What the ledger answers to a transfer of `amount` out of custody at `fee`, and the custody left. `toMain` is
   whether the receiver is the main account itself, to which the amount then returns.
   */
  function LedgerTransfer(custody: nat, toMain: bool, amount: nat, fee: nat, round: Round): (r: (Result<()>, nat))
    ensures r.0.Ok? ==> fee == round.ledgerFee && custody == r.1 + fee + if toMain then 0 else amount
    ensures r.0.Err? ==> r.1 == custody
  {
    if round.outage.Some? then (Err(round.outage.value), custody)
    else if fee != round.ledgerFee then (Err(TransferFailed(BadFee)), custody)
    else if custody < amount + fee then (Err(TransferFailed(InsufficientFunds)), custody)
    else (Ok(()), custody - fee - if toMain then 0 else amount)
  }

  datatype Outcome = Outcome(result: Result<Success>, custody: nat, transfers: nat)

  /**
   Pay `amount` out of custody, fee included. On a bad fee the configuration is refreshed, which may
   fail with `refresh`, and the payment is tried once more.
   */
  function Mint(custody: nat, toMain: bool, amount: nat, repeatOnBadFee: bool, first: Round, refresh: Option<Error>,
                second: Round)
    : Outcome
    decreases repeatOnBadFee
  {
    if first.knownFee.None? then
      Outcome(Err(if first.outage.Some? then first.outage.value else CallFailed(false)), custody, 0)
    else
      var fee := first.knownFee.value;
      if amount < fee || amount - fee == 0 then Outcome(Err(InvalidBurnOperation), custody, 0)
      else
        var (reply, left) := LedgerTransfer(custody, toMain, amount - fee, fee, first);
        if repeatOnBadFee && reply == Err(TransferFailed(BadFee)) then
          if refresh.Some? then Outcome(Err(refresh.value), custody, 0)
          else Mint(custody, toMain, amount, false, second, refresh, second)
        else match reply
          case Ok(_) => Outcome(Ok(Success(amount - fee)), left, 1)
          case Err(e) => Outcome(Err(e), left, 0)
  }

  /** Whose account a deposit is taken from: another one, or the very account that holds the custody. */
  datatype Source = Elsewhere | MainAccount(spendsForItself: bool)

  /** One round of a deposit: the fee the ledger asks for, and an error for a reason of its own. */
  datatype Pull = Pull(outage: Option<Error>, ledgerFee: nat)

  /**
   What the ledger answers to a deposit. The payer bears the fee on top. From the main account the tokens come
   back to where they were; an account spends for itself without approval, and the minter approves nobody.
   */
  function LedgerPull(custody: nat, source: Source, amount: nat, pull: Pull): (Result<()>, nat) {
    if pull.outage.Some? then (Err(pull.outage.value), custody)
    else match source
      case Elsewhere => (Ok(()), custody + amount)
      case MainAccount(spendsForItself) =>
        if !spendsForItself then (Err(TransferFailed(InsufficientAllowance)), custody)
        else if custody < amount + pull.ledgerFee then (Err(TransferFailed(InsufficientFunds)), custody)
        else (Ok(()), custody - pull.ledgerFee)
  }

  /** Pull `amount` from an account into custody, with one retry on a bad fee. */
  function Burn(custody: nat, source: Source, amount: nat, repeatOnBadFee: bool, first: Pull, refresh: Option<Error>,
                second: Pull)
    : (o: Outcome)
    ensures source.MainAccount? ==> o.custody <= custody
    decreases repeatOnBadFee
  {
    if amount == 0 then Outcome(Err(InvalidBurnOperation), custody, 0)
    else
      var (reply, left) := LedgerPull(custody, source, amount, first);
      if repeatOnBadFee && reply == Err(TransferFailed(BadFee)) then
        if refresh.Some? then Outcome(Err(refresh.value), custody, 0)
        else Burn(custody, source, amount, false, second, refresh, second)
      else match reply
        case Ok(_) => Outcome(Ok(Success(amount)), left, 1)
        case Err(e) => Outcome(Err(e), left, 0)
  }

  /**
   Whatever the ledger and the fee cache do, a successful payout takes exactly the burnt amount out of
   custody in exactly one transfer, and the receiver gets less only by the ledger's own fee; to the main
   account itself, only the fee is lost. A failed one takes nothing.
   */
  lemma MintDebitsExactly(custody: nat, toMain: bool, amount: nat, repeat: bool, first: Round, refresh: Option<Error>,
                          second: Round)
    ensures var o := Mint(custody, toMain, amount, repeat, first, refresh, second);
      match o.result
      case Ok(success) =>
        && o.transfers == 1 && o.custody + amount == custody + (if toMain then success.amount else 0)
        && 0 < success.amount <= amount
        && (success.amount + first.ledgerFee == amount || (repeat && success.amount + second.ledgerFee == amount))
      case Err(_) => o.transfers == 0 && o.custody == custody
  {
    if repeat {
      MintDebitsExactly(custody, toMain, amount, false, second, refresh, second);
    }
  }

  /**
   Across the retry a successful deposit is one transfer, which adds exactly its amount to custody if it comes from
   elsewhere; from the main account it adds nothing and costs the ledger's fee, and it succeeds only if the account
   spends for itself. A failed one changes nothing.
   */
  lemma BurnCreditsExactly(custody: nat, source: Source, amount: nat, repeat: bool, first: Pull, refresh: Option<Error>,
                           second: Pull)
    ensures var o := Burn(custody, source, amount, repeat, first, refresh, second);
      match o.result
      case Ok(success) =>
        && o.transfers == 1 && success.amount == amount > 0
        && (source.Elsewhere? ==> o.custody == custody + amount)
        && (source.MainAccount? ==>
              && source.spendsForItself
              && (o.custody + first.ledgerFee == custody || (repeat && o.custody + second.ledgerFee == custody)))
      case Err(_) => o.transfers == 0 && o.custody == custody
  {
    if repeat {
      BurnCreditsExactly(custody, source, amount, false, second, refresh, second);
    }
  }

  // ---- When the ledger's answers lead to success ----

  /** In this round the minter knows the ledger's fee, the ledger answers, and the custody covers the amount. */
  predicate Pays(custody: nat, amount: nat, round: Round) {
    round.knownFee == Some(round.ledgerFee) && round.outage == None && round.ledgerFee < amount <= custody
  }

  /** In this round the ledger refuses the fee the minter offers. */
  predicate RefusesFee(amount: nat, round: Round) {
    && round.knownFee.Some? && round.knownFee.value < amount
    && (round.outage == Some(TransferFailed(BadFee))
        || (round.outage == None && round.knownFee.value != round.ledgerFee))
  }

  predicate PaysInTime(custody: nat, amount: nat, first: Round, refresh: Option<Error>, second: Round) {
    || Pays(custody, amount, first)
    || (RefusesFee(amount, first) && refresh == None && Pays(custody, amount, second))
  }

  /**
   A payout succeeds exactly if the first round pays it, or the fee is refused, refreshed, and the second round pays
   it; what the receiver gets is less the fee of the round that paid.
   */
  lemma MintPaysExactly(custody: nat, toMain: bool, amount: nat, first: Round, refresh: Option<Error>, second: Round)
    ensures var r := Mint(custody, toMain, amount, true, first, refresh, second).result;
      && (r.Ok? <==> PaysInTime(custody, amount, first, refresh, second))
      && (Pays(custody, amount, first) ==> r == Ok(Success(amount - first.ledgerFee)))
      && (r.Ok? && !Pays(custody, amount, first) ==> r == Ok(Success(amount - second.ledgerFee)))
  {
    var again := Mint(custody, toMain, amount, false, second, refresh, second);
    assert again.result.Ok? <==> Pays(custody, amount, second);
  }

  /** Why the payout failed is what the round that decided it says. */
  lemma MintFailsWith(custody: nat, toMain: bool, amount: nat, first: Round, refresh: Option<Error>, second: Round)
    requires first.knownFee == Some(first.ledgerFee)
    ensures var r := Mint(custody, toMain, amount, true, first, refresh, second).result;
      && (amount <= first.ledgerFee ==> r == Err(InvalidBurnOperation))
      && (amount > first.ledgerFee && first.outage.Some? && first.outage.value != TransferFailed(BadFee) ==>
            r == Err(first.outage.value))
      && (amount > first.ledgerFee && first.outage == None && custody < amount ==>
            r == Err(TransferFailed(InsufficientFunds)))
  {
  }

  /** In this round the ledger makes the transfer into custody. */
  predicate Takes(custody: nat, source: Source, amount: nat, pull: Pull) {
    && pull.outage == None
    && (source.MainAccount? ==> source.spendsForItself && amount + pull.ledgerFee <= custody)
  }

  predicate TakesInTime(custody: nat, source: Source, amount: nat, first: Pull, refresh: Option<Error>, second: Pull) {
    && amount > 0
    && (|| Takes(custody, source, amount, first)
        || (first.outage == Some(TransferFailed(BadFee)) && refresh == None
            && Takes(custody, source, amount, second)))
  }

  /** A deposit succeeds exactly if the first round takes it, or a refused fee is refreshed and the second one does. */
  lemma BurnTakesExactly(custody: nat, source: Source, amount: nat, first: Pull, refresh: Option<Error>, second: Pull)
    ensures Burn(custody, source, amount, true, first, refresh, second).result.Ok?
       <==> TakesInTime(custody, source, amount, first, refresh, second)
  {
    var again := Burn(custody, source, amount, false, second, refresh, second);
    assert again.result.Ok? <==> amount > 0 && Takes(custody, source, amount, second);
  }

  /** Errors after which a payout is tried again later; any other error leads to a refund. */
  predicate IsRetryable(e: Error) {
    || e == TransferFailed(TooOld)
    || e == TransferFailed(CreatedInFuture)
    || e == TransferFailed(TemporarilyUnavailable)
    || e == TransferFailed(GenericError)
    || e == CallFailed(true)
  }
}
