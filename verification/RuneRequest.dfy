/** Driving one rune deposit request from status to status. */
module RuneRequests {
  import opened Words
  import opened Sums
  import opened RuneDeposits

  datatype RequestStatus =
    | Scheduled
    | WaitingForInputs
    | NothingToDeposit
    | WaitingForConfirmations
    | AmountsInvalid
    | MintOrdersCreated(orders: seq<Order>)
    | Minted
    | InternalError

  predicate IsComplete(s: RequestStatus) {
    s.NothingToDeposit? || s.AmountsInvalid? || s.Minted? || s.InternalError?
  }

  predicate IsWaiting(s: RequestStatus) {
    s.Scheduled? || s.WaitingForInputs? || s.WaitingForConfirmations?
  }

  /** An update reaches the request only while it is there and incomplete. */
  function Stored(current: Option<RequestStatus>, status: RequestStatus): Option<RequestStatus> {
    if current.Some? && !IsComplete(current.value) then Some(status) else current
  }

  /** The order after an attempt to send it. */
  function AfterSend(o: Order, reply: Option<nat>): (r: Order)
    ensures r.rune == o.rune && r.amount == o.amount
  {
    if o.status.Created? && reply.Some? then o.(status := Sent(o.status.nonce, reply.value)) else o
  }

  /** All orders after an attempt to send each: a failure leaves its order for a later try. */
  function AfterSends(orders: seq<Order>, replies: nat -> Option<nat>): (updated: seq<Order>)
    ensures |updated| == |orders|
    ensures forall i :: 0 <= i < |orders| ==> updated[i].rune == orders[i].rune && updated[i].amount == orders[i].amount
    ensures forall i :: 0 <= i < |orders| ==>
      if orders[i].status.Created? && replies(i).Some?
      then updated[i].status == Sent(orders[i].status.nonce, replies(i).value) else updated[i] == orders[i]
  {
    var sent := seq(|orders|, i requires 0 <= i < |orders| => AfterSend(orders[i], replies(i)));
    assert forall i :: 0 <= i < |orders| ==> sent[i] == AfterSend(orders[i], replies(i));
    sent
  }

  method SendOrders(orders: seq<Order>, replies: nat -> Option<nat>) returns (updated: seq<Order>, hasChanges: bool)
    ensures updated == AfterSends(orders, replies)
    ensures hasChanges <==> updated != orders
  {
    updated, hasChanges := [], false;
    for i := 0 to |orders|
      invariant |updated| == i
      invariant forall k :: 0 <= k < i ==> updated[k] == AfterSend(orders[k], replies(k))
      invariant hasChanges <==> updated != orders[..i]
    {
      var o := orders[i];
      ghost var before := updated;
      if o.status.Created? && replies(i).Some? {
        updated, hasChanges := updated + [o.(status := Sent(o.status.nonce, replies(i).value))], true;
      } else {
        updated := updated + [o];
      }
      assert orders[..i + 1] == orders[..i] + [o];
      assert updated[..i] == before && updated[i] != o ==> updated != orders[..i + 1];
      assert (updated == orders[..i + 1]) <==> (before == orders[..i] && updated[i] == o);
    }
    assert orders[..|orders|] == orders;
  }

  /** How preparing the orders ended: with orders, or with some other status to wait in or give up with. */
  datatype Preparation = Prepared(orders: seq<Order>) | NotPrepared(status: RequestStatus)

  /** The status of a request that cannot go on: it waits for inputs until its time is out. */
  function Bailed(timedOut: bool, bail: RequestStatus): RequestStatus {
    if timedOut then bail else WaitingForInputs
  }

  /** What it takes to prepare orders: UTXOs that are there, confirmed, orderable and not taken, and signatures. */
  ghost predicate CanPrepare<U>(fetched: Option<seq<U>>, confirmed: bool, index: seq<Option<Amounts>>,
                                requested: Option<Amounts>, known: map<Rune, RuneInfo>,
                                listed: Option<seq<RuneInfo>>, taken: set<U>, signs: nat -> bool,
                                holdings: seq<Amounts>)
    requires fetched.Some? ==> |fetched.value| == |holdings|
  {
    && fetched.Some? && fetched.value != [] && confirmed
    && CanOrder(index, requested, known, listed, holdings)
    && (forall u :: u in UsedOf(fetched.value, holdings) ==> u !in taken)
    && (forall i :: 0 <= i < |RunesOf(holdings)| ==> signs(i))
  }

  /** Sign the orders, unless a UTXO was taken meanwhile. */
  method OrderUntaken<U(==)>(infos: seq<(RuneInfo, nat)>, inputs: seq<U>, taken: set<U>, counter: U32,
                             signs: nat -> bool, others: nat -> nat, ghost amounts: Amounts,
                             ghost holdings: seq<Amounts>, ghost table: map<Rune, RuneInfo>)
    returns (orders: Option<seq<Order>>, counter': U32)
    requires Aggregates(amounts, holdings) && Lists(infos, amounts, table)
    ensures orders.Some? <==>
      (forall u :: u in inputs ==> u !in taken) && forall i :: 0 <= i < |RunesOf(holdings)| ==> signs(i)
    ensures orders.Some? ==>
      && |orders.value| == |RunesOf(holdings)|
      && (forall i :: 0 <= i < |orders.value| ==> orders.value[i].status.Created?)
      && counter' == NonceAfter(counter, TakenBefore(others, |orders.value|))
      && (InRange(holdings, |orders.value|, others) ==> OrdersConserve(orders.value, holdings))
  {
    if exists u :: u in inputs && u in taken {
      return None, counter;
    }
    ListsCount(infos, amounts, holdings, table);
    orders, counter' := CreateMintOrders(infos, counter, signs, others);
    if orders.Some? && InRange(holdings, |infos|, others) {
      DepositConserves(amounts, holdings, infos, table, counter, others, orders.value);
    }
  }

  /**
   From the address to the signed orders. `fetched` is the list of UTXOs, if it could be had, and `confirmed`
   whether all have enough confirmations; `taken` are UTXOs used by others meanwhile. `used` are those to mark
   as used. Everything the UTXOs hold is ordered, once, and the status otherwise tells what was missing.
   */
  method PrepareMintOrders<U(==)>(fetched: Option<seq<U>>, confirmed: bool, index: seq<Option<Amounts>>,
                                  requested: Option<Amounts>, known: map<Rune, RuneInfo>, listed: Option<seq<RuneInfo>>,
                                  taken: set<U>, counter: U32, signs: nat -> bool, others: nat -> nat, timedOut: bool,
                                  ghost holdings: seq<Amounts>)
    returns (r: Preparation, used: seq<U>, known': map<Rune, RuneInfo>, counter': U32)
    requires WellNamed(known) && (fetched.Some? ==> |index| == |fetched.value| == |holdings|)
    requires fetched.Some? ==> forall i :: 0 <= i < |index| && index[i].Some? ==> index[i].value == holdings[i]
    ensures WellNamed(known')
    ensures r.Prepared? <==> CanPrepare(fetched, confirmed, index, requested, known, listed, taken, signs, holdings)
    ensures r.Prepared? ==>
      && used == UsedOf(fetched.value, holdings) && |r.orders| == |RunesOf(holdings)|
      && (forall i :: 0 <= i < |r.orders| ==> r.orders[i].status.Created?)
      && counter' == NonceAfter(counter, TakenBefore(others, |r.orders|))
    ensures r.Prepared? && InRange(holdings, |r.orders|, others) ==> OrdersConserve(r.orders, holdings)
    ensures r == NotPrepared(WaitingForConfirmations) <==> fetched.Some? && fetched.value != [] && !confirmed
    ensures r == NotPrepared(NothingToDeposit) <==> fetched == Some([]) && timedOut
    ensures r.NotPrepared? ==>
      && used == []
      && r.status in if timedOut then {WaitingForConfirmations, NothingToDeposit, InternalError}
                   else {WaitingForConfirmations, WaitingForInputs}
  {
    used, known', counter' := [], known, counter;
    if fetched.None? {
      return NotPrepared(Bailed(timedOut, InternalError)), used, known', counter';
    }
    if fetched.value == [] {
      return NotPrepared(Bailed(timedOut, NothingToDeposit)), used, known', counter';
    }
    if !confirmed {
      return NotPrepared(WaitingForConfirmations), used, known', counter';
    }
    var found;
    ghost var amounts;
    found, known', amounts := GetMintAmounts(fetched.value, index, requested, known, listed, holdings);
    if found.Err? {
      return NotPrepared(Bailed(timedOut, InternalError)), used, known', counter';
    }
    var orders;
    orders, counter' := OrderUntaken(found.value.0, found.value.1, taken, counter, signs, others,
                                     amounts, holdings, known');
    if orders.None? {
      return NotPrepared(Bailed(timedOut, InternalError)), used, known', counter';
    }
    return Prepared(orders.value), found.value.1, known', counter';
  }

  /** What the world did during one step: the request as it is when the step's awaits are over, and the outcomes. */
  datatype World = World(meanwhile: Option<RequestStatus>, preparation: Preparation, replies: nat -> Option<nat>)

  /** The status a step wants to store, if any. */
  function NewStatus(status: RequestStatus, world: World): Option<RequestStatus> {
    if IsWaiting(status) then
      Some(if world.preparation.Prepared? then MintOrdersCreated(world.preparation.orders)
           else world.preparation.status)
    else if status.MintOrdersCreated? && AfterSends(status.orders, world.replies) != status.orders then
      Some(MintOrdersCreated(AfterSends(status.orders, world.replies)))
    else None
  }

  method ExecuteStep(status: RequestStatus, world: World) returns (entry: Option<RequestStatus>, goOn: bool)
    ensures goOn <==> IsWaiting(status) && world.preparation.Prepared?
    ensures world.meanwhile.None? || IsComplete(world.meanwhile.value) ==> entry == world.meanwhile
    ensures entry == match NewStatus(status, world)
                     case None => world.meanwhile
                     case Some(next) => Stored(world.meanwhile, next)
  {
    match status
    case MintOrdersCreated(orders) =>
      var updated, hasChanges := SendOrders(orders, world.replies);
      entry := if hasChanges then Stored(world.meanwhile, MintOrdersCreated(updated)) else world.meanwhile;
      goOn := false;
    case Scheduled | WaitingForInputs | WaitingForConfirmations =>
      match world.preparation {
        case Prepared(orders) => entry, goOn := Stored(world.meanwhile, MintOrdersCreated(orders)), true;
        case NotPrepared(next) => entry, goOn := Stored(world.meanwhile, next), false;
      }
    case NothingToDeposit | AmountsInvalid | Minted | InternalError =>
      entry, goOn := world.meanwhile, false;
  }

  /** Nothing but the request's own steps changes it. */
  predicate Undisturbed(request: Option<RequestStatus>, worlds: nat -> World) {
    && worlds(0).meanwhile == request
    && (worlds(0).preparation.Prepared? ==>
          worlds(1).meanwhile == Some(MintOrdersCreated(worlds(0).preparation.orders)))
  }

  /**
   The loop stops after two steps at most, whatever else happens to the request during its awaits. If nothing
   does, the prepared orders are sent in the second step, and each is stored with its rune and amount.
   */
  method ProcessDepositRequest(request: Option<RequestStatus>, worlds: nat -> World)
    returns (steps: nat, entry: Option<RequestStatus>)
    ensures steps <= 2
    ensures steps == 0 <==> request.None?
    ensures steps == 2 ==> IsWaiting(request.value) && worlds(0).preparation.Prepared?
    ensures steps == 1 && IsWaiting(request.value) && worlds(0).preparation.Prepared? ==>
      entry == worlds(0).meanwhile == None
    ensures
      request.Some? && IsWaiting(request.value) && worlds(0).preparation.Prepared? && Undisturbed(request, worlds) ==>
      steps == 2 && entry == Some(MintOrdersCreated(AfterSends(worlds(0).preparation.orders, worlds(1).replies)))
    ensures
      && request.Some? && IsWaiting(request.value) && worlds(0).meanwhile == request
      && worlds(0).preparation.NotPrepared? ==>
      steps == 1 && entry == Some(worlds(0).preparation.status)
    ensures request.Some? && request.value.MintOrdersCreated? && worlds(0).meanwhile == request ==>
      steps == 1 && entry == Some(MintOrdersCreated(AfterSends(request.value.orders, worlds(0).replies)))
  {
    steps, entry := 0, request;
    while entry.Some?
      invariant steps == 0 ==> entry == request
      invariant steps <= 1
      invariant steps == 1 ==>
        && request.Some? && IsWaiting(request.value) && worlds(0).preparation.Prepared?
        && entry == Stored(worlds(0).meanwhile, MintOrdersCreated(worlds(0).preparation.orders))
      decreases 2 - steps
    {
      var world := worlds(steps);
      var status := entry.value;
      var next, goOn := ExecuteStep(status, world);
      steps, entry := steps + 1, next;
      if !goOn {
        return;
      }
    }
  }

  /** Sending orders changes neither what they order nor their nonces. */
  lemma SendingConserves(orders: seq<Order>, replies: nat -> Option<nat>, holdings: seq<Amounts>)
    requires OrdersConserve(orders, holdings)
    ensures OrdersConserve(AfterSends(orders, replies), holdings)
  {
    var sent := AfterSends(orders, replies);
    assert forall i :: 0 <= i < |orders| ==> sent[i] == AfterSend(orders[i], replies(i));
    forall rune | Holds(holdings, rune) ensures exists i :: 0 <= i < |sent| && sent[i].rune == rune {
      var i :| 0 <= i < |orders| && orders[i].rune == rune;
      assert sent[i].rune == rune;
    }
  }

  /** The steps of a request that nothing else touches, given how preparing its orders ends. */
  method ProcessPrepared(status: RequestStatus, r: Preparation, replies: nat -> Option<nat>)
    returns (entry: Option<RequestStatus>)
    requires IsWaiting(status)
    ensures entry == Some(if r.Prepared? then MintOrdersCreated(AfterSends(r.orders, replies)) else r.status)
  {
    var request := Some(status);
    var stored := if r.Prepared? then Some(MintOrdersCreated(r.orders)) else request;
    var worlds := (n: nat) => World(if n == 0 then request else stored, r, replies);
    var steps;
    steps, entry := ProcessDepositRequest(request, worlds);
  }

  /**
   A request that nothing else touches, from the UTXOs to the sent orders: what is stored in the end orders all the
   runes that the UTXOs hold, each once, if orders could be prepared; otherwise it is the status that tells why not.
   */
  method ProcessUndisturbed<U(==)>(status: RequestStatus, fetched: Option<seq<U>>, confirmed: bool,
                                   index: seq<Option<Amounts>>, requested: Option<Amounts>, known: map<Rune, RuneInfo>,
                                   listed: Option<seq<RuneInfo>>, taken: set<U>, counter: U32, signs: nat -> bool,
                                   others: nat -> nat, timedOut: bool, replies: nat -> Option<nat>,
                                   ghost holdings: seq<Amounts>)
    returns (entry: Option<RequestStatus>, used: seq<U>, known': map<Rune, RuneInfo>, counter': U32)
    requires IsWaiting(status) && WellNamed(known) && (fetched.Some? ==> |index| == |fetched.value| == |holdings|)
    requires fetched.Some? ==> forall i :: 0 <= i < |index| && index[i].Some? ==> index[i].value == holdings[i]
    ensures WellNamed(known') && entry.Some?
    ensures entry.value.MintOrdersCreated? <==>
      CanPrepare(fetched, confirmed, index, requested, known, listed, taken, signs, holdings)
    ensures entry.value.MintOrdersCreated? ==>
      && used == UsedOf(fetched.value, holdings) && |entry.value.orders| == |RunesOf(holdings)|
      && (forall i :: 0 <= i < |entry.value.orders| ==> (entry.value.orders[i].status.Sent? <==> replies(i).Some?))
      && (InRange(holdings, |entry.value.orders|, others) ==> OrdersConserve(entry.value.orders, holdings))
    ensures !entry.value.MintOrdersCreated? ==>
      && used == []
      && entry.value in if timedOut then {WaitingForConfirmations, NothingToDeposit, InternalError}
                   else {WaitingForConfirmations, WaitingForInputs}
  {
    var r;
    r, used, known', counter' := PrepareMintOrders(fetched, confirmed, index, requested, known, listed, taken, counter,
                                                   signs, others, timedOut, holdings);
    entry := ProcessPrepared(status, r, replies);
    if r.Prepared? && InRange(holdings, |r.orders|, others) {
      SendingConserves(r.orders, replies, holdings);
    }
  }
}
