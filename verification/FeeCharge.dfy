/** The fee contract: users' native-token deposits, out of which allowed bridges charge minting fees. */
module FeeCharges {
  import opened Words
  import opened Sums

  const MAX_BALANCE: nat := TWO_256 - 1

  /** `stray` is the value attached to withdraw calls, which the contract takes and credits to nobody. */
  datatype FeeState = FeeState(
    native: nat,
    userBalance: map<Address, nat>,
    approved: set<(Address, Id256)>,
    canCharge: set<Address>,
    stray: nat)

  /** The contract's own native balance is exactly what it owes its users, plus the stray value. */
  ghost predicate Solvent(s: FeeState) {
    s.native == Sum(s.userBalance) + s.stray
  }

  function Approvals(user: Address, ids: seq<Id256>): set<(Address, Id256)> {
    set id | id in ids :: (user, id)
  }

  /** None is a revert. */
  function Deposit(s: FeeState, user: Address, value: nat, ids: seq<Id256>): Option<FeeState> {
    if Get(s.userBalance, user) + value > MAX_BALANCE then None
    else Some(s.(native := s.native + value,
                 approved := s.approved + Approvals(user, ids),
                 userBalance := s.userBalance[user := Get(s.userBalance, user) + value]))
  }

  /** Sending native tokens fails for lack of funds, or if the receiver does not take them. */
  function Send(s: FeeState, amount: nat, accepted: bool): Option<FeeState> {
    if s.native < amount || !accepted then None else Some(s.(native := s.native - amount))
  }

  function Withdraw(s: FeeState, user: Address, amount: nat, value: nat, accepted: bool): Option<FeeState> {
    if amount == 0 || Get(s.userBalance, user) < amount then None
    else Send(Debited(s, user, amount).(native := s.native + value, stray := s.stray + value), amount, accepted)
  }

  function Debited(s: FeeState, user: Address, amount: nat): FeeState
    requires Get(s.userBalance, user) >= amount
  {
    s.(userBalance := s.userBalance[user := Get(s.userBalance, user) - amount])
  }

  function Charge(s: FeeState, msgSender: Address, from: Address, senderId: Id256, amount: nat, accepted: bool)
    : Option<FeeState>
  {
    if msgSender !in s.canCharge || Get(s.userBalance, from) < amount || (from, senderId) !in s.approved then None
    else Send(Debited(s, from, amount), amount, accepted)
  }

  function RemoveApprovals(s: FeeState, user: Address, ids: seq<Id256>): FeeState {
    s.(approved := s.approved - Approvals(user, ids))
  }

  // ---- Solvency ----

  lemma DepositKeepsSolvent(s: FeeState, user: Address, value: nat, ids: seq<Id256>)
    requires Solvent(s) && Deposit(s, user, value, ids).Some?
    ensures Solvent(Deposit(s, user, value, ids).value)
  {
    SumUpdate(s.userBalance, user, Get(s.userBalance, user) + value);
  }

  /** A deposit is refused exactly on overflow, and credits only its sender; the ids it names become approved. */
  lemma DepositCredits(s: FeeState, user: Address, value: nat, ids: seq<Id256>)
    ensures var r := Deposit(s, user, value, ids);
      && (r.Some? <==> Get(s.userBalance, user) + value <= MAX_BALANCE)
      && (r.Some? ==>
            && (forall u :: Get(r.value.userBalance, u) == Get(s.userBalance, u) + if u == user then value else 0)
            && (forall u, id :: (u, id) in r.value.approved <==> (u, id) in s.approved || (u == user && id in ids)))
  {
  }

  /** Between the debit and the transfer, the contract holds exactly the debited amount more than it owes. */
  lemma DebitLeavesFunds(s: FeeState, user: Address, amount: nat)
    requires Solvent(s) && Get(s.userBalance, user) >= amount
    ensures var d := Debited(s, user, amount); d.native == Sum(d.userBalance) + d.stray + amount
  {
    SumUpdate(s.userBalance, user, Get(s.userBalance, user) - amount);
  }

  /** A withdrawal is refused exactly for the reasons the user can see, never for lack of funds. */
  lemma WithdrawKeepsSolvent(s: FeeState, user: Address, amount: nat, value: nat, accepted: bool)
    requires Solvent(s)
    ensures var r := Withdraw(s, user, amount, value, accepted);
      && (r.Some? <==> 0 < amount <= Get(s.userBalance, user) && accepted)
      && (r.Some? ==>
            && Solvent(r.value)
            && forall u :: Get(r.value.userBalance, u) == Get(s.userBalance, u) - if u == user then amount else 0)
  {
    if Get(s.userBalance, user) >= amount {
      DebitLeavesFunds(s, user, amount);
    }
  }

  /** A fee is refused exactly for the stated reasons, and debits only a payer who approved the sender id. */
  lemma ChargeKeepsSolvent(s: FeeState, msgSender: Address, from: Address, senderId: Id256, amount: nat, accepted: bool)
    requires Solvent(s)
    ensures var r := Charge(s, msgSender, from, senderId, amount, accepted);
      && (r.Some? <==>
            && msgSender in s.canCharge && amount <= Get(s.userBalance, from)
            && (from, senderId) in s.approved && accepted)
      && (r.Some? ==>
            && Solvent(r.value)
            && forall u :: Get(r.value.userBalance, u) == Get(s.userBalance, u) - if u == from then amount else 0)
  {
    if Get(s.userBalance, from) >= amount {
      DebitLeavesFunds(s, from, amount);
    }
  }

  datatype Call =
    | DepositCall(user: Address, value: nat, ids: seq<Id256>)
    | WithdrawCall(user: Address, amount: nat, value: nat, accepted: bool)
    | RemoveCall(user: Address, ids: seq<Id256>)
    | ChargeCall(msgSender: Address, from: Address, senderId: Id256, amount: nat, accepted: bool)

  function Apply(s: FeeState, c: Call): Option<FeeState> {
    match c
    case DepositCall(user, value, ids) => Deposit(s, user, value, ids)
    case WithdrawCall(user, amount, value, accepted) => Withdraw(s, user, amount, value, accepted)
    case RemoveCall(user, ids) => Some(RemoveApprovals(s, user, ids))
    case ChargeCall(msgSender, from, senderId, amount, accepted) =>
      Charge(s, msgSender, from, senderId, amount, accepted)
  }

  function Run(s: FeeState, calls: seq<Call>): FeeState {
    if calls == [] then s else
      var before := Run(s, calls[..|calls| - 1]);
      var after := Apply(before, calls[|calls| - 1]);
      if after.Some? then after.value else before
  }

  lemma {:induction false} EveryRunSolvent(canCharge: set<Address>, calls: seq<Call>)
    ensures Solvent(Run(FeeState(0, map[], {}, canCharge, 0), calls))
    decreases |calls|
  {
    if calls != [] {
      EveryRunSolvent(canCharge, calls[..|calls| - 1]);
      var before := Run(FeeState(0, map[], {}, canCharge, 0), calls[..|calls| - 1]);
      match calls[|calls| - 1]
      case DepositCall(user, value, ids) =>
        if Deposit(before, user, value, ids).Some? { DepositKeepsSolvent(before, user, value, ids); }
      case WithdrawCall(user, amount, value, accepted) => WithdrawKeepsSolvent(before, user, amount, value, accepted);
      case RemoveCall(user, ids) =>
      case ChargeCall(msgSender, from, senderId, amount, accepted) =>
        ChargeKeepsSolvent(before, msgSender, from, senderId, amount, accepted);
    }
  }

  /** The i-th call approved the id: a deposit of the payer that went through and named it. */
  ghost predicate ApprovesAt(start: FeeState, calls: seq<Call>, i: nat, payer: Address, id: Id256)
    requires i < |calls|
  {
    && calls[i].DepositCall? && calls[i].user == payer && id in calls[i].ids
    && Apply(Run(start, calls[..i]), calls[i]).Some?
  }

  predicate Revokes(c: Call, payer: Address, id: Id256) {
    c.RemoveCall? && c.user == payer && id in c.ids
  }

  /** Some call approved the id, and no later one revoked it. */
  ghost predicate Approves(start: FeeState, calls: seq<Call>, payer: Address, id: Id256) {
    exists i :: 0 <= i < |calls| && ApprovesAt(start, calls, i, payer, id)
      && forall j :: i < j < |calls| ==> !Revokes(calls[j], payer, id)
  }

  lemma ApprovesExtends(start: FeeState, front: seq<Call>, c: Call, payer: Address, id: Id256)
    ensures var calls := front + [c];
      Approves(start, calls, payer, id) <==>
        ApprovesAt(start, calls, |front|, payer, id) || (Approves(start, front, payer, id) && !Revokes(c, payer, id))
  {
    var calls := front + [c];
    assert calls[|front|] == c && calls[..|front|] == front;
    forall i | 0 <= i < |front|
      ensures ApprovesAt(start, calls, i, payer, id) <==> ApprovesAt(start, front, i, payer, id)
    {
      assert calls[..i] == front[..i] && calls[i] == front[i];
    }
    if Approves(start, front, payer, id) && !Revokes(c, payer, id) {
      var i :| 0 <= i < |front| && ApprovesAt(start, front, i, payer, id)
        && forall j :: i < j < |front| ==> !Revokes(front[j], payer, id);
      assert ApprovesAt(start, calls, i, payer, id);
      assert forall j :: i < j < |calls| ==> calls[j] == if j < |front| then front[j] else c;
    }
    if Approves(start, calls, payer, id) {
      var i :| 0 <= i < |calls| && ApprovesAt(start, calls, i, payer, id)
        && forall j :: i < j < |calls| ==> !Revokes(calls[j], payer, id);
      if i < |front| {
        assert ApprovesAt(start, front, i, payer, id);
        assert forall j :: i < j < |front| ==> front[j] == calls[j];
        assert !Revokes(calls[|front|], payer, id);
      }
    }
  }

  /** Over every run, exactly the ids approved and not revoked since stand approved. */
  lemma {:induction false} ApprovedExactly(start: FeeState, calls: seq<Call>, payer: Address, id: Id256)
    requires start.approved == {}
    ensures (payer, id) in Run(start, calls).approved <==> Approves(start, calls, payer, id)
    decreases |calls|
  {
    if calls != [] {
      var front, c := calls[..|calls| - 1], calls[|calls| - 1];
      assert calls == front + [c];
      ApprovedExactly(start, front, payer, id);
      ApprovesExtends(start, front, c, payer, id);
    }
  }

  /** So a charge that goes through, at any time, names a sender id its payer approved and did not revoke since. */
  lemma EveryChargeIsApproved(start: FeeState, calls: seq<Call>, c: Call)
    requires start.approved == {} && c.ChargeCall? && Apply(Run(start, calls), c).Some?
    ensures Approves(start, calls, c.from, c.senderId)
  {
    ApprovedExactly(start, calls, c.from, c.senderId);
  }

  // ---- The contract as an object ----

  class FeeCharge {
    var native: nat
    var userBalance: map<Address, nat>
    var approvedIds: set<(Address, Id256)>
    var canChargeFee: set<Address>
    ghost var stray: nat

    ghost function State(): FeeState
      reads this
    {
      FeeState(native, userBalance, approvedIds, canChargeFee, stray)
    }

    ghost predicate Valid()
      reads this
    {
      Solvent(State())
    }

    constructor (allowed: seq<Address>)
      ensures Valid()
      ensures State() == FeeState(0, map[], {}, set a | a in allowed, 0)
    {
      native, userBalance, approvedIds, stray := 0, map[], {}, 0;
      canChargeFee := {};
      new;
      for i := 0 to |allowed|
        invariant native == stray == 0 && userBalance == map[] && approvedIds == {}
        invariant canChargeFee == set a | a in allowed[..i]
      {
        canChargeFee := canChargeFee + {allowed[i]};
        assert allowed[..i + 1] == allowed[..i] + [allowed[i]];
      }
      assert allowed[..|allowed|] == allowed;
    }

    method NativeTokenDeposit(msgSender: Address, value: nat, ids: seq<Id256>) returns (balance: Option<nat>)
      requires Valid()
      modifies this
      ensures Valid()
      ensures balance.Some? == Deposit(old(State()), msgSender, value, ids).Some?
      ensures balance.Some? ==>
        && State() == Deposit(old(State()), msgSender, value, ids).value
        && balance.value == Get(userBalance, msgSender) == Get(old(userBalance), msgSender) + value
      ensures balance.None? ==> State() == old(State())
    {
      var approved := approvedIds;
      for i := 0 to |ids|
        invariant approved == approvedIds + Approvals(msgSender, ids[..i])
      {
        approved := approved + {(msgSender, ids[i])};
        assert ids[..i + 1] == ids[..i] + [ids[i]];
      }
      assert ids[..|ids|] == ids;
      var credited := Get(userBalance, msgSender) + value;
      if credited > MAX_BALANCE {
        return None;
      }
      approvedIds, native := approved, native + value;
      userBalance := userBalance[msgSender := credited];
      DepositKeepsSolvent(old(State()), msgSender, value, ids);
      return Some(credited);
    }

    /** `accepted` is whether the user's account takes the payment; the guard on the funds never bites. */
    method NativeTokenWithdraw(msgSender: Address, amount: nat, value: nat, accepted: bool)
      returns (balance: Option<nat>)
      requires Valid()
      modifies this
      ensures Valid()
      ensures balance.Some? <==> 0 < amount <= Get(old(userBalance), msgSender) && accepted
      ensures balance.Some? ==>
        && Withdraw(old(State()), msgSender, amount, value, accepted) == Some(State())
        && balance.value + amount == Get(old(userBalance), msgSender)
      ensures balance.None? ==> State() == old(State())
    {
      WithdrawKeepsSolvent(State(), msgSender, amount, value, accepted);
      var current := Get(userBalance, msgSender);
      if amount == 0 || current < amount {
        return None;
      }
      if native + value < amount || !accepted {
        return None;
      }
      userBalance := userBalance[msgSender := current - amount];
      native, stray := native + value - amount, stray + value;
      return Some(current - amount);
    }

    method NativeTokenBalance(msgSender: Address, user: Address) returns (balance: nat)
      ensures balance == Get(userBalance, if user == ZERO_ADDRESS then msgSender else user)
    {
      balance := Get(userBalance, if user == ZERO_ADDRESS then msgSender else user);
    }

    method RemoveApprovedSenderIds(msgSender: Address, ids: seq<Id256>)
      requires Valid()
      modifies this`approvedIds
      ensures Valid() && State() == RemoveApprovals(old(State()), msgSender, ids)
    {
      for i := 0 to |ids|
        invariant approvedIds == old(approvedIds) - Approvals(msgSender, ids[..i])
      {
        approvedIds := approvedIds - {(msgSender, ids[i])};
        assert ids[..i + 1] == ids[..i] + [ids[i]];
      }
      assert ids[..|ids|] == ids;
    }

    method ChargeFee(msgSender: Address, from: Address, senderId: Id256, amount: nat, accepted: bool) returns (ok: bool)
      requires Valid()
      modifies this
      ensures Valid()
      ensures ok <==>
        && msgSender in canChargeFee && amount <= Get(old(userBalance), from)
        && (from, senderId) in approvedIds && accepted
      ensures ok ==> Charge(old(State()), msgSender, from, senderId, amount, accepted) == Some(State())
      ensures !ok ==> State() == old(State())
    {
      ChargeKeepsSolvent(State(), msgSender, from, senderId, amount, accepted);
      if msgSender !in canChargeFee || Get(userBalance, from) < amount || (from, senderId) !in approvedIds {
        return false;
      }
      if native < amount || !accepted {
        return false;
      }
      userBalance := userBalance[from := Get(userBalance, from) - amount];
      native := native - amount;
      return true;
    }
  }
}
