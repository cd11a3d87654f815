/**
 The wrapped ERC-20 token: an OpenZeppelin ERC-20 whose owner mints by `transfer`
 and burns by `transferFrom` to itself.
 */
module WrappedTokens {
  import opened Words
  import opened Sums

  const MAX_U256: U256 := TWO_256 - 1

  datatype TokenState = TokenState(
    owner: Address,
    balances: map<Address, nat>,
    allowances: map<(Address, Address), U256>,
    supply: nat)

  /** Total supply is exactly what all accounts hold together, and fits its word. */
  ghost predicate Balanced(t: TokenState) {
    t.supply == Sum(t.balances) && t.supply <= MAX_U256
  }

  function Allowance(t: TokenState, holder: Address, spender: Address): U256 {
    if (holder, spender) in t.allowances then t.allowances[(holder, spender)] else 0
  }

  // ---- OpenZeppelin primitives; None is a revert ----

  function MintTo(t: TokenState, account: Address, value: U256): Option<TokenState> {
    if account == ZERO_ADDRESS || t.supply + value > MAX_U256 then None
    else Some(t.(balances := t.balances[account := Get(t.balances, account) + value], supply := t.supply + value))
  }

  function BurnFrom(t: TokenState, account: Address, value: U256): Option<TokenState> {
    if account == ZERO_ADDRESS || Get(t.balances, account) < value || t.supply < value then None
    else Some(t.(balances := t.balances[account := Get(t.balances, account) - value], supply := t.supply - value))
  }

  function Move(t: TokenState, from: Address, to: Address, value: U256): Option<TokenState> {
    if from == ZERO_ADDRESS || to == ZERO_ADDRESS || Get(t.balances, from) < value then None
    else
      var debited := t.balances[from := Get(t.balances, from) - value];
      Some(t.(balances := debited[to := Get(debited, to) + value]))
  }

  function Approve(t: TokenState, holder: Address, spender: Address, value: U256): Option<TokenState> {
    if holder == ZERO_ADDRESS || spender == ZERO_ADDRESS then None
    else Some(t.(allowances := t.allowances[(holder, spender) := value]))
  }

  /** An allowance of the maximum word is never used up. */
  function SpendAllowance(t: TokenState, holder: Address, spender: Address, value: U256): Option<TokenState> {
    var current := Allowance(t, holder, spender);
    if current == MAX_U256 then Some(t)
    else if current < value then None
    else Approve(t, holder, spender, current - value)
  }

  // ---- The contract's own entry points ----

  function Transfer(t: TokenState, msgSender: Address, to: Address, value: U256): Option<TokenState> {
    if msgSender == t.owner then
      match MintTo(t, t.owner, value)
      case None => None
      case Some(minted) => Move(minted, msgSender, to, value)
    else
      Move(t, msgSender, to, value)
  }

  function TransferFrom(t: TokenState, msgSender: Address, sender: Address, recipient: Address, amount: U256)
    : Option<TokenState>
  {
    match SpendAllowance(t, sender, msgSender, amount)
    case None => None
    case Some(spent) =>
      match Move(spent, sender, recipient, amount)
      case None => None
      case Some(moved) =>
        if msgSender == t.owner && recipient == t.owner then BurnFrom(moved, t.owner, amount) else Some(moved)
  }

  /** A caller other than the owner changes nothing and is told `false`. */
  function ApproveByOwner(t: TokenState, msgSender: Address, from: Address, spender: Address, value: U256)
    : Option<TokenState>
  {
    if msgSender != t.owner then Some(t) else Approve(t, from, spender, value)
  }

  /** Any call to the token, by anyone. */
  datatype TokenCall =
    | CallTransfer(to: Address, value: U256)
    | CallTransferFrom(sender: Address, recipient: Address, value: U256)
    | CallApprove(spender: Address, value: U256)
    | CallApproveByOwner(from: Address, spender: Address, value: U256)

  function Execute(t: TokenState, msgSender: Address, c: TokenCall): Option<TokenState> {
    match c
    case CallTransfer(to, value) => Transfer(t, msgSender, to, value)
    case CallTransferFrom(sender, recipient, value) => TransferFrom(t, msgSender, sender, recipient, value)
    case CallApprove(spender, value) => Approve(t, msgSender, spender, value)
    case CallApproveByOwner(from, spender, value) => ApproveByOwner(t, msgSender, from, spender, value)
  }

  // ---- What the entry points mean ----

  lemma MoveKeepsSum(t: TokenState, from: Address, to: Address, value: U256)
    requires Move(t, from, to, value).Some?
    ensures Sum(Move(t, from, to, value).value.balances) == Sum(t.balances)
  {
    var debited := t.balances[from := Get(t.balances, from) - value];
    SumUpdate(t.balances, from, Get(t.balances, from) - value);
    SumUpdate(debited, to, Get(debited, to) + value);
  }

  /** Every balance after `value` went from `from` to `to`; nothing moves if they are the same. */
  ghost predicate Moved(before: map<Address, nat>, after: map<Address, nat>, from: Address, to: Address, value: nat) {
    forall a :: Get(after, a) + (if a == from then value else 0) == Get(before, a) + if a == to then value else 0
  }

  /**
   An ordinary transfer goes through exactly if both addresses are real and the caller has the tokens, and then
   moves them from the caller to the receiver and changes nothing else.
   */
  lemma TransferMoves(t: TokenState, msgSender: Address, to: Address, value: U256)
    requires msgSender != t.owner
    ensures var r := Transfer(t, msgSender, to, value);
      && (r.Some? <==> msgSender != ZERO_ADDRESS && to != ZERO_ADDRESS && value <= Get(t.balances, msgSender))
      && (r.Some? ==>
            && Moved(t.balances, r.value.balances, msgSender, to, value)
            && r.value.allowances == t.allowances && r.value.supply == t.supply && r.value.owner == t.owner)
  {
  }

  /** The allowances after `spender` used `amount` of what `holder` allowed; the maximum is never used up. */
  ghost predicate Lowered(t: TokenState, t': TokenState, holder: Address, spender: Address, amount: nat) {
    forall h, s ::
      Allowance(t', h, s) + (if h == holder && s == spender && Allowance(t, h, s) != MAX_U256 then amount else 0)
      == Allowance(t, h, s)
  }

  /** Who may take `amount` from `holder`. */
  predicate MayTake(t: TokenState, holder: Address, spender: Address, amount: nat) {
    Allowance(t, holder, spender) == MAX_U256 || (amount <= Allowance(t, holder, spender) && spender != ZERO_ADDRESS)
  }

  /**
   A transfer on behalf of another, unless the owner pulls to itself, goes through exactly if the addresses are
   real, the sender has the tokens and allowed the caller to take them; it moves them from the sender to the receiver
   and lowers that allowance, and changes nothing else.
   */
  lemma TransferFromMoves(t: TokenState, msgSender: Address, sender: Address, recipient: Address, amount: U256)
    requires !(msgSender == t.owner && recipient == t.owner)
    ensures var r := TransferFrom(t, msgSender, sender, recipient, amount);
      && (r.Some? <==>
            && sender != ZERO_ADDRESS && recipient != ZERO_ADDRESS && amount <= Get(t.balances, sender)
            && MayTake(t, sender, msgSender, amount))
      && (r.Some? ==>
            && Moved(t.balances, r.value.balances, sender, recipient, amount)
            && Lowered(t, r.value, sender, msgSender, amount)
            && r.value.supply == t.supply && r.value.owner == t.owner)
  {
  }

  /** Nothing changes but the one allowance. */
  ghost predicate SetsOnly(t: TokenState, t': TokenState, holder: Address, spender: Address, value: nat) {
    && t' == t.(allowances := t'.allowances)
    && forall h, s :: Allowance(t', h, s) == if h == holder && s == spender then value else Allowance(t, h, s)
  }

  /** An approval by a wallet, or by the owner for it, sets exactly that one allowance. */
  lemma ApprovalSets(t: TokenState, msgSender: Address, from: Address, spender: Address, value: U256)
    ensures var r := ApproveByOwner(t, msgSender, from, spender, value);
      && (r.Some? <==> msgSender != t.owner || (from != ZERO_ADDRESS && spender != ZERO_ADDRESS))
      && (r.Some? ==> if msgSender == t.owner then SetsOnly(t, r.value, from, spender, value) else r.value == t)
    ensures var r := Approve(t, msgSender, spender, value);
      && (r.Some? <==> msgSender != ZERO_ADDRESS && spender != ZERO_ADDRESS)
      && (r.Some? ==> SetsOnly(t, r.value, msgSender, spender, value))
  {
  }

  /** When the owner's two special calls go through. */
  lemma OwnerCallsExactly(t: TokenState, other: Address, amount: U256)
    requires Balanced(t)
    ensures Transfer(t, t.owner, other, amount).Some? <==>
      t.owner != ZERO_ADDRESS && other != ZERO_ADDRESS && t.supply + amount <= MAX_U256
    ensures TransferFrom(t, t.owner, other, t.owner, amount).Some? <==>
      && t.owner != ZERO_ADDRESS && other != ZERO_ADDRESS && amount <= Get(t.balances, other)
      && MayTake(t, other, t.owner, amount)
  {
    if Get(t.balances, other) > 0 {
      SumBounds(t.balances, other);
    }
  }

  /** The owner's transfer creates exactly `value` new tokens and credits them all to the receiver. */
  lemma OwnerTransferMints(t: TokenState, to: Address, value: U256)
    requires Balanced(t)
    requires Transfer(t, t.owner, to, value).Some?
    ensures var t' := Transfer(t, t.owner, to, value).value;
      && Balanced(t') && t'.owner == t.owner && t'.allowances == t.allowances
      && t'.supply == t.supply + value
      && forall a :: Get(t'.balances, a) == Get(t.balances, a) + if a == to then value else 0
  {
    var minted := MintTo(t, t.owner, value).value;
    SumUpdate(t.balances, t.owner, Get(t.balances, t.owner) + value);
    MoveKeepsSum(minted, t.owner, to, value);
  }

  /** The owner pulling tokens to itself destroys exactly `amount` of the sender's tokens. */
  lemma OwnerPullBurns(t: TokenState, sender: Address, amount: U256)
    requires Balanced(t)
    requires TransferFrom(t, t.owner, sender, t.owner, amount).Some?
    ensures var t' := TransferFrom(t, t.owner, sender, t.owner, amount).value;
      && Balanced(t') && t'.owner == t.owner
      && t'.supply + amount == t.supply
      && Get(t.balances, sender) >= amount && Lowered(t, t', sender, t.owner, amount)
      && forall a :: Get(t'.balances, a) + (if a == sender then amount else 0) == Get(t.balances, a)
  {
    var spent := SpendAllowance(t, sender, t.owner, amount).value;
    MoveKeepsSum(spent, sender, t.owner, amount);
    var moved := Move(spent, sender, t.owner, amount).value;
    SumUpdate(moved.balances, t.owner, Get(moved.balances, t.owner) - amount);
  }

  /** Whoever calls it, `transferFrom` keeps supply and balances in step. */
  lemma TransferFromKeepsBalanced(t: TokenState, msgSender: Address, sender: Address, recipient: Address, amount: U256)
    requires Balanced(t)
    ensures var r := TransferFrom(t, msgSender, sender, recipient, amount);
      r.Some? ==>
        && Balanced(r.value)
        && t.supply == r.value.supply + if msgSender == t.owner && recipient == t.owner then amount else 0
  {
    if TransferFrom(t, msgSender, sender, recipient, amount).Some? {
      if msgSender == t.owner && recipient == t.owner {
        OwnerPullBurns(t, sender, amount);
      } else {
        MoveKeepsSum(SpendAllowance(t, sender, msgSender, amount).value, sender, recipient, amount);
      }
    }
  }

  /** A call by anyone but the owner moves tokens between accounts and never changes the supply. */
  lemma OthersKeepSupply(t: TokenState, msgSender: Address, c: TokenCall)
    requires Balanced(t) && msgSender != t.owner
    requires Execute(t, msgSender, c).Some?
    ensures var t' := Execute(t, msgSender, c).value;
      Balanced(t') && t'.owner == t.owner && t'.supply == t.supply
  {
    match c
    case CallTransfer(to, value) => MoveKeepsSum(t, msgSender, to, value);
    case CallTransferFrom(sender, recipient, value) =>
      MoveKeepsSum(SpendAllowance(t, sender, msgSender, value).value, sender, recipient, value);
    case CallApprove(spender, value) =>
    case CallApproveByOwner(from, spender, value) =>
  }

  // ---- The contract as an object ----

  class WrappedToken {
    const owner: Address
    var balances: map<Address, nat>
    var allowances: map<(Address, Address), U256>
    var totalSupply: nat

    function State(): TokenState
      reads this
    {
      TokenState(owner, balances, allowances, totalSupply)
    }

    ghost predicate Valid()
      reads this
    {
      Balanced(State())
    }

    constructor (owner: Address)
      ensures Valid() && this.owner == owner
      ensures State() == TokenState(owner, map[], map[], 0)
    {
      this.owner := owner;
      balances, allowances, totalSupply := map[], map[], 0;
    }

    method MoveTokens(from: Address, to: Address, value: U256) returns (ok: bool)
      modifies this`balances
      ensures ok == Move(old(State()), from, to, value).Some?
      ensures ok ==> State() == Move(old(State()), from, to, value).value
      ensures !ok ==> State() == old(State())
    {
      if from == ZERO_ADDRESS || to == ZERO_ADDRESS || Get(balances, from) < value {
        return false;
      }
      balances := balances[from := Get(balances, from) - value];
      balances := balances[to := Get(balances, to) + value];
      ok := true;
    }

    /** A failed call reverts, so it leaves the state as it was. */
    method CallTransfer(msgSender: Address, to: Address, value: U256) returns (ok: bool)
      requires Valid()
      modifies this
      ensures Valid()
      ensures ok == Transfer(old(State()), msgSender, to, value).Some?
      ensures State() == if ok then Transfer(old(State()), msgSender, to, value).value else old(State())
      ensures ok && msgSender != owner ==> Moved(old(balances), balances, msgSender, to, value)
      ensures ok && msgSender == owner ==> totalSupply == old(totalSupply) + value
      ensures msgSender != owner ==> totalSupply == old(totalSupply)
    {
      var before := balances;
      if msgSender == owner {
        if owner == ZERO_ADDRESS || totalSupply + value > MAX_U256 {
          return false;
        }
        balances := balances[owner := Get(balances, owner) + value];
        totalSupply := totalSupply + value;
      }
      ok := MoveTokens(msgSender, to, value);
      if !ok && msgSender == owner {
        balances, totalSupply := before, totalSupply - value;
      }
      if ok {
        if msgSender == owner {
          OwnerTransferMints(old(State()), to, value);
        } else {
          OthersKeepSupply(old(State()), msgSender, TokenCall.CallTransfer(to, value));
          TransferMoves(old(State()), msgSender, to, value);
        }
      }
    }

    method UseAllowance(holder: Address, spender: Address, value: U256) returns (ok: bool)
      modifies this`allowances
      ensures ok == SpendAllowance(old(State()), holder, spender, value).Some?
      ensures State() == if ok then SpendAllowance(old(State()), holder, spender, value).value else old(State())
    {
      var current := Allowance(State(), holder, spender);
      if current == MAX_U256 {
        return true;
      }
      if current < value || holder == ZERO_ADDRESS || spender == ZERO_ADDRESS {
        return false;
      }
      allowances := allowances[(holder, spender) := current - value];
      ok := true;
    }

    method BurnTokens(account: Address, value: U256) returns (ok: bool)
      modifies this`balances, this`totalSupply
      ensures ok == BurnFrom(old(State()), account, value).Some?
      ensures State() == if ok then BurnFrom(old(State()), account, value).value else old(State())
    {
      if account == ZERO_ADDRESS || Get(balances, account) < value || totalSupply < value {
        return false;
      }
      balances := balances[account := Get(balances, account) - value];
      totalSupply := totalSupply - value;
      ok := true;
    }

    method CallTransferFrom(msgSender: Address, sender: Address, recipient: Address, amount: U256) returns (ok: bool)
      requires Valid()
      modifies this
      ensures Valid()
      ensures ok == TransferFrom(old(State()), msgSender, sender, recipient, amount).Some?
      ensures State()
           == if ok then TransferFrom(old(State()), msgSender, sender, recipient, amount).value else old(State())
      ensures ok && !(msgSender == owner && recipient == owner) ==>
        Moved(old(balances), balances, sender, recipient, amount)
      ensures ok && msgSender == owner && recipient == owner ==> totalSupply + amount == old(totalSupply)
      ensures msgSender != owner ==> totalSupply == old(totalSupply)
    {
      var balances0, allowances0 := balances, allowances;
      ok := UseAllowance(sender, msgSender, amount);
      if ok {
        ok := MoveTokens(sender, recipient, amount);
        if ok && msgSender == owner && recipient == owner {
          ok := BurnTokens(owner, amount);
        }
      }
      if !ok {
        balances, allowances := balances0, allowances0;
      }
      TransferFromKeepsBalanced(old(State()), msgSender, sender, recipient, amount);
      if !(msgSender == owner && recipient == owner) {
        TransferFromMoves(old(State()), msgSender, sender, recipient, amount);
      }
    }

    method CallApproveByOwner(msgSender: Address, from: Address, spender: Address, value: U256)
      returns (ok: bool, reverted: bool)
      modifies this`allowances
      ensures reverted == ApproveByOwner(old(State()), msgSender, from, spender, value).None?
      ensures State() == if reverted then old(State())
                         else ApproveByOwner(old(State()), msgSender, from, spender, value).value
      ensures ok == (msgSender == owner && !reverted)
      ensures !ok ==> State() == old(State())
    {
      if msgSender != owner {
        return false, false;
      }
      if from == ZERO_ADDRESS || spender == ZERO_ADDRESS {
        return false, true;
      }
      allowances := allowances[(from, spender) := value];
      return true, false;
    }
  }
}
