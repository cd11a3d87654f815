/**
 The bridge contract as an object that owns its wrapped tokens and its users' burn lists; each call is proved to
 be the call on its state, and to keep the contract's invariants.
 */
module BftBridgeContracts {
  import opened Words
  import opened Sums
  import opened MintOrders
  import opened WrappedTokens
  import opened Events
  import opened RingBuffers
  import Spec = BftBridges

  /** Each user's list of the blocks of his burns. */
  class BurnLists {
    var lists: map<Address, RingBufferUint32>

    ghost predicate Valid()
      reads this, lists.Values
    {
      Kept(lists)
    }

    /** Each user has a list of his own. */
    static ghost predicate Kept(lists: map<Address, RingBufferUint32>)
      reads lists.Values
    {
      && (forall u, v :: u in lists && v in lists && u != v ==> lists[u] != lists[v])
      && (forall u :: u in lists ==> lists[u].Valid())
    }

    static ghost function Histories(lists: map<Address, RingBufferUint32>): map<Address, seq<U32>>
      reads lists.Values
    {
      map u | u in lists :: lists[u].history
    }

    /** The blocks of all burns each user ever made. */
    ghost function Blocks(): map<Address, seq<U32>>
      reads this, lists.Values
    {
      Histories(lists)
    }

    constructor ()
      ensures Valid() && Blocks() == map[]
    {
      lists := map[];
    }

    /** A user without burns has an empty list. */
    method Record(user: Address, block: U32)
      requires Valid()
      modifies this, lists.Values
      ensures Valid() && Blocks() == Recorded(old(Blocks()), user, block)
    {
      if user in lists {
        Extend(lists, user, block);
      } else {
        assert BlocksBy(Blocks(), user) + [block] == [block];
        Begin(user, block);
      }
    }

    method Begin(user: Address, block: U32)
      requires Valid() && user !in lists
      modifies this
      ensures Valid() && Blocks() == old(Blocks())[user := [block]]
    {
      ghost var before := Histories(lists);
      var list := NewList(block);
      assert Histories(lists) == before;
      Adding(lists, user, list);
      lists := lists[user := list];
    }

    static method NewList(block: U32) returns (list: RingBufferUint32)
      ensures fresh(list) && list.Valid() && list.history == [block]
    {
      list := new RingBufferUint32();
      list.Push(block);
    }

    static method Extend(lists: map<Address, RingBufferUint32>, user: Address, block: U32)
      requires Kept(lists) && user in lists
      modifies lists[user]
      ensures Kept(lists) && Histories(lists) == old(Histories(lists))[user := old(lists[user].history) + [block]]
    {
      lists[user].Push(block);
    }

    static lemma Adding(lists: map<Address, RingBufferUint32>, user: Address, list: RingBufferUint32)
      requires Kept(lists) && user !in lists && list !in lists.Values && list.Valid()
      ensures Kept(lists[user := list])
      ensures Histories(lists[user := list]) == Histories(lists)[user := list.history]
    {
      var more := lists[user := list];
      assert forall u :: u in lists ==> lists[u] in lists.Values && more[u] == lists[u];
    }

    twostate lemma Unchanged()
      requires old(Valid()) && unchanged(this) && unchanged(lists.Values)
      ensures Valid() && Blocks() == old(Blocks())
    {
    }

    /** The last 255 of them, oldest first. */
    method Last(user: Address) returns (blocks: array<U32>)
      requires Valid()
      ensures fresh(blocks) && blocks[..] == Recent(BlocksBy(Blocks(), user))
    {
      if user in lists {
        blocks := lists[user].GetAll();
      } else {
        blocks := new U32[0];
      }
    }
  }

  ghost function BlocksBy(blocks: map<Address, seq<U32>>, user: Address): seq<U32> {
    if user in blocks then blocks[user] else []
  }

  /** The blocks with one more burn of `user`. */
  ghost function Recorded(blocks: map<Address, seq<U32>>, user: Address, block: U32): map<Address, seq<U32>> {
    blocks[user := BlocksBy(blocks, user) + [block]]
  }

  class BftBridge {
    const self: Address
    const minter: Address
    const chainId: nat
    const isWrappedSide: bool
    var paused: bool
    var erc20Registry: map<Id256, Address>
    var baseRegistry: map<Address, Id256>
    var wrappedTokenList: seq<Address>
    var tokens: map<Address, WrappedToken>
    var usedNonces: set<NonceKey>
    var operationCounter: U32
    var events: seq<BridgeEvent>
    const lastUserBurns: BurnLists
    ghost var contracts: set<Address>
    ghost var calls: seq<Spec.BridgeCall>  // every accepted call

    ghost function State(): Spec.BridgeState
      reads this, tokens.Values
    {
      Spec.BridgeState(self, minter, chainId, isWrappedSide, paused, erc20Registry, baseRegistry, wrappedTokenList,
                       StatesOf(tokens), contracts, usedNonces, operationCounter, events)
    }

    /** The states of a set of tokens, whatever happens to the bridge that owns them. */
    static ghost function StatesOf(tokens: map<Address, WrappedToken>): map<Address, TokenState>
      reads tokens.Values
    {
      map a | a in tokens :: tokens[a].State()
    }

    /** Each address has a token object of its own, owned by the bridge. */
    static ghost predicate Owned(tokens: map<Address, WrappedToken>, owner: Address)
      reads tokens.Values
    {
      && (forall a, b :: a in tokens && b in tokens && a != b ==> tokens[a] != tokens[b])
      && (forall a :: a in tokens ==> tokens[a].Valid() && tokens[a].owner == owner)
    }

    ghost function Start(): Spec.BridgeState {
      Spec.InitialBridge(self, minter, chainId, isWrappedSide)
    }

    /** The state is that of a run of contract calls from deployment, so it has all that such runs keep. */
    ghost predicate Valid()
      reads this, tokens.Values, lastUserBurns, lastUserBurns.lists.Values
    {
      self != ZERO_ADDRESS && Owned(tokens, self) && lastUserBurns.Valid() && State() == Spec.Run(Start(), calls)
    }

    lemma ValidIsInvariant()
      requires Valid()
      ensures Spec.BridgeInv(State())
    {
      Spec.EveryRunKeeps(self, minter, chainId, isWrappedSide, calls);
    }

    constructor (self: Address, minter: Address, chainId: nat, isWrappedSide: bool)
      requires self != ZERO_ADDRESS
      ensures Valid() && State() == Spec.InitialBridge(self, minter, chainId, isWrappedSide)
      ensures lastUserBurns.Blocks() == map[] && fresh(lastUserBurns)
    {
      this.self, this.minter, this.chainId, this.isWrappedSide := self, minter, chainId, isWrappedSide;
      paused, erc20Registry, baseRegistry, wrappedTokenList := false, map[], map[], [];
      tokens, usedNonces, operationCounter, events, contracts, calls := map[], {}, 0, [], {self}, [];
      lastUserBurns := new BurnLists();
    }

    function WrappedOf(id: Id256): Address
      reads this
    {
      if id in erc20Registry then erc20Registry[id] else ZERO_ADDRESS
    }

    function BaseOf(token: Address): Id256
      reads this
    {
      if token in baseRegistry then baseRegistry[token] else ZERO_ID
    }

    /** Extend the run by the call just made. */
    ghost method Note(run: seq<Spec.BridgeCall>)
      requires self != ZERO_ADDRESS && Owned(tokens, self) && lastUserBurns.Valid()
      requires State() == Spec.Run(Start(), run)
      modifies this`calls
      ensures Valid() && State() == old(State()) && lastUserBurns.Blocks() == old(lastUserBurns.Blocks())
    {
      ghost var states := StatesOf(tokens);
      calls := run;
      assert StatesOf(tokens) == states;
    }

    // ---- Deploying tokens ----

    /** `created` is the address the chain gives the new contract. */
    method DeployErc20(baseId: Id256, created: Address) returns (ok: bool)
      requires Valid() && created !in contracts && created !in tokens && created != ZERO_ADDRESS
      modifies this
      ensures Valid()
      ensures Spec.DeployErc20(old(State()), baseId, created) == if ok then Some(State()) else None
      ensures !ok ==> State() == old(State())
    {
      if !isWrappedSide || WrappedOf(baseId) != ZERO_ADDRESS {
        return false;
      }
      ghost var run := calls + [Spec.DeployCall(baseId, created)];
      Spec.RunExtends(Start(), calls, Spec.DeployCall(baseId, created));
      var token := new WrappedToken(self);
      Register(baseId, created, token);
      Note(run);
      ok := true;
    }

    method Register(baseId: Id256, created: Address, token: WrappedToken)
      requires Owned(tokens, self) && created !in tokens && token !in tokens.Values
      requires token.Valid() && token.State() == TokenState(self, map[], map[], 0)
      modifies this`erc20Registry, this`baseRegistry, this`tokens, this`wrappedTokenList, this`contracts
      ensures Owned(tokens, self)
      ensures StatesOf(tokens) == old(StatesOf(tokens))[created := TokenState(self, map[], map[], 0)]
      ensures erc20Registry == old(erc20Registry)[baseId := created]
      ensures baseRegistry == old(baseRegistry)[created := baseId]
      ensures wrappedTokenList == old(wrappedTokenList) + [created] && contracts == old(contracts) + {created}
    {
      Adding(tokens, created, token, self);
      AddToken(created, tokens[created := token]);
      erc20Registry, baseRegistry := erc20Registry[baseId := created], baseRegistry[created := baseId];
    }

    method AddToken(created: Address, more: map<Address, WrappedToken>)
      requires Owned(more, self)
      modifies this`tokens, this`wrappedTokenList, this`contracts
      ensures tokens == more && Owned(tokens, self) && StatesOf(tokens) == old(StatesOf(more))
      ensures wrappedTokenList == old(wrappedTokenList) + [created] && contracts == old(contracts) + {created}
    {
      tokens, wrappedTokenList, contracts := more, wrappedTokenList + [created], contracts + {created};
    }

    static lemma Adding(tokens: map<Address, WrappedToken>, created: Address, token: WrappedToken, owner: Address)
      requires Owned(tokens, owner) && created !in tokens && token !in tokens.Values
      requires token.Valid() && token.owner == owner
      ensures Owned(tokens[created := token], owner)
      ensures StatesOf(tokens[created := token]) == StatesOf(tokens)[created := token.State()]
    {
      var more := tokens[created := token];
      assert forall a :: a in tokens ==> tokens[a] in tokens.Values && more[a] == tokens[a];
    }

    /** All pairs of a wrapped token and its base token. */
    method ListTokenPairs() returns (wrapped: array<Address>, base: array<Id256>)
      requires Valid()
      ensures fresh(wrapped) && fresh(base)
      ensures wrapped[..] == wrappedTokenList && base.Length == wrapped.Length
      ensures forall i :: 0 <= i < base.Length ==> base[i] in erc20Registry && erc20Registry[base[i]] == wrapped[i]
      ensures forall id :: id in erc20Registry ==> erc20Registry[id] in wrapped[..]
    {
      ValidIsInvariant();
      Spec.ListedPairs(State());
      wrapped, base := FillPairs(wrappedTokenList, baseRegistry);
    }

    static method FillPairs(list: seq<Address>, registry: map<Address, Id256>)
      returns (wrapped: array<Address>, base: array<Id256>)
      ensures fresh(wrapped) && fresh(base)
      ensures wrapped[..] == list && base.Length == |list|
      ensures forall i :: 0 <= i < |list| ==> base[i] == if list[i] in registry then registry[list[i]] else ZERO_ID
    {
      wrapped := new Address[|list|];
      base := new Id256[|list|];
      for i := 0 to |list|
        invariant forall k :: 0 <= k < i ==> wrapped[k] == list[k]
        invariant forall k :: 0 <= k < i ==> base[k] == if list[k] in registry then registry[list[k]] else ZERO_ID
      {
        wrapped[i] := list[i];
        base[i] := if list[i] in registry then registry[list[i]] else ZERO_ID;
      }
    }

    // ---- Minting ----

    /**
     `signer` is the address recovered from the signature; `foreignOk` and `feeOk` decide calls into other
     contracts. A call that fails anywhere reverts, so what others decide is looked at before any change.
     */
    method Mint(caller: Address, payload: seq<Byte>, signer: Address, foreignOk: bool, feeOk: bool) returns (ok: bool)
      requires Valid()
      modifies this, tokens.Values
      ensures Valid() && tokens == old(tokens)
      ensures Spec.Mint(old(State()), caller, payload, signer, foreignOk, feeOk) == if ok then Some(State()) else None
      ensures !ok ==> State() == old(State())
    {
      if |payload| < ORDER_SIZE {
        return false;
      }
      var o := Decode(payload[..ORDER_SIZE]);
      ghost var c := Spec.MintCall(caller, payload, signer, foreignOk, feeOk);
      Spec.RunExtends(Start(), calls, c);
      ok := MintNoted(caller, o, signer, foreignOk, feeOk, calls + [c]);
    }

    method MintNoted(caller: Address, o: MintOrder, signer: Address, foreignOk: bool, feeOk: bool,
                     ghost run: seq<Spec.BridgeCall>)
      returns (ok: bool)
      requires Valid()
      requires var r := Spec.MintDecoded(State(), caller, o, signer, foreignOk, feeOk);
        r.Some? ==> Spec.Run(Start(), run) == r.value
      modifies this, tokens.Values
      ensures Valid() && tokens == old(tokens)
      ensures Spec.MintDecoded(old(State()), caller, o, signer, foreignOk, feeOk) == if ok then Some(State()) else None
      ensures !ok ==> State() == old(State())
    {
      ok := MintApart(caller, o, signer, foreignOk, feeOk);
      if ok {
        Note(run);
      }
    }

    /** A mint leaves the burn lists alone. */
    method MintApart(caller: Address, o: MintOrder, signer: Address, foreignOk: bool, feeOk: bool) returns (ok: bool)
      requires Owned(tokens, self) && lastUserBurns.Valid()
      modifies this`usedNonces, this`contracts, this`events, tokens.Values
      ensures Owned(tokens, self) && lastUserBurns.Valid()
      ensures Spec.MintDecoded(old(State()), caller, o, signer, foreignOk, feeOk) == if ok then Some(State()) else None
      ensures !ok ==> State() == old(State())
    {
      ok := MintOrder(caller, o, signer, foreignOk, feeOk);
      lastUserBurns.Unchanged();
    }

    method MintOrder(caller: Address, o: MintOrder, signer: Address, foreignOk: bool, feeOk: bool) returns (ok: bool)
      requires Owned(tokens, self)
      modifies this`usedNonces, this`contracts, this`events, tokens.Values
      ensures Owned(tokens, self)
      ensures Spec.MintDecoded(old(State()), caller, o, signer, foreignOk, feeOk) == if ok then Some(State()) else None
      ensures !ok ==> State() == old(State())
    {
      var accepted, toToken := Accept(caller, o, signer, feeOk);
      if !accepted {
        return false;
      }
      ghost var before, paid := State(), Spec.Paid(State(), toToken, o, foreignOk);
      ok := PayAndLog(toToken, o, foreignOk, paid);
      if ok {
        Spec.MintIs(before, paid.value, State(), caller, o, signer, foreignOk, feeOk);
      }
    }

    method PayAndLog(toToken: Address, o: MintOrder, foreignOk: bool, ghost paid: Option<Spec.BridgeState>)
      returns (ok: bool)
      requires Owned(tokens, self) && o.recipient != ZERO_ADDRESS && paid == Spec.Paid(State(), toToken, o, foreignOk)
      modifies this`usedNonces, this`contracts, this`events, tokens.Values
      ensures Owned(tokens, self) && ok == paid.Some?
      ensures ok ==> State() == paid.value.(
        usedNonces := paid.value.usedNonces + {(o.sender, o.nonce)},
        contracts := paid.value.contracts + {toToken},
        events := paid.value.events
          + [Minted(MintedEventData(o.amount, o.srcToken, o.sender, toToken, o.recipient, o.nonce))])
      ensures !ok ==> State() == old(State())
    {
      ok := PayTarget(toToken, o, foreignOk);
      if ok {
        LogMint(o, toToken);
      }
    }

    /** Everything a mint checks before it pays. */
    method Accept(caller: Address, o: MintOrder, signer: Address, feeOk: bool) returns (ok: bool, toToken: Address)
      ensures ok == Spec.Acceptable(State(), caller, o, signer, feeOk)
      ensures ok ==> toToken == Spec.Target(State(), o)
    {
      var valid := ValidateOrder(o);
      if paused || !valid || signer != minter {
        return false, ZERO_ADDRESS;
      }
      toToken := TargetOf(o);
      ok := toToken != ZERO_ADDRESS && !(o.feePayer != ZERO_ADDRESS && caller == minter && !feeOk);
    }

    method ValidateOrder(o: MintOrder) returns (ok: bool)
      ensures ok == Spec.ValidOrder(State(), o)
    {
      if o.recipient == ZERO_ADDRESS || o.amount == 0 {
        return false;
      }
      if (o.sender, o.nonce) in usedNonces || chainId != o.recipientChainId {
        return false;
      }
      if BaseOf(o.dstToken) != ZERO_ID {
        return WrappedOf(o.srcToken) == o.dstToken;
      }
      return true;
    }

    method TargetOf(o: MintOrder) returns (toToken: Address)
      ensures toToken == Spec.Target(State(), o)
    {
      toToken := WrappedOf(o.srcToken);
      if toToken == ZERO_ADDRESS {
        toToken := o.dstToken;
      }
    }

    /** The transfer of the order's token, be it one of the bridge's own or a foreign one. */
    method PayTarget(toToken: Address, o: MintOrder, foreignOk: bool) returns (ok: bool)
      requires Owned(tokens, self) && o.recipient != ZERO_ADDRESS
      modifies tokens.Values
      ensures Owned(tokens, self)
      ensures Spec.Paid(old(State()), toToken, o, foreignOk) == if ok then Some(State()) else None
      ensures !ok ==> State() == old(State())
    {
      if toToken !in tokens {
        return foreignOk;
      }
      ok := PayOwn(tokens, toToken, self, isWrappedSide, o);
    }

    static method PayOwn(tokens: map<Address, WrappedToken>, toToken: Address, self: Address, isWrappedSide: bool,
                         o: MintOrder)
      returns (ok: bool)
      requires Owned(tokens, self) && toToken in tokens && o.recipient != ZERO_ADDRESS
      modifies tokens[toToken]
      ensures Owned(tokens, self)
      ensures var r := Spec.PayOut(old(tokens[toToken].State()), self, isWrappedSide, o);
        && ok == r.Some?
        && StatesOf(tokens) == if ok then old(StatesOf(tokens))[toToken := r.value] else old(StatesOf(tokens))
    {
      ok := PayOut(tokens[toToken], self, isWrappedSide, o);
      assert StatesOf(tokens) == old(StatesOf(tokens))[toToken := tokens[toToken].State()];
    }

    /** Pay an order out of one of the bridge's own tokens. */
    static method PayOut(token: WrappedToken, self: Address, isWrappedSide: bool, o: MintOrder) returns (ok: bool)
      requires token.Valid() && token.owner == self && o.recipient != ZERO_ADDRESS
      modifies token
      ensures token.Valid()
      ensures ok == Spec.PayOut(old(token.State()), self, isWrappedSide, o).Some?
      ensures token.State()
           == if ok then Spec.PayOut(old(token.State()), self, isWrappedSide, o).value else old(token.State())
    {
      ok := token.CallTransfer(self, o.recipient, o.amount);
      if ok && o.approveSpender != ZERO_ADDRESS && o.approveAmount != 0 && isWrappedSide {
        var approved, reverted := token.CallApproveByOwner(self, o.recipient, o.approveSpender, o.approveAmount);
      }
    }

    method LogMint(o: MintOrder, toToken: Address)
      modifies this`usedNonces, this`contracts, this`events
      ensures State() == old(State()).(
        usedNonces := old(usedNonces) + {(o.sender, o.nonce)},
        contracts := old(contracts) + {toToken},
        events := old(events)
          + [Minted(MintedEventData(o.amount, o.srcToken, o.sender, toToken, o.recipient, o.nonce))])
    {
      usedNonces := usedNonces + {(o.sender, o.nonce)};
      contracts := contracts + {toToken};
      events := events + [Minted(MintedEventData(o.amount, o.srcToken, o.sender, toToken, o.recipient, o.nonce))];
    }

    // ---- Burning ----

    /** `block` is the number of the current block. */
    method Burn(msgSender: Address, amount: U256, fromErc20: Address, recipientId: Id256, meta: TokenMetadata,
                foreignOk: bool, block: nat)
      returns (operationId: Option<U32>)
      requires Valid() && msgSender != self
      modifies this, tokens.Values, lastUserBurns, lastUserBurns.lists.Values
      ensures Valid() && tokens == old(tokens)
      ensures Spec.Burn(old(State()), msgSender, amount, fromErc20, recipientId, meta, foreignOk)
           == if operationId.Some? then Some(State()) else None
      ensures operationId.Some? ==> operationId.value == old(operationCounter)
      ensures operationId.None? ==> State() == old(State())
      ensures operationId.Some? ==>
        lastUserBurns.Blocks() == Recorded(old(lastUserBurns.Blocks()), msgSender, block % TWO_32)
      ensures operationId.None? ==> lastUserBurns.Blocks() == old(lastUserBurns.Blocks())
    {
      operationId := BurnNoted(msgSender, amount, fromErc20, recipientId, meta, foreignOk);
      if operationId.Some? {
        ghost var after := State();
        RecordBurn(msgSender, block % TWO_32);
        assert State() == after;
      }
    }

    method RecordBurn(user: Address, block: U32)
      requires Valid()
      modifies lastUserBurns, lastUserBurns.lists.Values
      ensures Valid() && State() == old(State())
      ensures lastUserBurns.Blocks() == Recorded(old(lastUserBurns.Blocks()), user, block)
    {
      lastUserBurns.Record(user, block);
    }

    method BurnNoted(msgSender: Address, amount: U256, fromErc20: Address, recipientId: Id256, meta: TokenMetadata,
                     foreignOk: bool)
      returns (operationId: Option<U32>)
      requires Valid() && msgSender != self
      modifies this, tokens.Values
      ensures Valid() && tokens == old(tokens) && lastUserBurns.Blocks() == old(lastUserBurns.Blocks())
      ensures Spec.Burn(old(State()), msgSender, amount, fromErc20, recipientId, meta, foreignOk)
           == if operationId.Some? then Some(State()) else None
      ensures operationId.Some? ==> operationId.value == old(operationCounter)
      ensures operationId.None? ==> State() == old(State())
    {
      ghost var c := Spec.BurnCall(msgSender, amount, fromErc20, recipientId, meta, foreignOk);
      ghost var run := calls + [c];
      Spec.RunExtends(Start(), calls, c);
      operationId := BurnApart(msgSender, amount, fromErc20, recipientId, meta, foreignOk);
      if operationId.Some? {
        Note(run);
      }
    }

    /** The burn itself leaves the lists alone. */
    method BurnApart(msgSender: Address, amount: U256, fromErc20: Address, recipientId: Id256, meta: TokenMetadata,
                     foreignOk: bool)
      returns (operationId: Option<U32>)
      requires Owned(tokens, self) && lastUserBurns.Valid() && msgSender != self
      modifies this`operationCounter, this`contracts, this`events, tokens.Values
      ensures Owned(tokens, self)
      ensures lastUserBurns.Valid() && lastUserBurns.Blocks() == old(lastUserBurns.Blocks())
      ensures Spec.Burn(old(State()), msgSender, amount, fromErc20, recipientId, meta, foreignOk)
           == if operationId.Some? then Some(State()) else None
      ensures operationId.Some? ==> operationId.value == old(operationCounter)
      ensures operationId.None? ==> State() == old(State())
    {
      operationId := BurnTokens(msgSender, amount, fromErc20, recipientId, meta, foreignOk);
      lastUserBurns.Unchanged();
    }

    method BurnTokens(msgSender: Address, amount: U256, fromErc20: Address, recipientId: Id256, meta: TokenMetadata,
                      foreignOk: bool)
      returns (operationId: Option<U32>)
      requires Owned(tokens, self) && msgSender != self
      modifies this`operationCounter, this`contracts, this`events, tokens.Values
      ensures Owned(tokens, self)
      ensures Spec.Burn(old(State()), msgSender, amount, fromErc20, recipientId, meta, foreignOk)
           == if operationId.Some? then Some(State()) else None
      ensures operationId.Some? ==> operationId.value == old(operationCounter)
      ensures operationId.None? ==> State() == old(State())
    {
      ghost var before := State();
      if paused || fromErc20 == self || amount == 0 || fromErc20 == ZERO_ADDRESS || operationCounter == TWO_32 - 1 {
        return None;
      }
      var e := BurntEventData(msgSender, amount, fromErc20, recipientId, BaseOf(fromErc20), operationCounter, meta);
      var ok := Pull(fromErc20, msgSender, amount, foreignOk);
      if !ok {
        return None;
      }
      ghost var pulled := State();
      LogBurn(e);
      Spec.BurnIs(before, pulled, State(), e, foreignOk);
      return Some(e.operationId);
    }

    /** Take the burnt tokens from the sender. */
    method Pull(fromErc20: Address, sender: Address, amount: U256, foreignOk: bool) returns (ok: bool)
      requires Owned(tokens, self)
      modifies tokens.Values
      ensures Owned(tokens, self)
      ensures Spec.Pulled(old(State()), fromErc20, sender, amount, foreignOk) == if ok then Some(State()) else None
      ensures !ok ==> State() == old(State())
    {
      if fromErc20 !in tokens {
        return foreignOk;
      }
      ok := PullOwn(tokens, fromErc20, self, sender, amount);
    }

    static method PullOwn(tokens: map<Address, WrappedToken>, fromErc20: Address, self: Address, sender: Address,
                          amount: U256)
      returns (ok: bool)
      requires Owned(tokens, self) && fromErc20 in tokens
      modifies tokens[fromErc20]
      ensures Owned(tokens, self)
      ensures var r := TransferFrom(old(tokens[fromErc20].State()), self, sender, self, amount);
        && ok == r.Some?
        && StatesOf(tokens) == if ok then old(StatesOf(tokens))[fromErc20 := r.value] else old(StatesOf(tokens))
    {
      ok := tokens[fromErc20].CallTransferFrom(self, sender, self, amount);
      assert StatesOf(tokens) == old(StatesOf(tokens))[fromErc20 := tokens[fromErc20].State()];
    }

    method LogBurn(e: BurntEventData)
      requires operationCounter < TWO_32 - 1
      modifies this`operationCounter, this`contracts, this`events
      ensures State() == old(State()).(
        contracts := old(contracts) + {e.fromErc20},
        operationCounter := old(operationCounter) + 1,
        events := old(events) + [Burnt(e)])
    {
      operationCounter := operationCounter + 1;
      contracts := contracts + {e.fromErc20};
      events := events + [Burnt(e)];
    }

    /** The blocks of the caller's last 255 burns, oldest first. */
    method GetDepositBlocks(msgSender: Address) returns (blockNumbers: array<U32>)
      requires Valid()
      ensures fresh(blockNumbers) && blockNumbers[..] == Recent(BlocksBy(lastUserBurns.Blocks(), msgSender))
    {
      blockNumbers := lastUserBurns.Last(msgSender);
    }
  }
}
