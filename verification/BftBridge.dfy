/**
 The BFTBridge contract with its token manager: deploying wrapped tokens, minting on signed
 orders, burning for the other side. A state is a value; None is a revert.
 */
module BftBridges {
  import opened Words
  import opened Sums
  import opened MintOrders
  import opened WrappedTokens
  import opened Events

  datatype BridgeState = BridgeState(
    self: Address,
    minter: Address,
    chainId: nat,
    isWrappedSide: bool,
    paused: bool,
    erc20Registry: map<Id256, Address>,
    baseRegistry: map<Address, Id256>,
    wrappedList: seq<Address>,
    tokens: map<Address, TokenState>,
    contracts: set<Address>,  // every address that ever held code
    usedNonces: set<NonceKey>,
    operationCounter: U32,
    events: seq<BridgeEvent>)

  function InitialBridge(self: Address, minter: Address, chainId: nat, isWrappedSide: bool): BridgeState {
    BridgeState(self, minter, chainId, isWrappedSide, false, map[], map[], [], map[], {self}, {}, 0, [])
  }

  function WrappedOf(b: BridgeState, id: Id256): Address {
    if id in b.erc20Registry then b.erc20Registry[id] else ZERO_ADDRESS
  }

  function BaseOf(b: BridgeState, token: Address): Id256 {
    if token in b.baseRegistry then b.baseRegistry[token] else ZERO_ID
  }

  function BalanceOf(b: BridgeState, token: Address, holder: Address): nat {
    if token in b.tokens then Get(b.tokens[token].balances, holder) else 0
  }

  // ---- Entry points ----

  /** `created` is the address the new token contract gets; an address that holds code cannot be chosen. */
  function DeployErc20(b: BridgeState, baseId: Id256, created: Address): Option<BridgeState> {
    if !b.isWrappedSide || WrappedOf(b, baseId) != ZERO_ADDRESS then None
    else if created in b.contracts || created == ZERO_ADDRESS then None
    else Some(b.(
      erc20Registry := b.erc20Registry[baseId := created],
      baseRegistry := b.baseRegistry[created := baseId],
      wrappedList := b.wrappedList + [created],
      tokens := b.tokens[created := TokenState(b.self, map[], map[], 0)],
      contracts := b.contracts + {created}))
  }

  predicate ValidOrder(b: BridgeState, o: MintOrder) {
    && o.recipient != ZERO_ADDRESS
    && o.amount > 0
    && (o.sender, o.nonce) !in b.usedNonces
    && b.chainId == o.recipientChainId
    && (BaseOf(b, o.dstToken) != ZERO_ID ==> WrappedOf(b, o.srcToken) == o.dstToken)
  }

  /** The token an order pays out. */
  function Target(b: BridgeState, o: MintOrder): Address {
    var registered := WrappedOf(b, o.srcToken);
    if registered == ZERO_ADDRESS then o.dstToken else registered
  }

  /** Credit the order's recipient, and set the approval it asks for. */
  function PayOut(t: TokenState, self: Address, isWrappedSide: bool, o: MintOrder): Option<TokenState> {
    match Transfer(t, self, o.recipient, o.amount)
    case None => None
    case Some(paid) =>
      if o.approveSpender != ZERO_ADDRESS && o.approveAmount != 0 && isWrappedSide
      then ApproveByOwner(paid, self, o.recipient, o.approveSpender, o.approveAmount)
      else Some(paid)
  }

  /** The transfer to the recipient: new wrapped tokens, or a call into a foreign token that succeeds or not. */
  function Paid(b: BridgeState, target: Address, o: MintOrder, foreignOk: bool): Option<BridgeState> {
    if target !in b.tokens then if foreignOk then Some(b) else None else
      match PayOut(b.tokens[target], b.self, b.isWrappedSide, o)
      case None => None
      case Some(t) => Some(b.(tokens := b.tokens[target := t]))
  }

  /** Everything a mint checks before it pays; `feeOk` is whether charging the fee payer succeeds. */
  predicate Acceptable(b: BridgeState, caller: Address, o: MintOrder, signer: Address, feeOk: bool) {
    && !b.paused && ValidOrder(b, o) && signer == b.minter && Target(b, o) != ZERO_ADDRESS
    && !(o.feePayer != ZERO_ADDRESS && caller == b.minter && !feeOk)
  }

  /**
   `signer` is the address recovered from the signature. `foreignOk` is whether calls into a token
   contract the bridge did not deploy succeed, `feeOk` whether charging the fee payer does.
   */
  function MintDecoded(b: BridgeState, caller: Address, o: MintOrder, signer: Address, foreignOk: bool, feeOk: bool)
    : Option<BridgeState>
  {
    var target := Target(b, o);
    if !Acceptable(b, caller, o, signer, feeOk) then None
    else match Paid(b, target, o, foreignOk)
      case None => None
      case Some(paid) => Some(paid.(
        usedNonces := b.usedNonces + {(o.sender, o.nonce)},
        contracts := b.contracts + {target},
        events := b.events + [MintedEvent(b, o)]))
  }

  function MintedEvent(b: BridgeState, o: MintOrder): BridgeEvent {
    Minted(MintedEventData(o.amount, o.srcToken, o.sender, Target(b, o), o.recipient, o.nonce))
  }

  function Mint(b: BridgeState, caller: Address, payload: seq<Byte>, signer: Address, foreignOk: bool, feeOk: bool)
    : (r: Option<BridgeState>)
    ensures r.Some? ==> b.events <= r.value.events
  {
    if |payload| < ORDER_SIZE then None
    else MintDecoded(b, caller, Decode(payload[..ORDER_SIZE]), signer, foreignOk, feeOk)
  }

  /** A mint is acceptance, payment and the log of both. */
  lemma MintIs(b: BridgeState, paid: BridgeState, b': BridgeState, caller: Address, o: MintOrder, signer: Address,
               foreignOk: bool, feeOk: bool)
    requires Acceptable(b, caller, o, signer, feeOk) && Paid(b, Target(b, o), o, foreignOk) == Some(paid)
    requires b' == paid.(usedNonces := b.usedNonces + {(o.sender, o.nonce)},
                         contracts := b.contracts + {Target(b, o)}, events := b.events + [MintedEvent(b, o)])
    ensures MintDecoded(b, caller, o, signer, foreignOk, feeOk) == Some(b')
  {
  }

  /** What the contract keeps of a decoded order: the recipient chain is only compared with its own. */
  function OrderData(o: MintOrder): MintOrder {
    o.(recipientChainId := 0)
  }

  /** On one chain, different acceptable payloads are different orders. */
  lemma PayloadsAreOrders(b: BridgeState, b': BridgeState, s: seq<Byte>, s': seq<Byte>)
    requires |s| == |s'| == ORDER_SIZE && b.chainId == b'.chainId
    requires ValidOrder(b, Decode(s)) && ValidOrder(b', Decode(s'))
    ensures OrderData(Decode(s)) == OrderData(Decode(s')) <==> s == s'
  {
    var o, o' := Decode(s), Decode(s');
    if OrderData(o) == OrderData(o') {
      assert o == OrderData(o).(recipientChainId := o.recipientChainId);
      assert o' == OrderData(o').(recipientChainId := o'.recipientChainId);
      EncodeDecode(s);
      EncodeDecode(s');
    }
  }

  /** Taking the burnt tokens from the sender: they disappear if they are the bridge's own. */
  function Pulled(b: BridgeState, fromErc20: Address, sender: Address, amount: U256, foreignOk: bool)
    : Option<BridgeState>
  {
    if fromErc20 !in b.tokens then if foreignOk then Some(b) else None else
      match TransferFrom(b.tokens[fromErc20], b.self, sender, b.self, amount)
      case None => None
      case Some(t) => Some(b.(tokens := b.tokens[fromErc20 := t]))
  }

  function Burn(b: BridgeState, msgSender: Address, amount: U256, fromErc20: Address, recipientId: Id256,
                meta: TokenMetadata, foreignOk: bool): Option<BridgeState>
  {
    if b.paused || fromErc20 == b.self || msgSender == b.self then None
    else if amount == 0 || fromErc20 == ZERO_ADDRESS || b.operationCounter == TWO_32 - 1 then None
    else match Pulled(b, fromErc20, msgSender, amount, foreignOk)
      case None => None
      case Some(pulled) => Some(pulled.(
        contracts := b.contracts + {fromErc20},
        operationCounter := b.operationCounter + 1,
        events := b.events + [Burnt(BurntEventData(msgSender, amount, fromErc20, recipientId,
                                                   BaseOf(b, fromErc20), b.operationCounter, meta))]))
  }

  /** Composing a burn from its parts. */
  lemma BurnIs(b: BridgeState, pulled: BridgeState, b': BridgeState, e: BurntEventData, foreignOk: bool)
    requires !b.paused && e.fromErc20 != b.self && e.sender != b.self
    requires e.amount != 0 && e.fromErc20 != ZERO_ADDRESS && b.operationCounter < TWO_32 - 1
    requires e.toToken == BaseOf(b, e.fromErc20) && e.operationId == b.operationCounter
    requires Pulled(b, e.fromErc20, e.sender, e.amount, foreignOk) == Some(pulled)
    requires b' == pulled.(contracts := b.contracts + {e.fromErc20}, operationCounter := b.operationCounter + 1,
                           events := b.events + [Burnt(e)])
    ensures Burn(b, e.sender, e.amount, e.fromErc20, e.recipientId, e.meta, foreignOk) == Some(b')
  {
  }

  function NotifyMinter(b: BridgeState, msgSender: Address, userData: Option<Icrc2Burn>): BridgeState {
    b.(events := b.events + [Notify(msgSender, userData)])
  }

  /** An ordinary token call by an account other than the bridge. */
  function UserCall(b: BridgeState, token: Address, msgSender: Address, c: TokenCall): Option<BridgeState> {
    if token !in b.tokens || msgSender == b.self then None else
      match Execute(b.tokens[token], msgSender, c)
      case None => None
      case Some(t) => Some(b.(tokens := b.tokens[token := t]))
  }

  datatype BridgeCall =
    | DeployCall(baseId: Id256, created: Address)
    | MintCall(caller: Address, payload: seq<Byte>, signer: Address, foreignOk: bool, feeOk: bool)
    | BurnCall(msgSender: Address, amount: U256, fromErc20: Address, recipientId: Id256,
               meta: TokenMetadata, foreignOk: bool)
    | NotifyCall(msgSender: Address, userData: Option<Icrc2Burn>)
    | TokenUserCall(token: Address, msgSender: Address, call: TokenCall)
    | PauseCall(paused: bool)

  function Apply(b: BridgeState, c: BridgeCall): Option<BridgeState> {
    match c
    case DeployCall(baseId, created) => DeployErc20(b, baseId, created)
    case MintCall(caller, payload, signer, foreignOk, feeOk) => Mint(b, caller, payload, signer, foreignOk, feeOk)
    case BurnCall(msgSender, amount, fromErc20, recipientId, meta, foreignOk) =>
      Burn(b, msgSender, amount, fromErc20, recipientId, meta, foreignOk)
    case NotifyCall(msgSender, userData) => Some(NotifyMinter(b, msgSender, userData))
    case TokenUserCall(token, msgSender, call) => UserCall(b, token, msgSender, call)
    case PauseCall(paused) => Some(b.(paused := paused))
  }

  /** The state after any sequence of calls; a call that reverts changes nothing. */
  function Run(b: BridgeState, calls: seq<BridgeCall>): BridgeState {
    if calls == [] then b else
      var before := Run(b, calls[..|calls| - 1]);
      var after := Apply(before, calls[|calls| - 1]);
      if after.Some? then after.value else before
  }

  lemma RunExtends(b: BridgeState, calls: seq<BridgeCall>, c: BridgeCall)
    ensures var r := Apply(Run(b, calls), c); r.Some? ==> Run(b, calls + [c]) == r.value
  {
    assert (calls + [c])[..|calls|] == calls;
  }

  // ---- What every call keeps ----

  /** The two registries are inverse to each other, and list exactly the deployed tokens. */
  ghost predicate RegistriesInverse(b: BridgeState) {
    && b.baseRegistry.Keys == b.tokens.Keys
    && (forall id :: id in b.erc20Registry ==>
          b.erc20Registry[id] in b.tokens && b.baseRegistry[b.erc20Registry[id]] == id)
    && (forall a :: a in b.tokens ==> b.baseRegistry[a] in b.erc20Registry && b.erc20Registry[b.baseRegistry[a]] == a)
    && ZERO_ADDRESS !in b.tokens && b.self !in b.tokens
    && b.tokens.Keys <= b.contracts && b.self in b.contracts
  }

  ghost predicate ListsTokens(b: BridgeState) {
    && (forall a :: a in b.wrappedList <==> a in b.tokens)
    && (forall i, j :: 0 <= i < j < |b.wrappedList| ==> b.wrappedList[i] != b.wrappedList[j])
  }

  /** Supply is the sum of balances and the minted minus the burnt events' amounts. */
  ghost predicate SuppliesMatchEvents(b: BridgeState) {
    && (forall a :: a in b.tokens ==>
          && Balanced(b.tokens[a])
          && b.tokens[a].owner == b.self
          && b.tokens[a].supply + BurntTotal(b.events, a) == MintedTotal(b.events, a))
    && (forall i :: 0 <= i < |b.events| ==>
          && (b.events[i].Minted? ==> b.events[i].minted.toErc20 in b.contracts)
          && (b.events[i].Burnt? ==> b.events[i].burnt.fromErc20 in b.contracts))
  }

  /** Each (sender, nonce) occurs in one mint event at most, and exactly the occurring ones are used. */
  ghost predicate NoncesOnce(b: BridgeState) {
    && (forall i :: 0 <= i < |b.events| && b.events[i].Minted? ==> KeyOf(b.events[i].minted) in b.usedNonces)
    && (forall k :: k in b.usedNonces ==>
          exists i :: 0 <= i < |b.events| && b.events[i].Minted? && KeyOf(b.events[i].minted) == k)
    && (forall i, j :: 0 <= i < j < |b.events| && b.events[i].Minted? && b.events[j].Minted? ==>
          KeyOf(b.events[i].minted) != KeyOf(b.events[j].minted))
  }

  /** No mint event pays a wrapped token of nonzero base id for another base id; burns name the burnt token's base. */
  ghost predicate PairsMatch(b: BridgeState) {
    forall i :: 0 <= i < |b.events| ==>
      && (b.events[i].Minted? && BaseOf(b, b.events[i].minted.toErc20) != ZERO_ID ==>
            BaseOf(b, b.events[i].minted.toErc20) == b.events[i].minted.fromToken)
      && (b.events[i].Burnt? ==> b.events[i].burnt.toToken == BaseOf(b, b.events[i].burnt.fromErc20))
  }

  ghost predicate BridgeInv(b: BridgeState) {
    RegistriesInverse(b) && ListsTokens(b) && SuppliesMatchEvents(b) && NoncesOnce(b) && PairsMatch(b)
  }

  lemma DeployKeepsRegistries(b: BridgeState, baseId: Id256, created: Address)
    requires RegistriesInverse(b) && ListsTokens(b) && DeployErc20(b, baseId, created).Some?
    ensures RegistriesInverse(DeployErc20(b, baseId, created).value)
    ensures ListsTokens(DeployErc20(b, baseId, created).value)
  {
    var b' := DeployErc20(b, baseId, created).value;
    assert baseId !in b.erc20Registry;
    assert b'.baseRegistry.Keys == b'.tokens.Keys;
    assert created !in b.wrappedList;
  }

  lemma DeployKeepsEvents(b: BridgeState, baseId: Id256, created: Address)
    requires BridgeInv(b) && DeployErc20(b, baseId, created).Some?
    ensures SuppliesMatchEvents(DeployErc20(b, baseId, created).value)
    ensures PairsMatch(DeployErc20(b, baseId, created).value)
  {
    var b' := DeployErc20(b, baseId, created).value;
    TotalsOfStranger(b.events, created);
    assert Sum<Address>(map[]) == 0;
    assert forall a :: a != created ==> BaseOf(b', a) == BaseOf(b, a);
  }

  lemma DeployKeeps(b: BridgeState, baseId: Id256, created: Address)
    requires BridgeInv(b) && DeployErc20(b, baseId, created).Some?
    ensures BridgeInv(DeployErc20(b, baseId, created).value)
  {
    DeployKeepsRegistries(b, baseId, created);
    DeployKeepsEvents(b, baseId, created);
  }

  /** The token list and the registries tell the same pairs. */
  lemma ListedPairs(b: BridgeState)
    requires RegistriesInverse(b) && ListsTokens(b)
    ensures forall i :: 0 <= i < |b.wrappedList| ==>
      BaseOf(b, b.wrappedList[i]) in b.erc20Registry && b.erc20Registry[BaseOf(b, b.wrappedList[i])] == b.wrappedList[i]
    ensures forall id :: id in b.erc20Registry ==> b.erc20Registry[id] in b.wrappedList
  {
    assert forall i :: 0 <= i < |b.wrappedList| ==> b.wrappedList[i] in b.tokens;
  }

  /** An accepted order never pays out a wrapped token of nonzero base id for a different base id. */
  lemma PairSafety(b: BridgeState, o: MintOrder)
    requires RegistriesInverse(b) && ValidOrder(b, o)
    ensures BaseOf(b, Target(b, o)) != ZERO_ID ==> BaseOf(b, Target(b, o)) == o.srcToken
    ensures Target(b, o) == if o.srcToken in b.erc20Registry then b.erc20Registry[o.srcToken] else o.dstToken
  {
  }

  /** The state after paying out: the recipient's tokens are new ones. */
  lemma PayOutMints(t: TokenState, isWrappedSide: bool, o: MintOrder)
    requires Balanced(t) && PayOut(t, t.owner, isWrappedSide, o).Some?
    ensures var t' := PayOut(t, t.owner, isWrappedSide, o).value;
      && Balanced(t') && t'.owner == t.owner && t'.supply == t.supply + o.amount
      && (forall a :: Get(t'.balances, a) == Get(t.balances, a) + if a == o.recipient then o.amount else 0)
      && ApprovesOnly(t, t', isWrappedSide, o)
  {
    OwnerTransferMints(t, o.recipient, o.amount);
  }

  /** The only allowance that changes is the one the order asks for, to what it asks for, on the wrapped side. */
  ghost predicate ApprovesOnly(t: TokenState, t': TokenState, isWrappedSide: bool, o: MintOrder) {
    var asked := isWrappedSide && o.approveSpender != ZERO_ADDRESS && o.approveAmount != 0;
    forall h, s :: Allowance(t', h, s)
      == if asked && h == o.recipient && s == o.approveSpender then o.approveAmount else Allowance(t, h, s)
  }

  function MintedPart(e: BridgeEvent, a: Address): nat {
    if e.Minted? && e.minted.toErc20 == a then e.minted.amount else 0
  }

  function BurntPart(e: BridgeEvent, a: Address): nat {
    if e.Burnt? && e.burnt.fromErc20 == a then e.burnt.amount else 0
  }

  /** A step that logs `e`, and changes token supplies exactly as `e` says. */
  ghost predicate Logs(b: BridgeState, b': BridgeState, e: BridgeEvent) {
    && b'.self == b.self && b'.erc20Registry == b.erc20Registry && b'.baseRegistry == b.baseRegistry
    && b'.wrappedList == b.wrappedList
    && b'.events == b.events + [e]
    && b.contracts <= b'.contracts
    && b'.tokens.Keys == b.tokens.Keys
    && (forall a :: a in b.tokens ==>
          && Balanced(b'.tokens[a])
          && b'.tokens[a].owner == b.self
          && b'.tokens[a].supply + BurntPart(e, a) == b.tokens[a].supply + MintedPart(e, a))
    && (e.Minted? ==> e.minted.toErc20 in b'.contracts)
    && (e.Burnt? ==> e.burnt.fromErc20 in b'.contracts)
  }

  lemma LogsKeepSupplies(b: BridgeState, b': BridgeState, e: BridgeEvent)
    requires SuppliesMatchEvents(b) && Logs(b, b', e)
    ensures SuppliesMatchEvents(b')
  {
    forall a | a in b'.tokens
      ensures b'.tokens[a].supply + BurntTotal(b'.events, a) == MintedTotal(b'.events, a)
    {
      TotalsExtend(b.events, e, a);
    }
  }

  lemma LogsKeepNonces(b: BridgeState, b': BridgeState, e: BridgeEvent)
    requires NoncesOnce(b) && b'.events == b.events + [e]
    requires if e.Minted? then KeyOf(e.minted) !in b.usedNonces && b'.usedNonces == b.usedNonces + {KeyOf(e.minted)}
             else b'.usedNonces == b.usedNonces
    ensures NoncesOnce(b')
  {
    forall k | k in b'.usedNonces
      ensures exists i :: 0 <= i < |b'.events| && b'.events[i].Minted? && KeyOf(b'.events[i].minted) == k
    {
      if k in b.usedNonces {
        var i :| 0 <= i < |b.events| && b.events[i].Minted? && KeyOf(b.events[i].minted) == k;
        assert b'.events[i] == b.events[i];
      } else {
        assert b'.events[|b.events|] == e;
      }
    }
  }

  lemma LogsKeepPairs(b: BridgeState, b': BridgeState, e: BridgeEvent)
    requires PairsMatch(b) && Logs(b, b', e)
    requires e.Minted? && BaseOf(b, e.minted.toErc20) != ZERO_ID ==> BaseOf(b, e.minted.toErc20) == e.minted.fromToken
    requires e.Burnt? ==> e.burnt.toToken == BaseOf(b, e.burnt.fromErc20)
    ensures PairsMatch(b')
  {
    assert forall a :: BaseOf(b', a) == BaseOf(b, a);
  }

  /** What a step that logs a fitting event keeps. */
  lemma LogsKeep(b: BridgeState, b': BridgeState, e: BridgeEvent)
    requires BridgeInv(b) && Logs(b, b', e)
    requires if e.Minted? then KeyOf(e.minted) !in b.usedNonces && b'.usedNonces == b.usedNonces + {KeyOf(e.minted)}
             else b'.usedNonces == b.usedNonces
    requires e.Minted? && BaseOf(b, e.minted.toErc20) != ZERO_ID ==> BaseOf(b, e.minted.toErc20) == e.minted.fromToken
    requires e.Burnt? ==> e.burnt.toToken == BaseOf(b, e.burnt.fromErc20)
    ensures BridgeInv(b')
  {
    LogsKeepSupplies(b, b', e);
    LogsKeepNonces(b, b', e);
    LogsKeepPairs(b, b', e);
  }

  lemma SuppliesBalanced(b: BridgeState)
    requires SuppliesMatchEvents(b)
    ensures TokensBalanced(b)
  {
  }

  /** Tokens change only as told: `target` by the new tokens of `holder`, or by those taken from it. */
  ghost predicate OnlyChanges(b: BridgeState, b': BridgeState, target: Address, holder: Address, plus: nat, minus: nat)
  {
    && b' == b.(tokens := b'.tokens) && b'.tokens.Keys == b.tokens.Keys
    && (forall w :: w in b.tokens ==>
          && Balanced(b'.tokens[w]) && b'.tokens[w].owner == b.self
          && b'.tokens[w].supply + (if w == target then minus else 0)
             == b.tokens[w].supply + if w == target then plus else 0)
    && (forall w, a :: w in b.tokens ==>
          BalanceOf(b', w, a) + (if w == target && a == holder then minus else 0)
          == BalanceOf(b, w, a) + if w == target && a == holder then plus else 0)
  }

  ghost predicate TokensBalanced(b: BridgeState) {
    forall a :: a in b.tokens ==> Balanced(b.tokens[a]) && b.tokens[a].owner == b.self
  }

  /** Only the token `target` changes, from `t` to `t'`, by what `holder` gains or loses. */
  lemma OneTokenChanges(b: BridgeState, target: Address, t: TokenState, holder: Address, plus: nat, minus: nat)
    requires TokensBalanced(b) && target in b.tokens && Balanced(t) && t.owner == b.self
    requires t.supply + minus == b.tokens[target].supply + plus
    requires forall a :: Get(t.balances, a) + (if a == holder then minus else 0)
                      == Get(b.tokens[target].balances, a) + if a == holder then plus else 0
    ensures OnlyChanges(b, b.(tokens := b.tokens[target := t]), target, holder, plus, minus)
  {
  }

  lemma PaidEffect(b: BridgeState, target: Address, o: MintOrder, foreignOk: bool)
    requires TokensBalanced(b) && Paid(b, target, o, foreignOk).Some?
    ensures OnlyChanges(b, Paid(b, target, o, foreignOk).value, target, o.recipient, o.amount, 0)
  {
    if target in b.tokens {
      PayOutMints(b.tokens[target], b.isWrappedSide, o);
      var t := PayOut(b.tokens[target], b.self, b.isWrappedSide, o).value;
      OneTokenChanges(b, target, t, o.recipient, o.amount, 0);
    }
  }

  lemma PulledEffect(b: BridgeState, fromErc20: Address, sender: Address, amount: U256, foreignOk: bool)
    requires TokensBalanced(b) && Pulled(b, fromErc20, sender, amount, foreignOk).Some?
    ensures OnlyChanges(b, Pulled(b, fromErc20, sender, amount, foreignOk).value, fromErc20, sender, 0, amount)
  {
    if fromErc20 in b.tokens {
      OwnerPullBurns(b.tokens[fromErc20], sender, amount);
      var t := TransferFrom(b.tokens[fromErc20], b.self, sender, b.self, amount).value;
      OneTokenChanges(b, fromErc20, t, sender, 0, amount);
    }
  }

  /** What an accepted mint does: the order is fresh and signed, its key is used up, and its recipient credited. */
  lemma MintEffect(b: BridgeState, caller: Address, o: MintOrder, signer: Address, foreignOk: bool, feeOk: bool)
    requires TokensBalanced(b)
    requires MintDecoded(b, caller, o, signer, foreignOk, feeOk).Some?
    ensures signer == b.minter && ValidOrder(b, o)
    ensures var b' := MintDecoded(b, caller, o, signer, foreignOk, feeOk).value;
      && Logs(b, b', MintedEvent(b, o))
      && b'.usedNonces == b.usedNonces + {(o.sender, o.nonce)}
      && (forall w, a :: w in b.tokens ==>
            BalanceOf(b', w, a) == BalanceOf(b, w, a) + if w == Target(b, o) && a == o.recipient then o.amount else 0)
      && (forall w :: w in b.tokens && w != Target(b, o) ==> b'.tokens[w] == b.tokens[w])
      && (Target(b, o) in b.tokens ==>
            ApprovesOnly(b.tokens[Target(b, o)], b'.tokens[Target(b, o)], b.isWrappedSide, o))
  {
    if Target(b, o) in b.tokens {
      PayOutMints(b.tokens[Target(b, o)], b.isWrappedSide, o);
    }
    PaidEffect(b, Target(b, o), o, foreignOk);
  }

  lemma MintKeeps(b: BridgeState, caller: Address, o: MintOrder, signer: Address, foreignOk: bool, feeOk: bool)
    requires BridgeInv(b) && MintDecoded(b, caller, o, signer, foreignOk, feeOk).Some?
    ensures BridgeInv(MintDecoded(b, caller, o, signer, foreignOk, feeOk).value)
  {
    SuppliesBalanced(b);
    MintEffect(b, caller, o, signer, foreignOk, feeOk);
    PairSafety(b, o);
    LogsKeep(b, MintDecoded(b, caller, o, signer, foreignOk, feeOk).value, MintedEvent(b, o));
  }

  function BurntEvent(b: BridgeState, msgSender: Address, amount: U256, fromErc20: Address, recipientId: Id256,
                      meta: TokenMetadata): BridgeEvent
  {
    Burnt(BurntEventData(msgSender, amount, fromErc20, recipientId, BaseOf(b, fromErc20), b.operationCounter, meta))
  }

  /** What an accepted burn does: exactly the sender's tokens disappear, and the event names their base token. */
  lemma BurnEffect(b: BridgeState, msgSender: Address, amount: U256, fromErc20: Address, recipientId: Id256,
                   meta: TokenMetadata, foreignOk: bool)
    requires TokensBalanced(b)
    requires Burn(b, msgSender, amount, fromErc20, recipientId, meta, foreignOk).Some?
    ensures var b' := Burn(b, msgSender, amount, fromErc20, recipientId, meta, foreignOk).value;
      && Logs(b, b', BurntEvent(b, msgSender, amount, fromErc20, recipientId, meta))
      && amount > 0 && b'.usedNonces == b.usedNonces && b'.operationCounter == b.operationCounter + 1
      && (forall w :: w in b.tokens && w != fromErc20 ==> b'.tokens[w] == b.tokens[w])
      && (fromErc20 in b.tokens ==> Lowered(b.tokens[fromErc20], b'.tokens[fromErc20], msgSender, b.self, amount))
      && (forall w, a :: w in b.tokens ==>
            BalanceOf(b', w, a) + (if w == fromErc20 && a == msgSender then amount else 0) == BalanceOf(b, w, a))
  {
    if fromErc20 in b.tokens {
      OwnerPullBurns(b.tokens[fromErc20], msgSender, amount);
    }
    PulledEffect(b, fromErc20, msgSender, amount, foreignOk);
  }

  // ---- When a call goes through, and what it does ----

  /** A mint goes through exactly if all of this holds. */
  lemma MintAcceptedExactly(b: BridgeState, caller: Address, o: MintOrder, signer: Address, foreignOk: bool,
                            feeOk: bool)
    requires TokensBalanced(b)
    ensures MintDecoded(b, caller, o, signer, foreignOk, feeOk).Some? <==>
      && !b.paused && signer == b.minter
      && o.recipient != ZERO_ADDRESS && o.amount > 0 && o.recipientChainId == b.chainId
      && (o.sender, o.nonce) !in b.usedNonces
      && (BaseOf(b, o.dstToken) == ZERO_ID || WrappedOf(b, o.srcToken) == o.dstToken)
      && Target(b, o) != ZERO_ADDRESS
      && (o.feePayer == ZERO_ADDRESS || caller != b.minter || feeOk)
      && if Target(b, o) in b.tokens
         then b.self != ZERO_ADDRESS && b.tokens[Target(b, o)].supply + o.amount <= MAX_U256 else foreignOk
  {
    if Target(b, o) in b.tokens {
      OwnerCallsExactly(b.tokens[Target(b, o)], o.recipient, o.amount);
    }
  }

  /** And a burn exactly if all of this does. */
  lemma BurnAcceptedExactly(b: BridgeState, msgSender: Address, amount: U256, fromErc20: Address, recipientId: Id256,
                            meta: TokenMetadata, foreignOk: bool)
    requires TokensBalanced(b) && msgSender != b.self
    ensures Burn(b, msgSender, amount, fromErc20, recipientId, meta, foreignOk).Some? <==>
      && !b.paused && fromErc20 != b.self && fromErc20 != ZERO_ADDRESS && amount > 0
      && b.operationCounter < TWO_32 - 1
      && if fromErc20 in b.tokens
         then && b.self != ZERO_ADDRESS && msgSender != ZERO_ADDRESS
              && amount <= BalanceOf(b, fromErc20, msgSender) && MayTake(b.tokens[fromErc20], msgSender, b.self, amount)
         else foreignOk
  {
    if fromErc20 in b.tokens {
      OwnerCallsExactly(b.tokens[fromErc20], msgSender, amount);
    }
  }

  /** A user's call to a wrapped token goes through exactly if the token takes it, and changes that token alone. */
  lemma UserCallExactly(b: BridgeState, token: Address, msgSender: Address, c: TokenCall)
    requires token in b.tokens && msgSender != b.self
    ensures var r := UserCall(b, token, msgSender, c);
      && (r.Some? <==> Execute(b.tokens[token], msgSender, c).Some?)
      && (r.Some? ==>
            && r.value == b.(tokens := r.value.tokens) && r.value.tokens.Keys == b.tokens.Keys
            && Some(r.value.tokens[token]) == Execute(b.tokens[token], msgSender, c)
            && forall w :: w in b.tokens && w != token ==> r.value.tokens[w] == b.tokens[w])
  {
  }

  /** A token is deployed exactly on the wrapped side and for a base token that has none, and it starts empty. */
  lemma DeployExactly(b: BridgeState, baseId: Id256, created: Address)
    requires RegistriesInverse(b) && created !in b.contracts && created != ZERO_ADDRESS
    ensures var r := DeployErc20(b, baseId, created);
      && (r.Some? <==> b.isWrappedSide && baseId !in b.erc20Registry)
      && (r.Some? ==>
            && (forall id :: WrappedOf(r.value, id) == if id == baseId then created else WrappedOf(b, id))
            && (forall a :: BaseOf(r.value, a) == if a == created then baseId else BaseOf(b, a))
            && (forall a :: a in b.tokens ==> a in r.value.tokens && r.value.tokens[a] == b.tokens[a])
            && created in r.value.tokens && r.value.tokens[created] == TokenState(b.self, map[], map[], 0)
            && r.value.events == b.events && r.value.usedNonces == b.usedNonces)
  {
  }

  lemma BurnKeeps(b: BridgeState, msgSender: Address, amount: U256, fromErc20: Address, recipientId: Id256,
                  meta: TokenMetadata, foreignOk: bool)
    requires BridgeInv(b) && Burn(b, msgSender, amount, fromErc20, recipientId, meta, foreignOk).Some?
    ensures BridgeInv(Burn(b, msgSender, amount, fromErc20, recipientId, meta, foreignOk).value)
  {
    SuppliesBalanced(b);
    BurnEffect(b, msgSender, amount, fromErc20, recipientId, meta, foreignOk);
    LogsKeep(b, Burn(b, msgSender, amount, fromErc20, recipientId, meta, foreignOk).value,
             BurntEvent(b, msgSender, amount, fromErc20, recipientId, meta));
  }

  lemma NotifyKeeps(b: BridgeState, msgSender: Address, userData: Option<Icrc2Burn>)
    requires BridgeInv(b)
    ensures BridgeInv(NotifyMinter(b, msgSender, userData))
  {
    SuppliesBalanced(b);
    LogsKeep(b, NotifyMinter(b, msgSender, userData), Notify(msgSender, userData));
  }

  lemma UserCallKeeps(b: BridgeState, token: Address, msgSender: Address, c: TokenCall)
    requires BridgeInv(b) && UserCall(b, token, msgSender, c).Some?
    ensures BridgeInv(UserCall(b, token, msgSender, c).value)
    ensures UserCall(b, token, msgSender, c).value.tokens[token].supply == b.tokens[token].supply
  {
    var b' := UserCall(b, token, msgSender, c).value;
    OthersKeepSupply(b.tokens[token], msgSender, c);
    assert b'.tokens.Keys == b.tokens.Keys;
    assert forall a :: BaseOf(b', a) == BaseOf(b, a);
  }

  lemma PauseKeeps(b: BridgeState, paused: bool)
    requires BridgeInv(b)
    ensures BridgeInv(b.(paused := paused))
  {
    var b' := b.(paused := paused);
    assert forall a :: BaseOf(b', a) == BaseOf(b, a);
  }

  lemma ApplyKeeps(b: BridgeState, c: BridgeCall)
    requires BridgeInv(b) && Apply(b, c).Some?
    ensures BridgeInv(Apply(b, c).value)
  {
    match c
    case DeployCall(baseId, created) => DeployKeeps(b, baseId, created);
    case MintCall(caller, payload, signer, foreignOk, feeOk) =>
      MintKeeps(b, caller, Decode(payload[..ORDER_SIZE]), signer, foreignOk, feeOk);
    case BurnCall(msgSender, amount, fromErc20, recipientId, meta, foreignOk) =>
      BurnKeeps(b, msgSender, amount, fromErc20, recipientId, meta, foreignOk);
    case NotifyCall(msgSender, userData) => NotifyKeeps(b, msgSender, userData);
    case TokenUserCall(token, msgSender, call) => UserCallKeeps(b, token, msgSender, call);
    case PauseCall(paused) => PauseKeeps(b, paused);
  }

  /** The log only grows, and only by mint events if an order is minted. */
  lemma ApplyLogs(b: BridgeState, c: BridgeCall)
    requires Apply(b, c).Some?
    ensures b.events <= Apply(b, c).value.events
    ensures !c.MintCall? ==>
      forall k :: |b.events| <= k < |Apply(b, c).value.events| ==> !Apply(b, c).value.events[k].Minted?
  {
  }

  /** An order that leaves the token to the contract is paid in the wrapped token of its source token, or not at all. */
  lemma MintedOrder(b: BridgeState, b': BridgeState, caller: Address, o: MintOrder, foreignOk: bool, feeOk: bool)
    requires RegistriesInverse(b) && SuppliesMatchEvents(b)
    requires o.dstToken == ZERO_ADDRESS && MintDecoded(b, caller, o, b.minter, foreignOk, feeOk) == Some(b')
    ensures o.srcToken in b.erc20Registry && Target(b, o) == b.erc20Registry[o.srcToken]
    ensures (o.sender, o.nonce) !in b.usedNonces && b'.usedNonces == b.usedNonces + {(o.sender, o.nonce)}
    ensures Logs(b, b', MintedEvent(b, o))
  {
    SuppliesBalanced(b);
    MintEffect(b, caller, o, b.minter, foreignOk, feeOk);
  }

  /** Over every run from deployment, with any callers, orders, signers and foreign tokens. */
  lemma {:induction false} EveryRunKeeps(self: Address, minter: Address, chainId: nat, wrappedSide: bool,
                                         calls: seq<BridgeCall>)
    requires self != ZERO_ADDRESS
    ensures BridgeInv(Run(InitialBridge(self, minter, chainId, wrappedSide), calls))
    decreases |calls|
  {
    if calls != [] {
      EveryRunKeeps(self, minter, chainId, wrappedSide, calls[..|calls| - 1]);
      var before := Run(InitialBridge(self, minter, chainId, wrappedSide), calls[..|calls| - 1]);
      if Apply(before, calls[|calls| - 1]).Some? {
        ApplyKeeps(before, calls[|calls| - 1]);
      }
    }
  }
}
