/** Turning the runes of a deposit's UTXOs into mint orders. */
module RuneDeposits {
  import opened Words
  import opened Sums

  type Rune = nat
  type Amounts = map<Rune, nat>

  datatype RuneInfo = RuneInfo(name: Rune, decimals: nat, block: nat, tx: nat)

  datatype DepositError =
    | IndexerFailed | NoRunesToDeposit | InvalidAmounts(requested: Amounts, actual: Amounts) | Unavailable

  datatype Result<T> = Ok(value: T) | Err(error: DepositError)

  /** 128-bit addition wraps around in a release build. */
  function AddU128(a: nat, b: nat): nat {
    (a + b) % TWO_128
  }

  // ---- What a deposit is worth ----

  /** How much of `rune` the UTXOs hold together. */
  function Total(holdings: seq<Amounts>, rune: Rune): nat {
    if holdings == [] then 0 else Total(holdings[..|holdings| - 1], rune) + Get(holdings[|holdings| - 1], rune)
  }

  ghost predicate Holds(holdings: seq<Amounts>, rune: Rune) {
    exists i :: 0 <= i < |holdings| && rune in holdings[i]
  }

  /** `amounts` lists exactly the runes held, each with its total, as far as 128 bits can say it. */
  ghost predicate Aggregates(amounts: Amounts, holdings: seq<Amounts>) {
    && (forall rune :: rune in amounts <==> Holds(holdings, rune))
    && (forall rune :: rune in amounts ==> amounts[rune] == Total(holdings, rune) % TWO_128)
  }

  /** The positions of UTXOs that hold any rune. */
  function UsedOf<U>(utxos: seq<U>, holdings: seq<Amounts>): seq<U>
    requires |utxos| == |holdings|
  {
    if utxos == [] then [] else
      UsedOf(utxos[..|utxos| - 1], holdings[..|holdings| - 1])
      + if holdings[|holdings| - 1] == map[] then [] else [utxos[|utxos| - 1]]
  }

  lemma HoldsExtends(holdings: seq<Amounts>, more: Amounts, rune: Rune)
    ensures Holds(holdings + [more], rune) <==> Holds(holdings, rune) || rune in more
  {
    var all := holdings + [more];
    if Holds(holdings, rune) {
      var i :| 0 <= i < |holdings| && rune in holdings[i];
      assert rune in all[i];
    }
    if rune in more {
      assert rune in all[|holdings|];
    }
  }

  /** `partly` is `amounts` with the runes of `more` outside `left` already added. */
  ghost predicate AddedPartly(partly: Amounts, amounts: Amounts, more: Amounts, left: set<Rune>) {
    && (forall rune :: rune in partly <==> rune in amounts || (rune in more && rune !in left))
    && (forall rune :: rune in partly ==>
          partly[rune] == if rune in more && rune !in left then AddU128(Get(amounts, rune), more[rune])
                          else amounts[rune])
  }

  /** Add the runes of one UTXO, in whatever order the hash map yields them. */
  method AddHolding(amounts: Amounts, more: Amounts) returns (sum: Amounts)
    ensures AddedPartly(sum, amounts, more, {})
  {
    sum := amounts;
    var left := more.Keys;
    while left != {}
      invariant left <= more.Keys && AddedPartly(sum, amounts, more, left)
      decreases |left|
    {
      var rune :| rune in left;
      sum := sum[rune := AddU128(Get(sum, rune), more[rune])];
      left := left - {rune};
    }
  }

  lemma AggregateStep(amounts: Amounts, holdings: seq<Amounts>, more: Amounts, sum: Amounts)
    requires Aggregates(amounts, holdings) && AddedPartly(sum, amounts, more, {})
    ensures Aggregates(sum, holdings + [more])
  {
    assert (holdings + [more])[..|holdings|] == holdings;
    forall rune ensures rune in sum <==> Holds(holdings + [more], rune) {
      HoldsExtends(holdings, more, rune);
    }
    forall rune | rune in sum ensures sum[rune] == Total(holdings + [more], rune) % TWO_128 {
      AbsentRune(holdings, rune);
      assert Get(amounts, rune) == Total(holdings, rune) % TWO_128;
      WrappedSum(Total(holdings, rune), Get(more, rune));
    }
  }

  lemma WrappedSum(a: nat, b: nat)
    ensures AddU128(a % TWO_128, b) == (a + b) % TWO_128
    ensures b == 0 ==> (a + b) % TWO_128 == a % TWO_128
  {
  }

  lemma {:induction false} AbsentRune(holdings: seq<Amounts>, rune: Rune)
    ensures !Holds(holdings, rune) ==> Total(holdings, rune) == 0
  {
    if holdings != [] && !Holds(holdings, rune) {
      var front, more := holdings[..|holdings| - 1], holdings[|holdings| - 1];
      assert holdings == front + [more];
      HoldsExtends(front, more, rune);
      AbsentRune(front, rune);
    }
  }

  /** With totals below 2^128, and only then, every amount is the exact sum. */
  lemma ExactBelowOverflow(amounts: Amounts, holdings: seq<Amounts>, rune: Rune)
    requires Aggregates(amounts, holdings) && rune in amounts
    ensures amounts[rune] == Total(holdings, rune) <==> Total(holdings, rune) < TWO_128
  {
  }

  // ---- Rune infos ----

  /** A rune table lists each rune's info under the rune's own name. */
  predicate WellNamed(table: map<Rune, RuneInfo>) {
    forall rune :: rune in table ==> table[rune].name == rune
  }

  /** One entry per rune, with its amount and the table's info. */
  ghost predicate Lists(infos: seq<(RuneInfo, nat)>, amounts: Amounts, table: map<Rune, RuneInfo>) {
    && (forall i :: 0 <= i < |infos| ==>
          infos[i].0.name in amounts && infos[i].1 == amounts[infos[i].0.name]
          && infos[i].0.name in table && infos[i].0 == table[infos[i].0.name])
    && (forall i, j :: 0 <= i < j < |infos| ==> infos[i].0.name != infos[j].0.name)
    && (forall rune :: rune in amounts ==> Named(infos, rune))
  }

  ghost predicate Named(infos: seq<(RuneInfo, nat)>, rune: Rune) {
    exists i :: 0 <= i < |infos| && infos[i].0.name == rune
  }

  lemma NamedExtends(infos: seq<(RuneInfo, nat)>, info: RuneInfo, amount: nat, rune: Rune)
    ensures Named(infos + [(info, amount)], rune) <==> Named(infos, rune) || info.name == rune
  {
    var all := infos + [(info, amount)];
    if Named(infos, rune) {
      var i :| 0 <= i < |infos| && infos[i].0.name == rune;
      assert all[i].0.name == rune;
    }
    if info.name == rune {
      assert all[|infos|].0.name == rune;
    }
  }

  /** Look every rune up in a table; None if one is missing. The order is the hash map's. */
  method FillRuneInfos(amounts: Amounts, table: map<Rune, RuneInfo>) returns (r: Option<seq<(RuneInfo, nat)>>)
    requires WellNamed(table)
    ensures r.Some? <==> amounts.Keys <= table.Keys
    ensures r.Some? ==> Lists(r.value, amounts, table)
  {
    var infos: seq<(RuneInfo, nat)> := [];
    var left := amounts.Keys;
    while left != {}
      invariant left <= amounts.Keys && amounts.Keys - left <= table.Keys
      invariant Lists(infos, map rune | rune in amounts && rune !in left :: amounts[rune], table)
      decreases |left|
    {
      var rune :| rune in left;
      if rune !in table {
        return None;
      }
      forall other: Rune
        ensures Named(infos + [(table[rune], amounts[rune])], other) <==> Named(infos, other) || other == rune
      {
        NamedExtends(infos, table[rune], amounts[rune], other);
      }
      infos := infos + [(table[rune], amounts[rune])];
      left := left - {rune};
    }
    assert amounts == map rune | rune in amounts && rune !in left :: amounts[rune];
    return Some(infos);
  }

  function TableOf(list: seq<RuneInfo>): (table: map<Rune, RuneInfo>)
    ensures WellNamed(table)
    ensures forall rune :: rune in table <==> exists i :: 0 <= i < |list| && list[i].name == rune
  {
    if list == [] then map[] else TableOf(list[..|list| - 1])[list[|list| - 1].name := list[|list| - 1]]
  }

  // ---- The whole of it ----

  datatype OrderStatus = Created(nonce: U32) | Sent(nonce: U32, txId: nat) | Completed(txId: nat)

  datatype Order = Order(rune: Rune, amount: nat, status: OrderStatus)

  /** The first `i` UTXOs are summed up. */
  ghost predicate Summed<U>(amounts: Amounts, used: seq<U>, utxos: seq<U>, holdings: seq<Amounts>, i: nat)
    requires |utxos| == |holdings| && i <= |utxos|
  {
    Aggregates(amounts, holdings[..i]) && used == UsedOf(utxos[..i], holdings[..i])
  }

  method AddUtxo<U>(amounts: Amounts, used: seq<U>, utxos: seq<U>, more: Amounts, i: nat, ghost holdings: seq<Amounts>)
    returns (sum: Amounts, used': seq<U>)
    requires |utxos| == |holdings| && i < |utxos| && more == holdings[i]
    requires Summed(amounts, used, utxos, holdings, i)
    ensures Summed(sum, used', utxos, holdings, i + 1)
  {
    used' := if more != map[] then used + [utxos[i]] else used;
    UsedExtends(utxos, holdings, i);
    assert holdings[..i + 1] == holdings[..i] + [more];
    sum := AddHolding(amounts, more);
    AggregateStep(amounts, holdings[..i], more, sum);
  }

  /** Sum up what the indexer reports; `ok` is false if it fails for some UTXO. */
  method Aggregate<U>(utxos: seq<U>, index: seq<Option<Amounts>>, ghost holdings: seq<Amounts>)
    returns (ok: bool, amounts: Amounts, used: seq<U>)
    requires |index| == |utxos| == |holdings|
    requires forall i :: 0 <= i < |index| && index[i].Some? ==> index[i].value == holdings[i]
    ensures ok <==> None !in index
    ensures ok ==> Aggregates(amounts, holdings) && used == UsedOf(utxos, holdings)
  {
    amounts, used := map[], [];
    for i := 0 to |utxos|
      invariant Summed(amounts, used, utxos, holdings, i)
      invariant forall k :: 0 <= k < i ==> index[k].Some?
    {
      if index[i].None? {
        return false, amounts, used;
      }
      amounts, used := AddUtxo(amounts, used, utxos, index[i].value, i, holdings);
    }
    assert holdings[..|utxos|] == holdings && utxos[..|utxos|] == utxos;
    ok := true;
  }

  lemma UsedExtends<U>(utxos: seq<U>, holdings: seq<Amounts>, i: nat)
    requires |utxos| == |holdings| && i < |utxos|
    ensures UsedOf(utxos[..i + 1], holdings[..i + 1])
         == UsedOf(utxos[..i], holdings[..i]) + if holdings[i] == map[] then [] else [utxos[i]]
  {
    assert utxos[..i + 1][..i] == utxos[..i] && holdings[..i + 1][..i] == holdings[..i];
  }

  /** The runes held by any of the UTXOs. */
  ghost function RunesOf(holdings: seq<Amounts>): set<Rune> {
    set i, rune | 0 <= i < |holdings| && rune in holdings[i] :: rune
  }

  lemma SumKeys(amounts: Amounts, holdings: seq<Amounts>)
    requires Aggregates(amounts, holdings)
    ensures amounts.Keys == RunesOf(holdings)
  {
    forall rune ensures rune in amounts <==> rune in RunesOf(holdings) {
      assert rune in RunesOf(holdings) <==> Holds(holdings, rune);
    }
  }

  /** There is only one sum. */
  lemma SumIsUnique(a: Amounts, b: Amounts, holdings: seq<Amounts>)
    requires Aggregates(a, holdings) && Aggregates(b, holdings)
    ensures a == b
  {
    assert forall rune :: rune in a <==> rune in b;
  }

  function NamesOf(infos: seq<(RuneInfo, nat)>): set<Rune> {
    set i | 0 <= i < |infos| :: infos[i].0.name
  }

  lemma {:induction false} NamesCount(infos: seq<(RuneInfo, nat)>)
    requires forall i, j :: 0 <= i < j < |infos| ==> infos[i].0.name != infos[j].0.name
    ensures |NamesOf(infos)| == |infos|
  {
    if infos != [] {
      var front, last := infos[..|infos| - 1], infos[|infos| - 1];
      NamesCount(front);
      assert forall i :: 0 <= i < |front| ==> front[i] == infos[i];
      assert NamesOf(infos) == NamesOf(front) + {last.0.name};
      assert last.0.name !in NamesOf(front);
    }
  }

  /** There are as many entries as runes. */
  lemma ListsCount(infos: seq<(RuneInfo, nat)>, amounts: Amounts, holdings: seq<Amounts>, table: map<Rune, RuneInfo>)
    requires Lists(infos, amounts, table) && Aggregates(amounts, holdings)
    ensures |infos| == |RunesOf(holdings)|
  {
    NamesCount(infos);
    SumKeys(amounts, holdings);
    forall rune ensures rune in NamesOf(infos) <==> rune in amounts {
      if rune in amounts {
        assert Named(infos, rune);
      }
    }
    assert NamesOf(infos) == amounts.Keys;
  }

  /** All the runes are known, or all are in the indexer's list. */
  ghost predicate AllNamed(holdings: seq<Amounts>, known: map<Rune, RuneInfo>, listed: Option<seq<RuneInfo>>) {
    RunesOf(holdings) <= known.Keys || (listed.Some? && RunesOf(holdings) <= TableOf(listed.value).Keys)
  }

  /** From the table the canister knows, or else from the indexer's list, which then replaces it. */
  method LookUp(amounts: Amounts, known: map<Rune, RuneInfo>, listed: Option<seq<RuneInfo>>)
    returns (infos: Option<seq<(RuneInfo, nat)>>, known': map<Rune, RuneInfo>)
    requires WellNamed(known)
    ensures WellNamed(known')
    ensures infos.Some? ==> Lists(infos.value, amounts, known')
    ensures infos.Some? <==> amounts.Keys <= known.Keys || (listed.Some? && amounts.Keys <= TableOf(listed.value).Keys)
    ensures amounts.Keys <= known.Keys || infos.None? ==> known' == known
  {
    known' := known;
    infos := FillRuneInfos(amounts, known);
    if infos.None? && listed.Some? {
      infos := FillRuneInfos(amounts, TableOf(listed.value));
      if infos.Some? {
        known' := TableOf(listed.value);
      }
    }
  }

  /**
   What it takes: the indexer answers for every UTXO, some rune is there, the amounts are those requested, if any
   were, and every rune has a name.
   */
  ghost predicate CanOrder(index: seq<Option<Amounts>>, requested: Option<Amounts>, known: map<Rune, RuneInfo>,
                           listed: Option<seq<RuneInfo>>, holdings: seq<Amounts>)
  {
    && None !in index && RunesOf(holdings) != {}
    && (requested.Some? ==> Aggregates(requested.value, holdings))
    && AllNamed(holdings, known, listed)
  }

  /**
   `index` is the indexer's answer per UTXO, `known` the runes the canister knows, `listed` the
   indexer's own rune list, asked only if a rune is unknown.
   */
  method GetMintAmounts<U>(utxos: seq<U>, index: seq<Option<Amounts>>, requested: Option<Amounts>,
                           known: map<Rune, RuneInfo>, listed: Option<seq<RuneInfo>>, ghost holdings: seq<Amounts>)
    returns (r: Result<(seq<(RuneInfo, nat)>, seq<U>)>, known': map<Rune, RuneInfo>, ghost amounts: Amounts)
    requires |index| == |utxos| == |holdings| && WellNamed(known)
    requires forall i :: 0 <= i < |index| && index[i].Some? ==> index[i].value == holdings[i]
    ensures WellNamed(known')
    ensures r.Ok? ==>
      && Aggregates(amounts, holdings) && amounts != map[] && (requested.Some? ==> amounts == requested.value)
      && Lists(r.value.0, amounts, known')
      && r.value.1 == UsedOf(utxos, holdings)
    ensures r.Err? && r.error.InvalidAmounts? ==>
      && Aggregates(r.error.actual, holdings)
      && requested == Some(r.error.requested) && r.error.actual != r.error.requested
    ensures r == Err(IndexerFailed) <==> None in index
    ensures r == Err(NoRunesToDeposit) <==> None !in index && RunesOf(holdings) == {}
    ensures r.Err? && r.error.InvalidAmounts? <==>
      None !in index && RunesOf(holdings) != {} && requested.Some? && !Aggregates(requested.value, holdings)
    ensures r.Ok? <==> CanOrder(index, requested, known, listed, holdings)
  {
    known' := known;
    var ok, sums, used := Aggregate(utxos, index, holdings);
    amounts := sums;
    if !ok {
      return Err(IndexerFailed), known', amounts;
    }
    SumKeys(sums, holdings);
    if requested.Some? && Aggregates(requested.value, holdings) {
      SumIsUnique(sums, requested.value, holdings);
    }
    if sums == map[] {
      return Err(NoRunesToDeposit), known', amounts;
    }
    if requested.Some? && sums != requested.value {
      return Err(InvalidAmounts(requested.value, sums)), known', amounts;
    }
    var infos;
    infos, known' := LookUp(sums, known, listed);
    if infos.None? {
      return Err(Unavailable), known', amounts;
    }
    return Ok((infos.value, used)), known', amounts;
  }

  /** The nonce counter wraps around at 2^32. */
  function NonceAfter(counter: U32, n: nat): U32 {
    (counter + n) % TWO_32
  }

  lemma NoncesDiffer(counter: U32, i: nat, j: nat)
    requires i < j < i + TWO_32
    ensures NonceAfter(counter, i) != NonceAfter(counter, j)
  {
  }

  /**
   How many nonces were taken before the i-th order's own: one per order, and `others(k)` by other requests while
   the k-th is signed.
   */
  function TakenBefore(others: nat -> nat, i: nat): nat {
    if i == 0 then 0 else TakenBefore(others, i - 1) + 1 + others(i - 1)
  }

  lemma {:induction false} TakenGrows(others: nat -> nat, i: nat, j: nat)
    requires i < j
    ensures TakenBefore(others, i) < TakenBefore(others, j)
    decreases j
  {
    if i < j - 1 {
      TakenGrows(others, i, j - 1);
    }
  }

  /** The orders for the listed runes, one each, with the nonces as they were taken. */
  ghost predicate OrdersFor(orders: seq<Order>, infos: seq<(RuneInfo, nat)>, counter: U32, others: nat -> nat) {
    |orders| == |infos| && forall i :: 0 <= i < |infos| ==>
      orders[i] == Order(infos[i].0.name, infos[i].1, Created(NonceAfter(counter, TakenBefore(others, i))))
  }

  lemma NonceStep(counter: U32, n: nat, others: nat)
    ensures NonceAfter(NonceAfter(NonceAfter(counter, n), 1), others) == NonceAfter(counter, n + 1 + others)
  {
  }

  /** `signs(i)` is whether signing the i-th order succeeds, `others(i)` how often the counter moves meanwhile. */
  method CreateMintOrders(infos: seq<(RuneInfo, nat)>, counter: U32, signs: nat -> bool, others: nat -> nat)
    returns (orders: Option<seq<Order>>, counter': U32)
    ensures orders.Some? <==> forall i :: 0 <= i < |infos| ==> signs(i)
    ensures orders.Some? ==>
      && OrdersFor(orders.value, infos, counter, others)
      && counter' == NonceAfter(counter, TakenBefore(others, |infos|))
  {
    var result: seq<Order> := [];
    counter' := counter;
    for i := 0 to |infos|
      invariant OrdersFor(result, infos[..i], counter, others)
      invariant counter' == NonceAfter(counter, TakenBefore(others, i))
      invariant forall k :: 0 <= k < i ==> signs(k)
    {
      var nonce := counter';
      NonceStep(counter, TakenBefore(others, i), others(i));
      counter' := NonceAfter(counter', 1);
      counter' := NonceAfter(counter', others(i));
      if !signs(i) {
        return None, counter';
      }
      result := result + [Order(infos[i].0.name, infos[i].1, Created(nonce))];
    }
    assert infos[..|infos|] == infos;
    return Some(result), counter';
  }

  /** One order per rune, for all of that rune in the deposit, each with a nonce of its own. */
  ghost predicate OrdersConserve(orders: seq<Order>, holdings: seq<Amounts>) {
    && (forall i :: 0 <= i < |orders| ==>
          Holds(holdings, orders[i].rune) && orders[i].amount == Total(holdings, orders[i].rune))
    && (forall rune :: Holds(holdings, rune) ==> exists i :: 0 <= i < |orders| && orders[i].rune == rune)
    && (forall i :: 0 <= i < |orders| ==> !orders[i].status.Completed?)
    && (forall i, j :: 0 <= i < j < |orders| ==>
          orders[i].rune != orders[j].rune && orders[i].status.nonce != orders[j].status.nonce)
  }

  /** What 128-bit amounts and 32-bit nonces can tell apart. */
  ghost predicate InRange(holdings: seq<Amounts>, runes: nat, others: nat -> nat) {
    && (forall rune :: Holds(holdings, rune) ==> Total(holdings, rune) < TWO_128)
    && TakenBefore(others, runes) <= TWO_32
  }

  lemma OrderNoncesDiffer(orders: seq<Order>, infos: seq<(RuneInfo, nat)>, counter: U32, others: nat -> nat,
                          i: nat, j: nat)
    requires OrdersFor(orders, infos, counter, others) && TakenBefore(others, |infos|) <= TWO_32 && i < j < |infos|
    ensures orders[i].status.nonce != orders[j].status.nonce
  {
    TakenGrows(others, i, j);
    TakenGrows(others, j, |infos|);
    NoncesDiffer(counter, TakenBefore(others, i), TakenBefore(others, j));
  }

  lemma DepositConserves(amounts: Amounts, holdings: seq<Amounts>, infos: seq<(RuneInfo, nat)>,
                         table: map<Rune, RuneInfo>, counter: U32, others: nat -> nat, orders: seq<Order>)
    requires Aggregates(amounts, holdings) && Lists(infos, amounts, table)
    requires OrdersFor(orders, infos, counter, others) && InRange(holdings, |infos|, others)
    ensures OrdersConserve(orders, holdings)
  {
    forall i, j | 0 <= i < j < |orders| ensures orders[i].status.nonce != orders[j].status.nonce {
      OrderNoncesDiffer(orders, infos, counter, others, i, j);
    }
    forall rune | Holds(holdings, rune) ensures exists i :: 0 <= i < |orders| && orders[i].rune == rune {
      assert Named(infos, rune);
      var i :| 0 <= i < |infos| && infos[i].0.name == rune;
      assert orders[i].rune == rune;
    }
    forall i | 0 <= i < |orders|
      ensures Holds(holdings, orders[i].rune) && orders[i].amount == Total(holdings, orders[i].rune)
    {
      ExactBelowOverflow(amounts, holdings, infos[i].0.name);
    }
  }

  /** A UTXO that is not used holds no rune, so nothing is lost by leaving it. */
  lemma {:induction false} UnusedHoldNothing<U>(utxos: seq<U>, holdings: seq<Amounts>, i: nat)
    requires |utxos| == |holdings| && i < |utxos| && utxos[i] !in UsedOf(utxos, holdings)
    ensures holdings[i] == map[]
    decreases |utxos|
  {
    if i < |utxos| - 1 {
      UnusedHoldNothing(utxos[..|utxos| - 1], holdings[..|holdings| - 1], i);
    }
  }
}
