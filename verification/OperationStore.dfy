/**
 The store of user operations: incomplete operations, a bounded log of completed ones, and an
 index of operation ids by wallet address.
 */
module OperationStores {
  import opened Words
  import opened Sums

  const NONCE_MODULUS: nat := TWO_32 - 1

  /** The mint-order nonce of an operation. */
  function Nonce(id: nat): (n: U32)
    ensures n < NONCE_MODULUS
  {
    id % NONCE_MODULUS
  }

  /** Two operations share a nonce exactly when their ids are a multiple of 2^32 - 1 apart. */
  lemma NonceCollision(i: nat, j: nat)
    requires i <= j
    ensures Nonce(i) == Nonce(j) <==> (j - i) % NONCE_MODULUS == 0
    ensures i < j < i + NONCE_MODULUS ==> Nonce(i) != Nonce(j)
  {
    assert i == NONCE_MODULUS * (i / NONCE_MODULUS) + Nonce(i);
    assert j == NONCE_MODULUS * (j / NONCE_MODULUS) + Nonce(j);
  }

  /** The first nonce is zero, and they count up with the ids until they start over. */
  lemma NonceCounts(id: nat)
    ensures Nonce(0) == 0
    ensures Nonce(id + 1) == if Nonce(id) == NONCE_MODULUS - 1 then 0 else Nonce(id) + 1
  {
    var q := id / NONCE_MODULUS;
    assert id == NONCE_MODULUS * q + Nonce(id);
    if Nonce(id) == NONCE_MODULUS - 1 {
      Remainder(id + 1, q + 1, 0);
    } else {
      Remainder(id + 1, q, Nonce(id) + 1);
    }
  }

  lemma Remainder(n: nat, q: nat, r: nat)
    requires n == NONCE_MODULUS * q + r && r < NONCE_MODULUS
    ensures n % NONCE_MODULUS == r
  {
  }

  datatype Entry<P> = Entry(dst: Address, payload: P)

  datatype Store<P> = Store(
    next: nat,
    incomplete: map<nat, Entry<P>>,
    log: map<nat, Entry<P>>,
    index: map<Address, seq<nat>>,
    maxLogSize: nat)

  function EmptyStore<P>(maxLogSize: nat): Store<P> {
    Store(0, map[], map[], map[], maxLogSize)
  }

  // ---- The operations, as functions ----

  ghost predicate IsLeast(k: nat, keys: set<nat>) {
    k in keys && forall j :: j in keys ==> k <= j
  }

  /** The first key of the log in id order. */
  ghost function Least(keys: set<nat>): (k: nat)
    requires keys != {}
    ensures IsLeast(k, keys)
  {
    var x :| x in keys;
    assert forall j :: j in keys ==> j == x || j in keys - {x};
    if keys - {x} == {} then x else
      var y := Least(keys - {x});
      if x <= y then x else y
  }

  function IdsOf(index: map<Address, seq<nat>>, a: Address): seq<nat> {
    if a in index then index[a] else []
  }

  function Without(ids: seq<nat>, id: nat): (r: seq<nat>)
    ensures forall x :: x in r <==> x in ids && x != id
  {
    if ids == [] then []
    else if ids[0] == id then Without(ids[1..], id)
    else [ids[0]] + Without(ids[1..], id)
  }

  ghost function RemoveOldest<P>(s: Store<P>): Store<P> {
    if s.log == map[] then s else
      var id := Least(s.log.Keys);
      var dst := s.log[id].dst;
      var ids := IdsOf(s.index, dst);
      var rest := Without(ids, id);
      s.(log := s.log - {id},
         index := if |rest| == |ids| then s.index
                  else if rest == [] then s.index - {dst}
                  else s.index[dst := rest])
  }

  ghost function MoveToLog<P>(s: Store<P>, id: nat, e: Entry<P>): Store<P> {
    var moved := s.(incomplete := s.incomplete - {id}, log := s.log[id := e]);
    if |moved.log| > moved.maxLogSize then RemoveOldest(moved) else moved
  }

  ghost function NewOperation<P>(s: Store<P>, done: P -> bool, dst: Address, payload: P): Store<P> {
    var id := s.next;
    var e := Entry(dst, payload);
    var counted := s.(next := id + 1);
    var stored := if done(payload) then MoveToLog(counted, id, e)
                  else counted.(incomplete := counted.incomplete[id := e]);
    stored.(index := stored.index[dst := IdsOf(stored.index, dst) + [id]])
  }

  ghost function Update<P>(s: Store<P>, done: P -> bool, id: nat, payload: P): Store<P> {
    if id !in s.incomplete then s else
      var e := s.incomplete[id].(payload := payload);
      if done(payload) then MoveToLog(s, id, e) else s.(incomplete := s.incomplete[id := e])
  }

  function Lookup<P>(s: Store<P>, id: nat): Option<P> {
    if id in s.incomplete then Some(s.incomplete[id].payload)
    else if id in s.log then Some(s.log[id].payload)
    else None
  }

  function Present<P>(s: Store<P>, ids: seq<nat>): seq<(nat, P)> {
    if ids == [] then [] else
      var rest := Present(s, ids[1..]);
      match Lookup(s, ids[0])
      case None => rest
      case Some(p) => [(ids[0], p)] + rest
  }

  function GetForAddress<P>(s: Store<P>, a: Address): seq<(nat, P)> {
    Present(s, IdsOf(s.index, a))
  }

  // ---- The history a store stands for ----

  /** Every operation ever created, at its id, with its latest payload. */
  type History<P> = seq<Entry<P>>

  /** A completed operation takes no further payload. */
  function Amend<P>(h: History<P>, done: P -> bool, id: nat, payload: P): History<P> {
    if id < |h| && !done(h[id].payload) then h[id := h[id].(payload := payload)] else h
  }

  ghost function Completed<P>(h: History<P>, done: P -> bool): set<nat> {
    set id | 0 <= id < |h| && done(h[id].payload)
  }

  /** `top` is exactly the `max` largest members of `all`, or all of them if there are fewer. */
  ghost predicate IsTop(top: set<nat>, all: set<nat>, max: nat) {
    && top <= all
    && |top| <= max
    && (|top| < max ==> top == all)
    && forall x, y :: x in top && y in all - top ==> y < x
  }

  /** So there is only one such set. */
  lemma TopIsUnique(s: set<nat>, t: set<nat>, all: set<nat>, max: nat)
    requires IsTop(s, all, max) && IsTop(t, all, max)
    ensures s == t
  {
    if exists x :: x in s && x !in t {
      var x :| x in s && x !in t;
      assert forall y :: y in t && y !in s ==> y in all - s && x in all - t;
      assert t <= s - {x};
      SubsetSize(t, s - {x});
    } else if s != t {
      assert exists y :: y in t && y !in s;
      var y :| y in t && y !in s;
      SubsetSize(s, t - {y});
    }
  }

  lemma SubsetSize(s: set<nat>, t: set<nat>)
    requires s <= t
    ensures |s| <= |t|
  {
    assert s + (t - s) == t;
  }

  ghost predicate Retained<P>(s: Store<P>, id: nat) {
    id in s.incomplete || id in s.log
  }

  ghost predicate Ascending(ids: seq<nat>) {
    forall i, j :: 0 <= i < j < |ids| ==> ids[i] < ids[j]
  }

  /** Exactly the operations not completed are in the first map, with their latest payload. */
  ghost predicate HoldsIncomplete<P>(s: Store<P>, done: P -> bool, h: History<P>) {
    s.next == |h| && AreIncomplete(s.incomplete, done, h)
  }

  ghost predicate AreIncomplete<P>(ops: map<nat, Entry<P>>, done: P -> bool, h: History<P>) {
    && (forall id: nat :: id in ops <==> id < |h| && !done(h[id].payload))
    && (forall id: nat :: id in ops ==> ops[id] == h[id])
  }

  /** A completed operation leaves the incomplete ones; the others are as they were. */
  lemma CompletedLeaves<P>(ops: map<nat, Entry<P>>, done: P -> bool, h: History<P>, h': History<P>, id: nat)
    requires AreIncomplete(ops, done, h)
    requires id < |h'| && done(h'[id].payload) && |h| <= |h'| <= |h| + 1
    requires forall i :: 0 <= i < |h'| && i != id ==> i < |h| && h'[i] == h[i]
    ensures AreIncomplete(ops - {id}, done, h')
  {
  }

  /** Exactly the `maxLogSize` largest ids among all completed operations are in the log, with their payload. */
  ghost predicate HoldsLog<P>(s: Store<P>, done: P -> bool, h: History<P>) {
    && IsTop(s.log.Keys, Completed(h, done), s.maxLogSize)
    && (forall id: nat :: id in s.log ==> id < |h| && s.log[id] == h[id])
  }

  ghost predicate Listed(index: map<Address, seq<nat>>, a: Address, id: nat) {
    id in IdsOf(index, a)
  }

  /** The index lists the retained operations of each address, but for `unlisted` ones, once and in creation order. */
  ghost predicate IndexedBut<P>(s: Store<P>, h: History<P>, unlisted: set<nat>) {
    && (forall a :: a in s.index ==> s.index[a] != [] && Ascending(s.index[a]))
    && (forall a, id: nat ::
          Listed(s.index, a, id) <==> id < |h| && Retained(s, id) && h[id].dst == a && id !in unlisted)
  }

  /** The index lists every retained operation of each address, holds no other id, no duplicate and no empty list. */
  ghost predicate Indexed<P>(s: Store<P>, h: History<P>) {
    IndexedBut(s, h, {})
  }

  ghost predicate Represents<P>(s: Store<P>, done: P -> bool, h: History<P>) {
    HoldsIncomplete(s, done, h) && HoldsLog(s, done, h) && Indexed(s, h)
  }

  // ---- Every operation keeps the correspondence ----

  lemma TopInsert(top: set<nat>, all: set<nat>, max: nat, id: nat)
    requires IsTop(top, all, max) && id !in all
    ensures var grown := top + {id};
      IsTop(if |grown| > max then grown - {Least(grown)} else grown, all + {id}, max)
  {
    var grown := top + {id};
    if |grown| > max {
      var k := Least(grown);
      var top' := grown - {k};
      forall x, y | x in top' && y in all + {id} - top' ensures y < x {
        if y != k {
          assert y in all - top;
          if x == id {
            assert k in top;
          }
        }
      }
    }
  }

  lemma {:induction false} WithoutKeepsOrder(ids: seq<nat>, id: nat)
    requires Ascending(ids)
    ensures Ascending(Without(ids, id))
    ensures if id in ids then |Without(ids, id)| < |ids| else Without(ids, id) == ids
  {
    if ids != [] {
      var rest := ids[1..];
      assert ids == [ids[0]] + rest;
      WithoutKeepsOrder(rest, id);
      AscendingCons(ids[0], rest, Without(rest, id));
    }
  }

  lemma AscendingCons(x: nat, rest: seq<nat>, kept: seq<nat>)
    requires Ascending([x] + rest) && Ascending(kept) && forall k :: k in kept ==> k in rest
    ensures Ascending([x] + kept)
  {
    forall j | 0 <= j < |kept| ensures x < kept[j] {
      assert kept[j] in rest;
      var i :| 0 <= i < |rest| && rest[i] == kept[j];
      assert ([x] + rest)[0] == x && ([x] + rest)[i + 1] == rest[i];
    }
  }

  /** Taking `id` out of the log and out of its address's list keeps the index in step. */
  lemma UnlistingKeeps<P>(s: Store<P>, s': Store<P>, h: History<P>, unlisted: set<nat>, id: nat, dst: Address)
    requires IndexedBut(s, h, unlisted) && id < |h| && h[id].dst == dst
    requires forall j: nat :: Retained(s', j) <==> Retained(s, j) && j != id
    requires forall a :: a in s'.index ==> s'.index[a] != []
    requires forall a :: IdsOf(s'.index, a) == if a == dst then Without(IdsOf(s.index, dst), id) else IdsOf(s.index, a)
    ensures IndexedBut(s', h, unlisted)
  {
    forall a | a in s'.index ensures Ascending(s'.index[a]) {
      assert s'.index[a] == IdsOf(s'.index, a);
      assert Ascending(IdsOf(s.index, a));
      WithoutKeepsOrder(IdsOf(s.index, a), id);
    }
    forall a, j: nat
      ensures Listed(s'.index, a, j) <==> j < |h| && Retained(s', j) && h[j].dst == a && j !in unlisted
    {
      assert Listed(s'.index, a, j) <==> Listed(s.index, a, j) && (a == dst ==> j != id);
    }
  }

  lemma IndexAfterEviction<P>(s: Store<P>)
    requires s.log != map[] && forall a :: a in s.index ==> s.index[a] != []
    requires forall a :: a in s.index ==> Ascending(s.index[a])
    ensures var s' := RemoveOldest(s); var id := Least(s.log.Keys); var dst := s.log[id].dst;
      && s'.incomplete == s.incomplete && s'.log == s.log - {id}
      && (forall a :: a in s'.index ==> s'.index[a] != [])
      && forall a :: IdsOf(s'.index, a) == if a == dst then Without(IdsOf(s.index, dst), id) else IdsOf(s.index, a)
  {
    var id := Least(s.log.Keys);
    WithoutKeepsOrder(IdsOf(s.index, s.log[id].dst), id);
  }

  lemma EvictionKeepsIndex<P>(s: Store<P>, h: History<P>, unlisted: set<nat>)
    requires IndexedBut(s, h, unlisted) && s.log != map[]
    requires s.incomplete.Keys !! s.log.Keys
    requires forall id: nat :: id in s.log ==> id < |h| && s.log[id].dst == h[id].dst
    ensures IndexedBut(RemoveOldest(s), h, unlisted)
  {
    IndexAfterEviction(s);
    var id := Least(s.log.Keys);
    UnlistingKeeps(s, RemoveOldest(s), h, unlisted, id, s.log[id].dst);
  }

  /** The log after a completion: the new entry is in, and the oldest one out if the log is over its size. */
  lemma LogAfterMove<P>(s: Store<P>, id: nat, e: Entry<P>)
    ensures var s' := MoveToLog(s, id, e); var grown := s.log.Keys + {id};
      && s'.log.Keys == (if |grown| > s.maxLogSize then grown - {Least(grown)} else grown)
      && (forall i: nat :: i in s'.log ==> s'.log[i] == if i == id then e else s.log[i])
      && s'.maxLogSize == s.maxLogSize && s'.next == s.next && s'.incomplete == s.incomplete - {id}
  {
    var log' := s.log[id := e];
    assert log'.Keys == s.log.Keys + {id} && |log'| == |log'.Keys|;
  }

  /** Moving a newly completed operation to the log, possibly evicting the oldest logged one (which may be itself). */
  lemma LoggingKeepsLog<P>(s: Store<P>, done: P -> bool, h: History<P>, h': History<P>, id: nat)
    requires HoldsLog(s, done, h)
    requires id < |h'| && |h| <= |h'|
    requires forall i: nat :: i in s.log ==> h'[i] == h[i]
    requires Completed(h', done) == Completed(h, done) + {id} && id !in Completed(h, done)
    ensures HoldsLog(MoveToLog(s, id, h'[id]), done, h')
  {
    LogAfterMove(s, id, h'[id]);
    TopInsert(s.log.Keys, Completed(h, done), s.maxLogSize, id);
  }

  /** What a completion does to the index. */
  lemma CompletionKeepsIndex<P>(s: Store<P>, h: History<P>, id: nat, e: Entry<P>)
    requires Indexed(s, h) && id in s.incomplete
    requires s.incomplete.Keys !! s.log.Keys
    requires forall i: nat :: i in s.log ==> i < |h| && s.log[i].dst == h[i].dst
    requires id < |h| && e.dst == h[id].dst
    ensures Indexed(MoveToLog(s, id, e), h)
  {
    var moved := s.(incomplete := s.incomplete - {id}, log := s.log[id := e]);
    assert forall i: nat :: Retained(moved, i) <==> Retained(s, i);
    if |moved.log| > moved.maxLogSize {
      EvictionKeepsIndex(moved, h, {});
    }
  }

  /** The index depends on the history only through the addresses. */
  lemma SameAddresses<P>(s: Store<P>, h: History<P>, h': History<P>)
    requires Indexed(s, h) && |h| == |h'| && forall i :: 0 <= i < |h| ==> h[i].dst == h'[i].dst
    ensures Indexed(s, h')
  {
  }

  lemma CompletionKeepsLog<P>(s: Store<P>, done: P -> bool, h: History<P>, id: nat, payload: P)
    requires HoldsIncomplete(s, done, h) && HoldsLog(s, done, h) && id in s.incomplete && done(payload)
    ensures HoldsLog(Update(s, done, id, payload), done, Amend(h, done, id, payload))
  {
    var h' := Amend(h, done, id, payload);
    assert Completed(h', done) == Completed(h, done) + {id};
    assert forall i: nat :: i in s.log ==> i in Completed(h, done);
    LoggingKeepsLog(s, done, h, h', id);
  }

  lemma CompletionKeepsIncomplete<P>(s: Store<P>, done: P -> bool, h: History<P>, id: nat, payload: P)
    requires HoldsIncomplete(s, done, h) && id in s.incomplete && done(payload)
    ensures HoldsIncomplete(Update(s, done, id, payload), done, Amend(h, done, id, payload))
  {
    LogAfterMove(s, id, s.incomplete[id].(payload := payload));
    CompletedLeaves(s.incomplete, done, h, Amend(h, done, id, payload), id);
  }

  lemma LogIsComplete<P>(s: Store<P>, done: P -> bool, h: History<P>)
    requires HoldsIncomplete(s, done, h) && HoldsLog(s, done, h)
    ensures s.incomplete.Keys !! s.log.Keys
  {
    assert forall i: nat :: i in s.log ==> i in Completed(h, done);
  }

  lemma CompletionKeeps<P>(s: Store<P>, done: P -> bool, h: History<P>, id: nat, payload: P)
    requires Represents(s, done, h) && id in s.incomplete && done(payload)
    ensures Represents(Update(s, done, id, payload), done, Amend(h, done, id, payload))
  {
    CompletionKeepsLog(s, done, h, id, payload);
    CompletionKeepsIncomplete(s, done, h, id, payload);
    LogIsComplete(s, done, h);
    CompletionKeepsIndex(s, h, id, s.incomplete[id].(payload := payload));
    SameAddresses(Update(s, done, id, payload), h, Amend(h, done, id, payload));
  }

  lemma ProgressKeeps<P>(s: Store<P>, done: P -> bool, h: History<P>, id: nat, payload: P)
    requires Represents(s, done, h) && id in s.incomplete && !done(payload)
    ensures Represents(Update(s, done, id, payload), done, Amend(h, done, id, payload))
  {
    var h' := Amend(h, done, id, payload);
    var s' := Update(s, done, id, payload);
    SameAddresses(s, h, h');
    assert forall i: nat :: Retained(s', i) <==> Retained(s, i);
    assert Completed(h', done) == Completed(h, done);
  }

  /** An update of the store is an update of the history. */
  lemma UpdateKeeps<P>(s: Store<P>, done: P -> bool, h: History<P>, id: nat, payload: P)
    requires Represents(s, done, h)
    ensures Represents(Update(s, done, id, payload), done, Amend(h, done, id, payload))
  {
    if id in s.incomplete {
      if done(payload) {
        CompletionKeeps(s, done, h, id, payload);
      } else {
        ProgressKeeps(s, done, h, id, payload);
      }
    }
  }

  /** Listing the newest operation under its address completes the index. */
  lemma ListingKeeps<P>(s: Store<P>, h: History<P>, id: nat)
    requires id + 1 == |h| && Retained(s, id) && IndexedBut(s, h, {id})
    ensures Indexed(s.(index := s.index[h[id].dst := IdsOf(s.index, h[id].dst) + [id]]), h)
  {
    var dst := h[id].dst;
    var s' := s.(index := s.index[dst := IdsOf(s.index, dst) + [id]]);
    var ids := IdsOf(s.index, dst);
    forall i | 0 <= i < |ids| ensures ids[i] < id {
      assert Listed(s.index, dst, ids[i]);
    }
    forall a, j: nat
      ensures Listed(s'.index, a, j) <==> j < |h| && Retained(s', j) && h[j].dst == a
    {
      assert Listed(s'.index, a, j) <==> Listed(s.index, a, j) || (a == dst && j == id);
      assert Retained(s', j) <==> Retained(s, j);
    }
  }

  /** A newly created operation is stored, and not yet listed. */
  lemma StoringKeeps<P>(s: Store<P>, stored: Store<P>, h: History<P>, e: Entry<P>)
    requires Indexed(s, h) && s.next == |h| && stored.index == s.index
    requires forall i: nat :: Retained(stored, i) <==> Retained(s, i) || i == |h|
    requires !Retained(s, |h|)
    ensures IndexedBut(stored, h + [e], {|h|})
  {
  }

  lemma CreateCompleteKeepsIncomplete<P>(s: Store<P>, done: P -> bool, h: History<P>, e: Entry<P>)
    requires HoldsIncomplete(s, done, h) && done(e.payload)
    ensures HoldsIncomplete(MoveToLog(s.(next := s.next + 1), s.next, e), done, h + [e])
  {
    LogAfterMove(s.(next := s.next + 1), s.next, e);
    CompletedLeaves(s.incomplete, done, h, h + [e], s.next);
  }

  lemma CreateCompleteKeepsLog<P>(s: Store<P>, done: P -> bool, h: History<P>, e: Entry<P>)
    requires s.next == |h| && HoldsLog(s, done, h) && done(e.payload)
    ensures HoldsLog(MoveToLog(s.(next := s.next + 1), s.next, e), done, h + [e])
  {
    var h' := h + [e];
    assert Completed(h', done) == Completed(h, done) + {s.next};
    LoggingKeepsLog(s.(next := s.next + 1), done, h, h', s.next);
  }

  /** The newest operation, created complete, is still in the log after any eviction its creation causes. */
  lemma LoggedNewestIsKept<P>(moved: Store<P>, id: nat)
    requires id in moved.log && forall i :: i in moved.log ==> i <= id
    requires moved.maxLogSize >= 1
    ensures var kept := if |moved.log| > moved.maxLogSize then RemoveOldest(moved) else moved; id in kept.log
  {
    if |moved.log| > moved.maxLogSize {
      NewestIsNotOldest(moved.log.Keys, id);
    }
  }

  lemma NewestLoggedKeepsIndex<P>(moved: Store<P>, kept: Store<P>, h: History<P>, id: nat)
    requires IndexedBut(moved, h, {id}) && id + 1 == |h|
    requires id in moved.log && moved.maxLogSize >= 1 && moved.incomplete.Keys !! moved.log.Keys
    requires forall i: nat :: i in moved.log ==> i < |h| && moved.log[i].dst == h[i].dst
    requires kept == if |moved.log| > moved.maxLogSize then RemoveOldest(moved) else moved
    ensures Indexed(kept.(index := kept.index[h[id].dst := IdsOf(kept.index, h[id].dst) + [id]]), h)
  {
    if |moved.log| > moved.maxLogSize {
      EvictionKeepsIndex(moved, h, {id});
    }
    LoggedNewestIsKept(moved, id);
    ListingKeeps(kept, h, id);
  }

  lemma CreateCompleteKeepsIndex<P>(s: Store<P>, moved: Store<P>, kept: Store<P>, h: History<P>, e: Entry<P>)
    requires Indexed(s, h) && s.next == |h| && s.maxLogSize >= 1 && s.incomplete.Keys !! s.log.Keys
    requires forall i: nat :: Retained(s, i) ==> i < |h|
    requires forall i: nat :: i in s.log ==> i < |h| && s.log[i].dst == h[i].dst
    requires moved == s.(next := |h| + 1, incomplete := s.incomplete - {|h|}, log := s.log[|h| := e])
    requires kept == if |moved.log| > moved.maxLogSize then RemoveOldest(moved) else moved
    ensures Indexed(kept.(index := kept.index[e.dst := IdsOf(kept.index, e.dst) + [|h|]]), h + [e])
  {
    StoringKeeps(s, moved, h, e);
    NewestLoggedKeepsIndex(moved, kept, h + [e], |h|);
  }

  lemma CreateCompleteKeeps<P>(s: Store<P>, done: P -> bool, h: History<P>, dst: Address, payload: P)
    requires Represents(s, done, h) && s.maxLogSize >= 1 && done(payload)
    ensures Represents(NewOperation(s, done, dst, payload), done, h + [Entry(dst, payload)])
  {
    LogIsComplete(s, done, h);
    CreateCompleteKeepsIncomplete(s, done, h, Entry(dst, payload));
    CreateCompleteKeepsLog(s, done, h, Entry(dst, payload));
    var counted := s.(next := s.next + 1);
    var moved := counted.(incomplete := counted.incomplete - {s.next},
                          log := counted.log[s.next := Entry(dst, payload)]);
    CreateCompleteKeepsIndex(s, moved, MoveToLog(counted, s.next, Entry(dst, payload)), h, Entry(dst, payload));
  }

  lemma NewJoins<P>(ops: map<nat, Entry<P>>, done: P -> bool, h: History<P>, e: Entry<P>)
    requires AreIncomplete(ops, done, h) && !done(e.payload)
    ensures AreIncomplete(ops[|h| := e], done, h + [e])
  {
  }

  lemma LogStays<P>(s: Store<P>, s': Store<P>, done: P -> bool, h: History<P>, h': History<P>)
    requires HoldsLog(s, done, h) && s'.log == s.log && s'.maxLogSize == s.maxLogSize
    requires Completed(h', done) == Completed(h, done) && |h| <= |h'|
    requires forall i :: 0 <= i < |h| && i in s.log ==> h'[i] == h[i]
    ensures HoldsLog(s', done, h')
  {
  }

  lemma CreateIncompleteKeepsIndex<P>(s: Store<P>, h: History<P>, e: Entry<P>)
    requires Indexed(s, h) && s.next == |h| && !Retained(s, |h|)
    ensures var stored := s.(next := s.next + 1, incomplete := s.incomplete[s.next := e]);
      Indexed(stored.(index := stored.index[e.dst := IdsOf(stored.index, e.dst) + [s.next]]), h + [e])
  {
    var stored := s.(next := s.next + 1, incomplete := s.incomplete[s.next := e]);
    StoringKeeps(s, stored, h, e);
    ListingKeeps(stored, h + [e], s.next);
  }

  lemma CreateIncompleteKeeps<P>(s: Store<P>, done: P -> bool, h: History<P>, dst: Address, payload: P)
    requires Represents(s, done, h) && !done(payload)
    ensures Represents(NewOperation(s, done, dst, payload), done, h + [Entry(dst, payload)])
  {
    var e := Entry(dst, payload);
    var s' := NewOperation(s, done, dst, payload);
    NewJoins(s.incomplete, done, h, e);
    CreateIncompleteKeepsIndex(s, h, e);
    assert Completed(h + [e], done) == Completed(h, done);
    LogStays(s, s', done, h, h + [e]);
  }

  /** Creating an operation extends the history. */
  lemma CreateKeeps<P>(s: Store<P>, done: P -> bool, h: History<P>, dst: Address, payload: P)
    requires Represents(s, done, h)
    requires s.maxLogSize >= 1 || !done(payload)
    ensures Represents(NewOperation(s, done, dst, payload), done, h + [Entry(dst, payload)])
  {
    if done(payload) {
      CreateCompleteKeeps(s, done, h, dst, payload);
    } else {
      CreateIncompleteKeeps(s, done, h, dst, payload);
    }
  }

  lemma NewestIsNotOldest(keys: set<nat>, id: nat)
    requires id in keys && |keys| > 1 && forall k :: k in keys ==> k <= id
    ensures Least(keys) != id
  {
    assert |keys - {id}| > 0;
    var k :| k in keys - {id};
  }

  // ---- Whole runs ----

  datatype StoreCall<P> = CreateCall(dst: Address, payload: P) | UpdateCall(id: nat, payload: P)

  ghost function RunStore<P>(maxLogSize: nat, done: P -> bool, calls: seq<StoreCall<P>>): Store<P> {
    if calls == [] then EmptyStore(maxLogSize) else
      var s := RunStore(maxLogSize, done, calls[..|calls| - 1]);
      match calls[|calls| - 1]
      case CreateCall(dst, payload) => NewOperation(s, done, dst, payload)
      case UpdateCall(id, payload) => Update(s, done, id, payload)
  }

  function RunHistory<P>(done: P -> bool, calls: seq<StoreCall<P>>): History<P> {
    if calls == [] then [] else
      var h := RunHistory(done, calls[..|calls| - 1]);
      match calls[|calls| - 1]
      case CreateCall(dst, payload) => h + [Entry(dst, payload)]
      case UpdateCall(id, payload) => Amend(h, done, id, payload)
  }

  /**
   After any sequence of calls the store represents the simple history of those calls, if the log
   has room for one operation, or no operation is created complete.
   */
  lemma {:induction false} EveryRunRepresents<P>(maxLogSize: nat, done: P -> bool, calls: seq<StoreCall<P>>)
    requires maxLogSize >= 1 || forall i :: 0 <= i < |calls| && calls[i].CreateCall? ==> !done(calls[i].payload)
    ensures Represents(RunStore(maxLogSize, done, calls), done, RunHistory(done, calls))
    ensures RunStore(maxLogSize, done, calls).maxLogSize == maxLogSize
    decreases |calls|
  {
    if calls == [] {
      assert Completed(RunHistory(done, calls), done) == {};
    } else {
      var before := calls[..|calls| - 1];
      EveryRunRepresents(maxLogSize, done, before);
      var s, h := RunStore(maxLogSize, done, before), RunHistory(done, before);
      match calls[|calls| - 1]
      case CreateCall(dst, payload) => CreateKeeps(s, done, h, dst, payload); SizeKept(s, done, dst, payload, 0);
      case UpdateCall(id, payload) => UpdateKeeps(s, done, h, id, payload); SizeKept(s, done, 0, payload, id);
    }
  }

  lemma SizeKept<P>(s: Store<P>, done: P -> bool, dst: Address, payload: P, id: nat)
    ensures NewOperation(s, done, dst, payload).maxLogSize == s.maxLogSize
    ensures Update(s, done, id, payload).maxLogSize == s.maxLogSize
  {
  }

  /** With no room in the log, an operation created complete leaves a dangling id: the exact failing case. */
  lemma CreateKeepsExactly<P>(s: Store<P>, done: P -> bool, h: History<P>, dst: Address, payload: P)
    requires Represents(s, done, h)
    ensures Represents(NewOperation(s, done, dst, payload), done, h + [Entry(dst, payload)])
       <==> s.maxLogSize >= 1 || !done(payload)
  {
    if s.maxLogSize >= 1 || !done(payload) {
      CreateKeeps(s, done, h, dst, payload);
    } else {
      var id := s.next;
      var s' := NewOperation(s, done, dst, payload);
      LogAfterMove(s.(next := id + 1), id, Entry(dst, payload));
      assert s.log.Keys == {};
      assert s.log.Keys + {id} == {id} && Least({id}) == id;
      assert !Retained(s', id);
      assert Listed(s'.index, dst, id);
    }
  }

  predicate IsDone(done: bool) {
    done
  }

  /** Such a case: the first operation is listed for its address, and is in neither map. */
  lemma ListedButLost()
    ensures var s := NewOperation(EmptyStore(0), IsDone, 7, true);
      Listed(s.index, 7, 0) && Lookup(s, 0) == None && !Represents(s, IsDone, [Entry(7, true)])
  {
    var empty: Store<bool> := EmptyStore(0);
    EveryRunRepresents(0, IsDone, []);
    CreateKeepsExactly(empty, IsDone, [], 7, true);
    assert [] + [Entry(7 as Address, true)] == [Entry(7, true)];
    LogAfterMove(empty.(next := 1), 0, Entry(7, true));
    assert empty.log.Keys + {0} == {0} && Least({0}) == 0;
  }

  // ---- Retrieval by address ----

  /** The ids of the retained operations among the first `n` whose address is `a`, in creation order. */
  ghost function Filtered<P>(s: Store<P>, h: History<P>, a: Address, n: nat): seq<nat> {
    if n == 0 then [] else Filtered(s, h, a, n - 1) + if Selected(s, h, a, n - 1) then [n - 1] else []
  }

  /** `r` pairs each of `ids` with its latest payload. */
  ghost predicate Pairs<P>(r: seq<(nat, P)>, ids: seq<nat>, h: History<P>) {
    |r| == |ids| && forall k :: 0 <= k < |ids| ==> ids[k] < |h| && r[k] == (ids[k], h[ids[k]].payload)
  }

  lemma {:induction false} PresentPairs<P>(s: Store<P>, h: History<P>, ids: seq<nat>)
    requires forall k :: 0 <= k < |ids| ==> ids[k] < |h| && Lookup(s, ids[k]) == Some(h[ids[k]].payload)
    ensures Pairs(Present(s, ids), ids, h)
  {
    if ids != [] {
      PresentPairs(s, h, ids[1..]);
    }
  }

  lemma SplitLast(ids: seq<nat>, id: nat)
    requires Ascending(ids) && id in ids && forall j :: j in ids ==> j <= id
    ensures var front := ids[..|ids| - 1];
      ids == front + [id] && Ascending(front) && forall j :: j in front <==> j in ids && j != id
  {
    var last := |ids| - 1;
    assert ids[last] in ids;
    var k :| 0 <= k < |ids| && ids[k] == id;
    assert k == last;
    assert ids == ids[..last] + [id];
  }

  ghost predicate Selected<P>(s: Store<P>, h: History<P>, a: Address, id: nat) {
    id < |h| && Retained(s, id) && h[id].dst == a
  }

  ghost predicate Has(ids: seq<nat>, id: nat) {
    id in ids
  }

  /** `ids` lists, in ascending order, exactly the selected operations below `n`. */
  ghost predicate Selects<P>(ids: seq<nat>, s: Store<P>, h: History<P>, a: Address, n: nat) {
    Ascending(ids) && forall id: nat :: Has(ids, id) <==> id < n && Selected(s, h, a, id)
  }

  lemma SelectsFewer<P>(ids: seq<nat>, s: Store<P>, h: History<P>, a: Address, n: nat) returns (front: seq<nat>)
    requires Selects(ids, s, h, a, n + 1)
    ensures Selects(front, s, h, a, n)
    ensures ids == if Selected(s, h, a, n) then front + [n] else front
  {
    if Selected(s, h, a, n) {
      assert Has(ids, n) && forall j: nat :: j in ids ==> Has(ids, j);
      SplitLast(ids, n);
      front := ids[..|ids| - 1];
      assert forall j: nat :: Has(front, j) <==> Has(ids, j) && j != n;
    } else {
      front := ids;
    }
  }

  lemma EmptyOrHead(ids: seq<nat>)
    ensures ids == [] || Has(ids, ids[0])
  {
  }

  /** There is only one such list, the filter. */
  lemma {:induction false} SelectsIsFilter<P>(s: Store<P>, h: History<P>, a: Address, ids: seq<nat>, n: nat)
    requires Selects(ids, s, h, a, n)
    ensures ids == Filtered(s, h, a, n)
    decreases n
  {
    if n == 0 {
      EmptyOrHead(ids);
    } else {
      var front := SelectsFewer(ids, s, h, a, n - 1);
      SelectsIsFilter(s, h, a, front, n - 1);
    }
  }

  /** Retrieval by address is the simple filter over the whole history, with the latest payloads. */
  lemma GetForAddressIsFilter<P>(s: Store<P>, done: P -> bool, h: History<P>, a: Address)
    requires Represents(s, done, h)
    ensures Pairs(GetForAddress(s, a), Filtered(s, h, a, |h|), h)
  {
    var ids := IdsOf(s.index, a);
    forall id: nat ensures Has(ids, id) <==> id < |h| && Selected(s, h, a, id) {
      assert Listed(s.index, a, id) <==> Has(ids, id);
    }
    SelectsIsFilter(s, h, a, ids, |h|);
    forall k | 0 <= k < |ids| ensures ids[k] < |h| && Lookup(s, ids[k]) == Some(h[ids[k]].payload) {
      assert Has(ids, ids[k]);
    }
    PresentPairs(s, h, ids);
  }

  /** An incomplete operation is always found, with its latest payload. */
  lemma IncompleteIsFound<P>(s: Store<P>, done: P -> bool, h: History<P>, id: nat)
    requires Represents(s, done, h) && id < |h| && !done(h[id].payload)
    ensures Lookup(s, id) == Some(h[id].payload)
  {
  }

  // ---- The store as an object ----

  class MinterOperationStore<P> {
    const done: P -> bool
    const maxLogSize: nat
    var nextId: nat
    var incompleteOperations: map<nat, Entry<P>>
    var operationsLog: map<nat, Entry<P>>
    var addressOperationMap: map<Address, seq<nat>>

    function State(): Store<P>
      reads this
    {
      Store(nextId, incompleteOperations, operationsLog, addressOperationMap, maxLogSize)
    }

    ghost predicate Valid(h: History<P>)
      reads this
    {
      Represents(State(), done, h)
    }

    constructor (done: P -> bool, maxLogSize: nat)
      ensures this.done == done && State() == EmptyStore(maxLogSize) && Valid([])
    {
      this.done, this.maxLogSize := done, maxLogSize;
      nextId, incompleteOperations, operationsLog, addressOperationMap := 0, map[], map[], map[];
      new;
      assert Completed([], done) == {};
    }

    function GetOperation(id: nat, ghost h: History<P>): (r: Option<P>)
      requires Valid(h)
      reads this
      ensures id < |h| && !done(h[id].payload) ==> r == Some(h[id].payload)
      ensures r.Some? ==> id < |h| && r.value == h[id].payload
    {
      Lookup(State(), id)
    }

    function OperationsOf(dst: Address, ghost h: History<P>): (r: seq<(nat, P)>)
      requires Valid(h)
      reads this
      ensures Pairs(r, Filtered(State(), h, dst, |h|), h)
    {
      GetForAddressIsFilter(State(), done, h, dst);
      GetForAddress(State(), dst)
    }

    /** The first entry of the log in id order. */
    method Oldest() returns (oldest: nat)
      requires operationsLog != map[]
      ensures oldest == Least(operationsLog.Keys)
    {
      var rest := operationsLog.Keys;
      oldest :| oldest in rest;
      while rest != {}
        invariant rest <= operationsLog.Keys && oldest in operationsLog
        invariant forall k :: k in operationsLog && k !in rest ==> oldest <= k
        decreases |rest|
      {
        var k :| k in rest;
        rest := rest - {k};
        if k < oldest {
          oldest := k;
        }
      }
    }

    method EvictOldest()
      modifies this`operationsLog, this`addressOperationMap
      ensures State() == RemoveOldest(old(State()))
    {
      if operationsLog == map[] {
        return;
      }
      var id := Oldest();
      var dst := operationsLog[id].dst;
      operationsLog := operationsLog - {id};
      var ids := IdsOf(addressOperationMap, dst);
      var rest := Without(ids, id);
      if |rest| != |ids| {
        if rest == [] {
          addressOperationMap := addressOperationMap - {dst};
        } else {
          addressOperationMap := addressOperationMap[dst := rest];
        }
      }
    }

    method Log(id: nat, entry: Entry<P>)
      modifies this`incompleteOperations, this`operationsLog, this`addressOperationMap
      ensures State() == MoveToLog(old(State()), id, entry)
    {
      incompleteOperations := incompleteOperations - {id};
      operationsLog := operationsLog[id := entry];
      if |operationsLog| > maxLogSize {
        EvictOldest();
      }
    }

    method Create(dst: Address, payload: P, ghost h: History<P>) returns (id: nat)
      requires Valid(h)
      modifies this
      ensures id == old(nextId) == |h|
      ensures State() == NewOperation(old(State()), done, dst, payload)
      ensures Valid(h + [Entry(dst, payload)]) <==> maxLogSize >= 1 || !done(payload)
    {
      id := nextId;
      nextId := id + 1;
      var entry := Entry(dst, payload);
      if done(payload) {
        Log(id, entry);
      } else {
        incompleteOperations := incompleteOperations[id := entry];
      }
      addressOperationMap := addressOperationMap[dst := IdsOf(addressOperationMap, dst) + [id]];
      CreateKeepsExactly(old(State()), done, h, dst, payload);
    }

    method SetPayload(id: nat, payload: P, ghost h: History<P>)
      requires Valid(h)
      modifies this
      ensures State() == Update(old(State()), done, id, payload)
      ensures Valid(Amend(h, done, id, payload))
    {
      UpdateKeeps(State(), done, h, id, payload);
      if id !in incompleteOperations {
        return;
      }
      var entry := incompleteOperations[id].(payload := payload);
      if done(payload) {
        Log(id, entry);
      } else {
        incompleteOperations := incompleteOperations[id := entry];
      }
    }
  }
}
