/** The ring buffer of a user's last burns, indexed by bytes that wrap around. */
module RingBuffers {
  import opened Words

  const CAPACITY: nat := 255

  function WrapU8(n: nat): U8 {
    n % 256
  }

  /** The last 255 members of `s`, or all of them if there are fewer. */
  function Recent<T>(s: seq<T>): seq<T> {
    if |s| <= CAPACITY then s else s[|s| - CAPACITY..]
  }

  /** Where `begin` stands after `n` pushes. */
  function BeginAfter(n: nat): U8 {
    if n <= CAPACITY then 0 else WrapU8(n + 1)
  }

  ghost predicate SlotHolds(values: map<U8, U32>, slot: U8, value: U32) {
    slot in values && values[slot] == value
  }

  /** The i-th slot from `begin` on holds the i-th of the recent pushes. */
  ghost predicate HoldsAt(begin: U8, values: map<U8, U32>, history: seq<U32>, i: nat)
    requires i < |Recent(history)|
  {
    SlotHolds(values, WrapU8(begin + i), Recent(history)[i])
  }

  /** `end` is the slot of the next push, and the slots from `begin` on hold the recent pushes in order. */
  ghost predicate Holds(begin: U8, end: U8, values: map<U8, U32>, history: seq<U32>) {
    && end == WrapU8(|history|)
    && begin == BeginAfter(|history|)
    && forall i :: 0 <= i < |Recent(history)| ==> HoldsAt(begin, values, history, i)
  }

  /** Wrapping is subtracting a multiple of 256. */
  lemma WrapIs(a: nat, q: nat, r: U8)
    requires a == 256 * q + r
    ensures WrapU8(a) == r
  {
  }

  lemma WrapAdd(a: nat, i: nat)
    ensures WrapU8(WrapU8(a) + i) == WrapU8(a + i)
  {
    var q, sum := a / 256, WrapU8(a) + i;
    assert sum == 256 * (sum / 256) + sum % 256;
    WrapIs(a + i, q + sum / 256, sum % 256);
  }

  /** Less than 256 apart, slots differ. */
  lemma WrapDiffers(a: nat, d: nat)
    requires 0 < d < 256
    ensures WrapU8(a + d) != WrapU8(a)
  {
    var q, r := a / 256, WrapU8(a);
    if r + d < 256 {
      WrapIs(a + d, q, r + d);
    } else {
      WrapIs(a + d, q + 1, r + d - 256);
    }
  }

  lemma WrapRound(a: nat)
    ensures WrapU8(a + 256) == WrapU8(a)
  {
    WrapIs(a + 256, a / 256 + 1, WrapU8(a));
  }

  /** The n-th push goes to the last recent slot; the older ones keep theirs, which differ from it. */
  lemma Slots(n: nat, i: nat)
    requires i < CAPACITY && i <= n
    ensures i == n || i == CAPACITY - 1 ==> WrapU8(BeginAfter(n + 1) + i) == WrapU8(n)
    ensures i < n && i < CAPACITY - 1 ==>
      var j := if n < CAPACITY then i else i + 1;
      WrapU8(BeginAfter(n + 1) + i) == WrapU8(BeginAfter(n) + j) != WrapU8(n)
  {
    if n >= CAPACITY {
      FullSlots(n, i);
    } else if i < n {
      WrapDiffers(i, n - i);
    }
  }

  lemma FullSlots(n: nat, i: nat)
    requires i < CAPACITY <= n
    ensures i == CAPACITY - 1 ==> WrapU8(BeginAfter(n + 1) + i) == WrapU8(n)
    ensures i < CAPACITY - 1 ==> WrapU8(BeginAfter(n + 1) + i) == WrapU8(BeginAfter(n) + i + 1) != WrapU8(n)
  {
    WrapAdd(n + 2, i);
    if i == CAPACITY - 1 {
      WrapRound(n);
    } else {
      WrapDiffers(n, i + 2);
      if n > CAPACITY {
        WrapAdd(n + 1, i + 1);
      }
    }
  }

  /** How a push moves `begin` and `end`, wrap-around included. */
  lemma PushMoves(n: nat)
    ensures WrapU8(WrapU8(n) + 1) == WrapU8(n + 1)
    ensures BeginAfter(n + 1) == if BeginAfter(n) == WrapU8(n + 1) then WrapU8(BeginAfter(n) + 1) else BeginAfter(n)
  {
    WrapAdd(n, 1);
    WrapAdd(n + 1, 1);
  }

  lemma RecentAfterPush<T>(s: seq<T>, x: T, i: nat)
    requires i < |Recent(s + [x])|
    ensures |Recent(s + [x])| == if |s| < CAPACITY then |s| + 1 else CAPACITY
    ensures i + 1 == |Recent(s + [x])| ==> Recent(s + [x])[i] == x
    ensures i + 1 < |Recent(s + [x])| ==>
      Recent(s + [x])[i] == Recent(s)[if |s| < CAPACITY then i else i + 1]
  {
  }

  lemma OldSlotStays(values: map<U8, U32>, end: U8, value: U32, slot: U8, kept: U32)
    requires SlotHolds(values, slot, kept) && slot != end
    ensures SlotHolds(values[end := value], slot, kept)
  {
  }

  /** The slot written by a push is the last of the recent ones, and the others keep their slots. */
  lemma PushKeepsAt(begin: U8, end: U8, values: map<U8, U32>, history: seq<U32>, value: U32, i: nat)
    requires Holds(begin, end, values, history) && i < |Recent(history + [value])|
    ensures HoldsAt(BeginAfter(|history| + 1), values[end := value], history + [value], i)
  {
    var n := |history|;
    RecentAfterPush(history, value, i);
    Slots(n, i);
    var slot := WrapU8(BeginAfter(n + 1) + i);
    if i + 1 < |Recent(history + [value])| {
      var j := if n < CAPACITY then i else i + 1;
      assert HoldsAt(begin, values, history, j);
      OldSlotStays(values, end, value, slot, Recent(history)[j]);
    } else {
      assert slot == end && SlotHolds(values[end := value], slot, value);
    }
  }

  lemma PushKeeps(begin: U8, end: U8, values: map<U8, U32>, history: seq<U32>, value: U32)
    requires Holds(begin, end, values, history)
    ensures Holds(BeginAfter(|history| + 1), WrapU8(|history| + 1), values[end := value], history + [value])
  {
    var begin', values', history' := BeginAfter(|history| + 1), values[end := value], history + [value];
    forall i | 0 <= i < |Recent(history')| ensures HoldsAt(begin', values', history', i) {
      PushKeepsAt(begin, end, values, history, value, i);
    }
  }

  class RingBufferUint32 {
    var begin: U8
    var end: U8
    var values: map<U8, U32>
    ghost var history: seq<U32>  // everything ever pushed

    ghost predicate Valid()
      reads this
    {
      Holds(begin, end, values, history)
    }

    constructor ()
      ensures Valid() && history == []
    {
      begin, end, values, history := 0, 0, map[], [];
    }

    method Push(value: U32)
      requires Valid()
      modifies this
      ensures Valid() && history == old(history) + [value]
    {
      PushKeeps(begin, end, values, history, value);
      PushMoves(|history|);
      values := values[end := value];
      end := WrapU8(end + 1);
      if begin == end {
        begin := WrapU8(begin + 1);
      }
      history := history + [value];
    }

    function Size(): (size: U8)
      requires Valid()
      reads this
      ensures size == |Recent(history)|
    {
      if begin <= end then end - begin else 255
    }

    /** All values in order of pushing. */
    method GetAll() returns (all: array<U32>)
      requires Valid()
      ensures fresh(all) && all[..] == Recent(history)
    {
      var size := Size();
      all := new U32[size];
      for i := 0 to size
        invariant all[..i] == Recent(history)[..i]
      {
        assert HoldsAt(begin, values, history, i);
        all[i] := values[WrapU8(begin + i)];
        assert all[..i + 1] == Recent(history)[..i] + [Recent(history)[i]];
      }
    }
  }
}
