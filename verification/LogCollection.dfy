/**
 Collecting event logs from a node page by page, with the page halved on failure and a single block
 that keeps failing skipped.
 */
module LogCollection {
  import opened Sums

  const DEFAULT_BLOCKS_TO_COLLECT_PER_PAGE: nat := 128

  /** The node's answer to the n-th request, for blocks `from` to `to` inclusive; None is an error. */
  type Node<!L> = (nat, nat, nat) -> Option<seq<L>>

  /** What a request led to: its logs, a retry with a smaller page, or giving up on its one block. */
  datatype Outcome = Answered | Halved | Skipped

  datatype Request = Request(from: nat, to: nat, outcome: Outcome)

  /** The logs of the blocks `b` with `lo <= b < hi`, but for the skipped ones, block by block. */
  ghost function LogsBut<L>(chain: nat -> seq<L>, skipped: set<nat>, lo: nat, hi: nat): seq<L> {
    if lo >= hi then [] else LogsBut(chain, skipped, lo, hi - 1) + if hi - 1 in skipped then [] else chain(hi - 1)
  }

  /** The naive form: the logs of every readable block, in order. */
  ghost function ReadableLogs<L>(chain: nat -> seq<L>, readable: nat -> bool, lo: nat, hi: nat): seq<L> {
    if lo >= hi then [] else ReadableLogs(chain, readable, lo, hi - 1) + if readable(hi - 1) then chain(hi - 1) else []
  }

  /** An answer, if there is one, holds exactly the logs of the blocks asked for. */
  ghost predicate Honest<L(!new)>(node: Node<L>, chain: nat -> seq<L>) {
    forall n: nat, a: nat, b: nat :: node(n, a, b).Some? ==> node(n, a, b).value == LogsBut(chain, {}, a, b + 1)
  }

  /** A request fails exactly when it covers an unreadable block. */
  ghost predicate FailsOnUnreadable<L(!new)>(node: Node<L>, readable: nat -> bool) {
    forall n: nat, a: nat, b: nat :: node(n, a, b).Some? <==> forall x: nat :: a <= x <= b ==> readable(x)
  }

  /** After `tries` failed requests at one block, the page has been halved that often. */
  predicate HalvedBy(offset: nat, tries: nat) {
    tries < 9 && offset <= [128, 64, 32, 16, 8, 4, 2, 1, 0][tries]
  }

  lemma {:induction false} LogsSplit<L>(chain: nat -> seq<L>, skipped: set<nat>, lo: nat, mid: nat, hi: nat)
    requires lo <= mid <= hi
    ensures LogsBut(chain, skipped, lo, hi) == LogsBut(chain, skipped, lo, mid) + LogsBut(chain, skipped, mid, hi)
    decreases hi
  {
    if mid < hi {
      LogsSplit(chain, skipped, lo, mid, hi - 1);
    }
  }

  lemma {:induction false} LogsAgree<L>(chain: nat -> seq<L>, s: set<nat>, s': set<nat>, lo: nat, hi: nat)
    requires forall b :: lo <= b < hi ==> (b in s <==> b in s')
    ensures LogsBut(chain, s, lo, hi) == LogsBut(chain, s', lo, hi)
  {
    if lo < hi {
      LogsAgree(chain, s, s', lo, hi - 1);
    }
  }

  lemma {:induction false} LogsAreReadable<L>(chain: nat -> seq<L>, skipped: set<nat>, readable: nat -> bool,
                                              lo: nat, hi: nat)
    requires forall b: nat :: lo <= b < hi ==> (b !in skipped <==> readable(b))
    ensures LogsBut(chain, skipped, lo, hi) == ReadableLogs(chain, readable, lo, hi)
  {
    if lo < hi {
      LogsAreReadable(chain, skipped, readable, lo, hi - 1);
    }
  }

  // ---- The requests made, one after the other ----

  /** The block to go on with after the last request. */
  function Position(trace: seq<Request>, from: nat): nat {
    if trace == [] then from else
      var r := trace[|trace| - 1];
      match r.outcome
      case Answered => r.to + 1
      case Halved => r.from
      case Skipped => r.from + 1
  }

  /** Each request starts where the one before left off, stays in range, and fares as the node decides. */
  ghost predicate Walk<L>(node: Node<L>, trace: seq<Request>, from: nat, to: nat) {
    trace == [] || (
      var front, r := trace[..|trace| - 1], trace[|trace| - 1];
      && Walk(node, front, from, to)
      && r.from == Position(front, from)
      && r.from <= r.to <= to
      && (r.outcome.Answered? <==> node(|front|, r.from, r.to).Some?)
      && (r.outcome.Skipped? ==> r.to == r.from))
  }

  ghost function Answers<L>(node: Node<L>, trace: seq<Request>, from: nat, to: nat): seq<L>
    requires Walk(node, trace, from, to)
  {
    if trace == [] then [] else
      var front, r := trace[..|trace| - 1], trace[|trace| - 1];
      Answers(node, front, from, to) + if r.outcome.Answered? then node(|front|, r.from, r.to).value else []
  }

  ghost function SkippedIn(trace: seq<Request>): set<nat> {
    set i | 0 <= i < |trace| && trace[i].outcome.Skipped? :: trace[i].from
  }

  lemma SkippedExtends(trace: seq<Request>, r: Request)
    ensures SkippedIn(trace + [r]) == SkippedIn(trace) + if r.outcome.Skipped? then {r.from} else {}
  {
    var trace' := trace + [r];
    assert trace'[|trace|] == r;
    forall b | b in SkippedIn(trace) ensures b in SkippedIn(trace') {
      var i :| 0 <= i < |trace| && trace[i].outcome.Skipped? && trace[i].from == b;
      assert trace'[i] == trace[i];
    }
  }

  lemma {:induction false} WalkMovesForward<L>(node: Node<L>, trace: seq<Request>, from: nat, to: nat)
    requires Walk(node, trace, from, to)
    ensures from <= Position(trace, from)
    ensures forall b :: b in SkippedIn(trace) ==> from <= b < Position(trace, from)
    ensures forall i :: 0 <= i < |trace| ==> from <= trace[i].from <= trace[i].to <= to
  {
    if trace != [] {
      var front, r := trace[..|trace| - 1], trace[|trace| - 1];
      WalkMovesForward(node, front, from, to);
      assert trace == front + [r];
      SkippedExtends(front, r);
    }
  }

  /** Extending the collected logs by one answered page. */
  lemma PageAppends<L>(chain: nat -> seq<L>, skipped: set<nat>, from: nat, current: nat, last: nat)
    requires from <= current <= last && forall b :: b in skipped ==> b < current
    ensures LogsBut(chain, skipped, from, last + 1)
         == LogsBut(chain, skipped, from, current) + LogsBut(chain, {}, current, last + 1)
  {
    LogsSplit(chain, skipped, from, current, last + 1);
    LogsAgree(chain, skipped, {}, current, last + 1);
  }

  lemma SkipAppends<L>(chain: nat -> seq<L>, skipped: set<nat>, from: nat, current: nat)
    requires from <= current && forall b :: b in skipped ==> b < current
    ensures LogsBut(chain, skipped + {current}, from, current + 1) == LogsBut(chain, skipped, from, current)
  {
    LogsAgree(chain, skipped + {current}, skipped, from, current);
  }

  /** The answers, put together, are the logs of all blocks walked over, but for the skipped ones. */
  lemma {:induction false} WalkCollects<L(!new)>(node: Node<L>, chain: nat -> seq<L>, trace: seq<Request>,
                                                 from: nat, to: nat)
    requires Walk(node, trace, from, to) && Honest(node, chain)
    ensures Answers(node, trace, from, to) == LogsBut(chain, SkippedIn(trace), from, Position(trace, from))
  {
    if trace != [] {
      var front, r := trace[..|trace| - 1], trace[|trace| - 1];
      WalkCollects(node, chain, front, from, to);
      WalkMovesForward(node, front, from, to);
      assert trace == front + [r];
      SkippedExtends(front, r);
      assert !r.outcome.Skipped? ==> SkippedIn(trace) == SkippedIn(front);
      match r.outcome
      case Answered => PageAppends(chain, SkippedIn(front), from, r.from, r.to);
      case Halved =>
      case Skipped => SkipAppends(chain, SkippedIn(front), from, r.from);
    }
  }

  ghost predicate IsAnswered(trace: seq<Request>, b: nat) {
    exists i :: 0 <= i < |trace| && trace[i].outcome.Answered? && trace[i].from <= b <= trace[i].to
  }

  lemma AnsweredExtends(trace: seq<Request>, r: Request, b: nat)
    requires IsAnswered(trace, b) || (r.outcome.Answered? && r.from <= b <= r.to)
    ensures IsAnswered(trace + [r], b)
  {
    var trace' := trace + [r];
    if IsAnswered(trace, b) {
      var i :| 0 <= i < |trace| && trace[i].outcome.Answered? && trace[i].from <= b <= trace[i].to;
      assert trace'[i] == trace[i];
    } else {
      assert trace'[|trace|] == r;
    }
  }

  /** Every block walked over was answered or skipped. */
  lemma {:induction false} WalkCovers<L>(node: Node<L>, trace: seq<Request>, from: nat, to: nat, b: nat)
    requires Walk(node, trace, from, to) && from <= b < Position(trace, from)
    ensures b in SkippedIn(trace) || IsAnswered(trace, b)
  {
    if trace != [] {
      var front, r := trace[..|trace| - 1], trace[|trace| - 1];
      assert trace == front + [r];
      SkippedExtends(front, r);
      if b < Position(front, from) {
        WalkCovers(node, front, from, to, b);
      }
      if b !in SkippedIn(trace) {
        AnsweredExtends(front, r, b);
      }
    }
  }

  lemma {:induction false} RequestFared<L>(node: Node<L>, trace: seq<Request>, from: nat, to: nat, i: nat)
    requires Walk(node, trace, from, to) && i < |trace|
    ensures trace[i].outcome.Answered? <==> node(i, trace[i].from, trace[i].to).Some?
    ensures trace[i].outcome.Skipped? ==> trace[i].to == trace[i].from
  {
    if i < |trace| - 1 {
      RequestFared(node, trace[..|trace| - 1], from, to, i);
    }
  }

  /** A block is skipped only after a request for it alone failed. */
  lemma SkippedFailedAlone<L>(node: Node<L>, trace: seq<Request>, from: nat, to: nat, b: nat)
    requires Walk(node, trace, from, to) && b in SkippedIn(trace)
    ensures exists i :: 0 <= i < |trace| && trace[i] == Request(b, b, Skipped) && node(i, b, b).None?
  {
    var i :| 0 <= i < |trace| && trace[i].outcome.Skipped? && trace[i].from == b;
    RequestFared(node, trace, from, to, i);
  }

  /** With failures exactly on unreadable blocks, exactly those are skipped. */
  lemma SkippedIsUnreadable<L(!new)>(node: Node<L>, readable: nat -> bool, trace: seq<Request>, from: nat, to: nat,
                                     b: nat)
    requires FailsOnUnreadable(node, readable) && Walk(node, trace, from, to) && from <= b < Position(trace, from)
    ensures b in SkippedIn(trace) <==> !readable(b)
  {
    if b in SkippedIn(trace) {
      SkippedFailedAlone(node, trace, from, to, b);
      var i :| 0 <= i < |trace| && trace[i] == Request(b, b, Skipped) && node(i, b, b).None?;
      assert !(forall x: nat :: b <= x <= b ==> readable(x));
    } else {
      WalkCovers(node, trace, from, to, b);
      var i :| 0 <= i < |trace| && trace[i].outcome.Answered? && trace[i].from <= b <= trace[i].to;
      RequestFared(node, trace, from, to, i);
    }
  }

  /** Collecting refines the naive form. */
  lemma WalkRefinesNaive<L(!new)>(node: Node<L>, chain: nat -> seq<L>, readable: nat -> bool, trace: seq<Request>,
                                  from: nat, to: nat)
    requires Walk(node, trace, from, to) && Honest(node, chain) && FailsOnUnreadable(node, readable)
    ensures Answers(node, trace, from, to) == ReadableLogs(chain, readable, from, Position(trace, from))
  {
    WalkCollects(node, chain, trace, from, to);
    forall b: nat | from <= b < Position(trace, from) ensures b !in SkippedIn(trace) <==> readable(b) {
      SkippedIsUnreadable(node, readable, trace, from, to, b);
    }
    LogsAreReadable(chain, SkippedIn(trace), readable, from, Position(trace, from));
  }

  lemma WalkExtends<L>(node: Node<L>, trace: seq<Request>, r: Request, from: nat, to: nat)
    requires Walk(node, trace, from, to) && r.from == Position(trace, from) && r.from <= r.to <= to
    requires r.outcome.Answered? <==> node(|trace|, r.from, r.to).Some?
    requires r.outcome.Skipped? ==> r.to == r.from
    ensures Walk(node, trace + [r], from, to)
    ensures Answers(node, trace + [r], from, to)
         == Answers(node, trace, from, to) + if r.outcome.Answered? then node(|trace|, r.from, r.to).value else []
  {
    assert (trace + [r])[..|trace|] == trace;
  }

  /** What the node may be like: it answers truthfully, and fails exactly on unreadable blocks. */
  ghost predicate Serves<L(!new)>(node: Node<L>, chain: nat -> seq<L>, readable: nat -> bool) {
    Honest(node, chain) && FailsOnUnreadable(node, readable)
  }

  /** How many blocks past the first the next request may cover: halved on failure, reset by an answer. */
  function OffsetAfter(trace: seq<Request>): nat {
    if trace == [] then 128 else
      match trace[|trace| - 1].outcome
      case Answered => 128
      case Halved => OffsetAfter(trace[..|trace| - 1]) / 2
      case Skipped => 0
  }

  /** Each request covers as much as the outcomes before it allow, and a block is skipped only at offset zero. */
  ghost predicate Adapts(trace: seq<Request>, to: nat) {
    trace == [] || (
      var front, r := trace[..|trace| - 1], trace[|trace| - 1];
      && Adapts(front, to)
      && r.to == (if r.from + OffsetAfter(front) <= to then r.from + OffsetAfter(front) else to)
      && (r.outcome.Halved? ==> OffsetAfter(front) > 0)
      && (r.outcome.Skipped? ==> OffsetAfter(front) == 0))
  }

  /** The loop: it walks over the whole range, in at most nine requests per block. */
  method WalkOver<L>(node: Node<L>, from: nat, to: nat) returns (logs: seq<L>, trace: seq<Request>)
    ensures Walk(node, trace, from, to) && Adapts(trace, to) && logs == Answers(node, trace, from, to)
    ensures from <= to ==> Position(trace, from) == to + 1 && |trace| <= 9 * (to + 1 - from)
    ensures from > to ==> trace == []
  {
    var current, offset := from, DEFAULT_BLOCKS_TO_COLLECT_PER_PAGE;
    logs, trace := [], [];
    ghost var tries := 0;
    while current <= to
      invariant Walk(node, trace, from, to) && logs == Answers(node, trace, from, to)
      invariant from <= current == Position(trace, from)
      invariant if from <= to then current <= to + 1 else trace == []
      invariant Adapts(trace, to) && offset == OffsetAfter(trace)
      invariant HalvedBy(offset, tries) && (current > to ==> tries == 0)
      invariant |trace| <= 9 * (current - from) + tries
      decreases 1 + to - current, offset
    {
      var last := if current + offset <= to then current + offset else to;
      var answer := node(|trace|, current, last);
      var outcome := if answer.Some? then Answered else if offset > 0 then Halved else Skipped;
      WalkExtends(node, trace, Request(current, last, outcome), from, to);
      ghost var before := trace;
      trace := trace + [Request(current, last, outcome)];
      assert trace[..|trace| - 1] == before;
      if answer.Some? {
        logs := logs + answer.value;
        current, offset, tries := last + 1, DEFAULT_BLOCKS_TO_COLLECT_PER_PAGE, 0;
      } else if offset > 0 {
        offset, tries := offset / 2, tries + 1;
      } else {
        current, tries := current + 1, 0;
      }
    }
  }

  /**
   The whole collection: at most nine requests per block, and if the node fails exactly on unreadable blocks, the
   logs of every readable block of the range.
   */
  method CollectLogs<L(!new)>(node: Node<L>, from: nat, to: nat) returns (logs: seq<L>, trace: seq<Request>)
    ensures Walk(node, trace, from, to) && Adapts(trace, to) && logs == Answers(node, trace, from, to)
    ensures from <= to ==> Position(trace, from) == to + 1 && |trace| <= 9 * (to + 1 - from)
    ensures from > to ==> trace == []
    ensures forall chain, readable :: Serves(node, chain, readable) ==>
      logs == ReadableLogs(chain, readable, from, to + 1)
  {
    logs, trace := WalkOver(node, from, to);
    forall chain, readable | Serves(node, chain, readable) ensures logs == ReadableLogs(chain, readable, from, to + 1) {
      WalkRefinesNaive(node, chain, readable, trace, from, to);
    }
  }
}
