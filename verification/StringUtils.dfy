/** Cutting a UTF-8 string down to 32 bytes on a character boundary. */
module StringUtils {

  const WORD: nat := 32

  // ---- UTF-8, section 4 of RFC 3629 ----

  predicate IsAscii(b: bv8) {
    b & 0x80 == 0
  }

  /** A byte of the form 10xxxxxx: it never starts a character. */
  predicate IsContinuation(b: bv8) {
    b & 0xC0 == 0x80
  }

  predicate Tails(s: seq<bv8>, from: nat, n: nat) {
    n <= |s| && forall i :: from <= i < n ==> IsContinuation(s[i])
  }

  /** The length of the character that `s` starts with, or 0 if it starts with none. */
  function CharLen(s: seq<bv8>): (n: nat)
    ensures n <= 4 && n <= |s|
    ensures n > 0 ==> !IsContinuation(s[0]) && Tails(s, 1, n) && (n == 1 <==> IsAscii(s[0]))
  {
    if s == [] then 0
    else if s[0] <= 0x7F then 1
    else if 0xC2 <= s[0] <= 0xDF && Tails(s, 1, 2) then 2
    else if 0xE0 <= s[0] <= 0xEF && Tails(s, 1, 3)
            && (s[0] == 0xE0 ==> s[1] >= 0xA0) && (s[0] == 0xED ==> s[1] <= 0x9F) then 3
    else if 0xF0 <= s[0] <= 0xF4 && Tails(s, 1, 4)
            && (s[0] == 0xF0 ==> s[1] >= 0x90) && (s[0] == 0xF4 ==> s[1] <= 0x8F) then 4
    else 0
  }

  predicate ValidUtf8(s: seq<bv8>) {
    s == [] || (CharLen(s) > 0 && ValidUtf8(s[CharLen(s)..]))
  }

  /** Whether the first `i` bytes of `s` are whole characters. */
  predicate IsBoundary(s: seq<bv8>, i: nat)
    decreases |s|
  {
    i == 0 || (0 < CharLen(s) <= i && IsBoundary(s[CharLen(s)..], i - CharLen(s)))
  }

  /** In a valid string, the boundaries are its end and the places where no continuation byte stands. */
  lemma {:induction false} BoundaryExactly(s: seq<bv8>, i: nat)
    requires ValidUtf8(s) && i <= |s|
    ensures IsBoundary(s, i) <==> i == |s| || !IsContinuation(s[i])
    decreases |s|
  {
    if s != [] && i >= CharLen(s) {
      BoundaryExactly(s[CharLen(s)..], i - CharLen(s));
    }
  }

  lemma CharLenOfPrefix(s: seq<bv8>, i: nat)
    requires CharLen(s) <= i <= |s|
    ensures CharLen(s) > 0 ==> CharLen(s[..i]) == CharLen(s)
  {
    var n := CharLen(s);
    if n > 0 {
      assert forall k :: 0 <= k < i ==> s[..i][k] == s[k];
      assert n > 1 ==> Tails(s[..i], 1, n);
    }
  }

  /** A prefix that ends on a boundary is a valid string. */
  lemma {:induction false} BoundaryPrefix(s: seq<bv8>, i: nat)
    requires ValidUtf8(s) && i <= |s| && IsBoundary(s, i)
    ensures ValidUtf8(s[..i])
    decreases |s|
  {
    if i > 0 {
      var n := CharLen(s);
      BoundaryPrefix(s[n..], i - n);
      CharLenOfPrefix(s, i);
      assert s[..i][n..] == s[n..][..i - n];
    }
  }

  /** No character is longer than four bytes, so a boundary is near. */
  lemma {:induction false} BoundaryNear(s: seq<bv8>, i: nat)
    requires ValidUtf8(s) && i < |s|
    ensures exists j :: 0 <= j <= i && i <= j + 3 && IsBoundary(s, j)
    decreases |s|
  {
    var n := CharLen(s);
    if i < n {
      assert IsBoundary(s, 0);
    } else {
      BoundaryNear(s[n..], i - n);
      var j :| 0 <= j <= i - n && i - n <= j + 3 && IsBoundary(s[n..], j);
      assert IsBoundary(s, n + j);
    }
  }

  // ---- Truncation ----

  /** The last place at or before `i` where no continuation byte stands; the beginning if there is none. */
  function LastLead(s: seq<bv8>, i: nat): (j: nat)
    requires i < |s|
    ensures j <= i && (j > 0 ==> !IsContinuation(s[j])) && forall k :: j < k <= i ==> IsContinuation(s[k])
  {
    if !IsContinuation(s[i]) || i == 0 then i else LastLead(s, i - 1)
  }

  /** How many bytes of the string are kept. */
  function Kept(s: seq<bv8>): nat {
    if |s| < WORD then |s| else if IsAscii(s[31]) then WORD else LastLead(s, 31)
  }

  function Zeros(n: nat): seq<bv8> {
    seq(n, _ => 0)
  }

  /** The word that starts with `s`, filled up with zeros. */
  function Padded(s: seq<bv8>): seq<bv8>
    requires |s| <= WORD
  {
    s + Zeros(WORD - |s|)
  }

  /** The first 32 bytes of a byte string in memory; what follows a shorter string there is zero. */
  function LoadWord(s: seq<bv8>): seq<bv8> {
    if |s| >= WORD then s[..WORD] else Padded(s)
  }

  /** For every valid string, whole characters are kept: all of a short string, and at least 28 bytes of a long one. */
  lemma TruncationIsClean(s: seq<bv8>)
    requires ValidUtf8(s)
    ensures Kept(s) <= |s| && IsBoundary(s, Kept(s)) && ValidUtf8(s[..Kept(s)])
    ensures if |s| < WORD then Kept(s) == |s| else 28 <= Kept(s) <= 32
  {
    BoundaryExactly(s, Kept(s));
    if |s| < WORD {
    } else if IsAscii(s[31]) {
      AfterAscii(s, 31);
    } else {
      BoundaryNear(s, 31);
      var j :| 0 <= j <= 31 && 31 <= j + 3 && IsBoundary(s, j);
      BoundaryExactly(s, j);
    }
    BoundaryPrefix(s, Kept(s));
  }

  /** A single-byte character ends on a boundary. */
  lemma {:induction false} AfterAscii(s: seq<bv8>, i: nat)
    requires ValidUtf8(s) && i < |s| && IsAscii(s[i])
    ensures IsBoundary(s, i + 1)
    decreases |s|
  {
    var n := CharLen(s);
    if i >= n {
      AfterAscii(s[n..], i - n);
    }
  }

  /** Nothing that fits is dropped, except a longer character that ends exactly with the 32nd byte. */
  lemma KeepsAllThatFits(s: seq<bv8>)
    requires ValidUtf8(s)
    ensures (forall i :: 0 <= i <= WORD && i <= |s| && IsBoundary(s, i) ==> i <= Kept(s))
       <==> !(|s| >= WORD && !IsAscii(s[31]) && IsBoundary(s, WORD))
  {
    TruncationIsClean(s);
    if |s| >= WORD && !IsAscii(s[31]) {
      forall i | 0 <= i < WORD && IsBoundary(s, i) ensures i <= Kept(s) {
        BoundaryExactly(s, i);
      }
    }
  }

  /** `n` letters and a two-byte character. */
  function LettersAndAccent(n: nat): seq<bv8> {
    seq(n, _ => 0x61) + [0xC3, 0xA9]
  }

  lemma {:induction false} LettersAndAccentAreValid(n: nat)
    ensures ValidUtf8(LettersAndAccent(n)) && IsBoundary(LettersAndAccent(n), n + 2)
  {
    var s := LettersAndAccent(n);
    if n == 0 {
      assert CharLen(s) == 2 && s[2..] == [];
    } else {
      LettersAndAccentAreValid(n - 1);
      assert CharLen(s) == 1 && s[1..] == LettersAndAccent(n - 1);
    }
  }

  /** Such a string of exactly 32 bytes would fit as it is, and loses its last character. */
  lemma LosesFittingCharacter()
    ensures var s := LettersAndAccent(30); |s| == WORD && ValidUtf8(s) && IsBoundary(s, WORD) && Kept(s) == 30
  {
    LettersAndAccentAreValid(30);
    var s := LettersAndAccent(30);
    assert s[31] == 0xA9 && s[30] == 0xC3;
    assert LastLead(s, 31) == LastLead(s, 30) == 30;
  }

  method ClearWordFrom(source: array<bv8>, from: nat)
    requires from < WORD <= source.Length
    modifies source
    ensures source[..WORD] == Padded(old(source[..])[..from]) && source[WORD..] == old(source[WORD..])
  {
    var j := from;
    while j < WORD
      invariant from <= j <= WORD
      invariant forall k :: 0 <= k < source.Length ==> source[k] == if from <= k < j then 0 else old(source[k])
    {
      source[j] := 0;
      j := j + 1;
    }
  }

  /** `source` is the string's memory, which the function overwrites in place. */
  method TruncateUtf8(source: array<bv8>) returns (result: seq<bv8>)
    modifies source
    ensures Kept(old(source[..])) <= WORD && result == Padded(old(source[..])[..Kept(old(source[..]))])
  {
    ghost var s := source[..];
    if source.Length < WORD || source[31] & 0x80 == 0 {
      assert source.Length < WORD ==> s[..|s|] == s;
      return LoadWord(source[..]);
    }
    var i := 31;
    while true
      invariant 0 <= i <= 31 && source[..] == s
      invariant LastLead(s, 31) == LastLead(s, i)
      decreases i
    {
      if source[i] & 0xC0 != 0x80 {
        ClearWordFrom(source, i);
        return LoadWord(source[..]);
      }
      if i == 0 {
        return Zeros(WORD);
      }
      i := i - 1;
    }
  }
}
