/**
 * The three word aligners of the pronunciation analyser: an LCS dynamic
 * program with backtracking, a greedy aligner with one word of look-ahead
 * and fuzzy matching, and plain positional pairing.  An alignment is a list
 * of pairs (transcript word, reference word) where either side may be absent.
 */
module Alignment {
  import opened Wrappers
  import opened EditDistance
  import opened Reals

  /** One aligned position: the word heard and the word expected. */
  datatype Pair = Pair(transcript: Option<string>, reference: Option<string>)

  predicate HasSide(p: Pair) {
    p.transcript.Some? || p.reference.Some?
  }

  predicate Matched(p: Pair) {
    p.transcript.Some? && p.reference.Some?
  }

  function Present(w: Option<string>): seq<string> {
    if w.Some? then [w.value] else []
  }

  /** The transcript words of an alignment, absent ones dropped. */
  function TranscriptSide(ps: seq<Pair>): seq<string>
    decreases |ps|
  {
    if |ps| == 0 then [] else Present(ps[0].transcript) + TranscriptSide(ps[1..])
  }

  /** The reference words of an alignment, absent ones dropped. */
  function ReferenceSide(ps: seq<Pair>): seq<string>
    decreases |ps|
  {
    if |ps| == 0 then [] else Present(ps[0].reference) + ReferenceSide(ps[1..])
  }

  /** Number of pairs with both words present. */
  function MatchCount(ps: seq<Pair>): nat
    decreases |ps|
  {
    if |ps| == 0 then 0 else (if Matched(ps[0]) then 1 else 0) + MatchCount(ps[1..])
  }

  /** Number of pairs with a reference word but no transcript word. */
  function MissingCount(ps: seq<Pair>): nat
    decreases |ps|
  {
    if |ps| == 0 then 0
    else (if ps[0].transcript.None? && ps[0].reference.Some? then 1 else 0) + MissingCount(ps[1..])
  }

  /** The words of `ws` that are not the empty string, in order. */
  function NonEmptyWords(ws: seq<string>): seq<string>
    decreases |ws|
  {
    if |ws| == 0 then [] else (if |ws[0]| > 0 then [ws[0]] else []) + NonEmptyWords(ws[1..])
  }

  lemma SidesOfCons(p: Pair, ps: seq<Pair>)
    ensures TranscriptSide([p] + ps) == Present(p.transcript) + TranscriptSide(ps)
    ensures ReferenceSide([p] + ps) == Present(p.reference) + ReferenceSide(ps)
    ensures MatchCount([p] + ps) == (if Matched(p) then 1 else 0) + MatchCount(ps)
  {
    assert ([p] + ps)[0] == p && ([p] + ps)[1..] == ps;
  }

  lemma {:induction false} SidesOfConcat(a: seq<Pair>, b: seq<Pair>)
    ensures TranscriptSide(a + b) == TranscriptSide(a) + TranscriptSide(b)
    ensures ReferenceSide(a + b) == ReferenceSide(a) + ReferenceSide(b)
    decreases |a|
  {
    if |a| == 0 {
      assert a + b == b;
    } else {
      assert a + b == [a[0]] + (a[1..] + b);
      SidesOfCons(a[0], a[1..] + b);
      SidesOfCons(a[0], a[1..]);
      assert a == [a[0]] + a[1..];
      SidesOfConcat(a[1..], b);
    }
  }

  // ---------------------------------------------------------------------
  // LCS alignment (`_align_words`)
  // ---------------------------------------------------------------------

  function Max(a: nat, b: nat): nat {
    if a >= b then a else b
  }

  /**
   * Length of a longest common subsequence of the first `i` words of `t`
   * and the first `j` words of `r`, by the recurrence the table follows.
   */
  function LcsOf(t: seq<string>, r: seq<string>, i: nat, j: nat): nat
    requires i <= |t| && j <= |r|
    decreases i + j
  {
    if i == 0 || j == 0 then 0
    else if t[i - 1] == r[j - 1] then LcsOf(t, r, i - 1, j - 1) + 1
    else Max(LcsOf(t, r, i - 1, j), LcsOf(t, r, i, j - 1))
  }

  function Lcs(t: seq<string>, r: seq<string>): nat {
    LcsOf(t, r, |t|, |r|)
  }

  /** No common subsequence is longer than either of the word lists. */
  lemma {:induction false} LcsAtMostLengths(t: seq<string>, r: seq<string>, i: nat, j: nat)
    requires i <= |t| && j <= |r|
    ensures LcsOf(t, r, i, j) <= i && LcsOf(t, r, i, j) <= j
    decreases i + j
  {
    if i > 0 && j > 0 {
      LcsAtMostLengths(t, r, i - 1, j - 1);
      LcsAtMostLengths(t, r, i - 1, j);
      LcsAtMostLengths(t, r, i, j - 1);
    }
  }

  function Reverse<T>(s: seq<T>): seq<T>
    decreases |s|
  {
    if |s| == 0 then [] else Reverse(s[1..]) + [s[0]]
  }

  lemma {:induction false} ReverseSnoc<T>(s: seq<T>, x: T)
    ensures Reverse(s + [x]) == [x] + Reverse(s)
    decreases |s|
  {
    if |s| > 0 {
      assert (s + [x])[1..] == s[1..] + [x];
      ReverseSnoc(s[1..], x);
    }
  }

  /** Every pair has a word, and a pair holding two words holds the same word twice. */
  predicate ExactPairs(ps: seq<Pair>) {
    forall k :: 0 <= k < |ps| ==>
      HasSide(ps[k]) && (Matched(ps[k]) ==> ps[k].transcript == ps[k].reference)
  }

  /** The first half of `_align_words`: the LCS table of every pair of prefixes. */
  method FillLcsTable(t: seq<string>, r: seq<string>) returns (dp: array2<nat>)
    ensures fresh(dp) && dp.Length0 == |t| + 1 && dp.Length1 == |r| + 1
    ensures forall a, b :: 0 <= a <= |t| && 0 <= b <= |r| ==> dp[a, b] == LcsOf(t, r, a, b)
  {
    dp := new nat[|t| + 1, |r| + 1]((a, b) => 0);
    var i := 1;
    while i <= |t|
      invariant 1 <= i <= |t| + 1
      invariant forall a, b :: 0 <= a < i && 0 <= b <= |r| ==> dp[a, b] == LcsOf(t, r, a, b)
      invariant forall a :: i <= a <= |t| ==> dp[a, 0] == 0
    {
      FillLcsRow(t, r, dp, i);
      i := i + 1;
    }
  }

  /** Row `i` of the table, from the row above it. */
  method FillLcsRow(t: seq<string>, r: seq<string>, dp: array2<nat>, i: nat)
    requires dp.Length0 == |t| + 1 && dp.Length1 == |r| + 1 && 1 <= i <= |t|
    requires forall a, b :: 0 <= a < i && 0 <= b <= |r| ==> dp[a, b] == LcsOf(t, r, a, b)
    requires dp[i, 0] == 0
    modifies dp
    ensures forall a, b :: 0 <= a <= |t| && 0 <= b <= |r| && a != i ==> dp[a, b] == old(dp[a, b])
    ensures forall b :: 0 <= b <= |r| ==> dp[i, b] == LcsOf(t, r, i, b)
  {
    var j := 1;
    while j <= |r|
      invariant 1 <= j <= |r| + 1
      invariant forall a, b :: 0 <= a <= |t| && 0 <= b <= |r| && a != i ==> dp[a, b] == old(dp[a, b])
      invariant forall b :: 0 <= b < j ==> dp[i, b] == LcsOf(t, r, i, b)
    {
      if t[i - 1] == r[j - 1] {
        dp[i, j] := dp[i - 1, j - 1] + 1;
      } else {
        dp[i, j] := Max(dp[i - 1, j], dp[i, j - 1]);
      }
      j := j + 1;
    }
  }

  /** Prepending one pair keeps `ExactPairs` when the pair itself is exact. */
  lemma ExactCons(p: Pair, ps: seq<Pair>)
    requires HasSide(p) && (Matched(p) ==> p.transcript == p.reference)
    requires ExactPairs(ps)
    ensures ExactPairs([p] + ps)
  {
    forall k | 0 <= k < |[p] + ps|
      ensures HasSide(([p] + ps)[k]) && (Matched(([p] + ps)[k]) ==> ([p] + ps)[k].transcript == ([p] + ps)[k].reference)
    {
      if k > 0 { assert ([p] + ps)[k] == ps[k - 1]; }
    }
  }

  /**
   * What the backtracking of `_align_words` keeps: the pairs found so far
   * (in reading order) cover exactly the words after `i` and `j`, and the
   * matches they hold plus the table entry for what is left make up the
   * entry for the whole lists.
   */
  ghost predicate Backtracked(t: seq<string>, r: seq<string>, dp: array2<nat>, found: seq<Pair>, i: nat, j: nat)
    reads dp
  {
    dp.Length0 == |t| + 1 && dp.Length1 == |r| + 1 &&
    i <= |t| && j <= |r| &&
    TranscriptSide(found) == t[i..] &&
    ReferenceSide(found) == r[j..] &&
    ExactPairs(found) &&
    MatchCount(found) + dp[i, j] == dp[|t|, |r|]
  }

  lemma BacktrackStart(t: seq<string>, r: seq<string>, dp: array2<nat>)
    requires dp.Length0 == |t| + 1 && dp.Length1 == |r| + 1
    ensures Backtracked(t, r, dp, [], |t|, |r|)
  {
    assert t[|t|..] == [] && r[|r|..] == [];
  }

  lemma TranscriptCovers(t: seq<string>, found: seq<Pair>, p: Pair, i: nat, i2: nat)
    requires i2 <= i <= |t|
    requires TranscriptSide(found) == t[i..] && t[i2..i] == Present(p.transcript)
    ensures TranscriptSide([p] + found) == t[i2..]
  {
    SidesOfCons(p, found);
    assert t[i2..] == t[i2..i] + t[i..];
  }

  lemma ReferenceCovers(r: seq<string>, found: seq<Pair>, p: Pair, j: nat, j2: nat)
    requires j2 <= j <= |r|
    requires ReferenceSide(found) == r[j..] && r[j2..j] == Present(p.reference)
    ensures ReferenceSide([p] + found) == r[j2..]
  {
    SidesOfCons(p, found);
    assert r[j2..] == r[j2..j] + r[j..];
  }

  /** Finding one more pair, in front of the others, that covers the words between the new and old positions. */
  lemma BacktrackStep(t: seq<string>, r: seq<string>, dp: array2<nat>, found: seq<Pair>, p: Pair, i: nat, j: nat, i2: nat, j2: nat)
    requires Backtracked(t, r, dp, found, i, j)
    requires i2 <= i && j2 <= j
    requires t[i2..i] == Present(p.transcript) && r[j2..j] == Present(p.reference)
    requires HasSide(p) && (Matched(p) ==> p.transcript == p.reference)
    requires (if Matched(p) then 1 else 0) + dp[i2, j2] == dp[i, j]
    ensures Backtracked(t, r, dp, [p] + found, i2, j2)
  {
    TranscriptCovers(t, found, p, i, i2);
    ReferenceCovers(r, found, p, j, j2);
    SidesOfCons(p, found);
    ExactCons(p, found);
  }

  /** Backtracking through a diagonal cell: the two words match. */
  lemma TakeMatch(t: seq<string>, r: seq<string>, dp: array2<nat>, found: seq<Pair>, i: nat, j: nat)
    requires Backtracked(t, r, dp, found, i, j) && i > 0 && j > 0 && t[i - 1] == r[j - 1]
    requires dp[i - 1, j - 1] + 1 == dp[i, j]
    ensures Backtracked(t, r, dp, [Pair(Some(t[i - 1]), Some(r[j - 1]))] + found, i - 1, j - 1)
  {
    var p := Pair(Some(t[i - 1]), Some(r[j - 1]));
    assert t[i - 1..i] == Present(p.transcript);
    assert r[j - 1..j] == Present(p.reference);
    BacktrackStep(t, r, dp, found, p, i, j, i - 1, j - 1);
  }

  /** Backtracking upwards: the transcript word is left unmatched. */
  lemma TakeTranscript(t: seq<string>, r: seq<string>, dp: array2<nat>, found: seq<Pair>, i: nat, j: nat)
    requires Backtracked(t, r, dp, found, i, j) && i > 0
    requires dp[i - 1, j] == dp[i, j]
    ensures Backtracked(t, r, dp, [Pair(Some(t[i - 1]), None)] + found, i - 1, j)
  {
    assert t[i - 1..i] == [t[i - 1]] && r[j..j] == [];
    BacktrackStep(t, r, dp, found, Pair(Some(t[i - 1]), None), i, j, i - 1, j);
  }

  /** Backtracking leftwards: the reference word is left unmatched. */
  lemma TakeReference(t: seq<string>, r: seq<string>, dp: array2<nat>, found: seq<Pair>, i: nat, j: nat)
    requires Backtracked(t, r, dp, found, i, j) && j > 0
    requires dp[i, j - 1] == dp[i, j]
    ensures Backtracked(t, r, dp, [Pair(None, Some(r[j - 1]))] + found, i, j - 1)
  {
    assert t[i..i] == [] && r[j - 1..j] == [r[j - 1]];
    BacktrackStep(t, r, dp, found, Pair(None, Some(r[j - 1])), i, j, i, j - 1);
  }

  /** A filled table follows the recurrence at every inner cell. */
  lemma TableStep(t: seq<string>, r: seq<string>, dp: array2<nat>, i: nat, j: nat)
    requires dp.Length0 == |t| + 1 && dp.Length1 == |r| + 1
    requires forall a, b :: 0 <= a <= |t| && 0 <= b <= |r| ==> dp[a, b] == LcsOf(t, r, a, b)
    requires 1 <= i <= |t| && 1 <= j <= |r|
    ensures dp[i, j] == if t[i - 1] == r[j - 1] then dp[i - 1, j - 1] + 1 else Max(dp[i - 1, j], dp[i, j - 1])
  {
    assert dp[i, j] == LcsOf(t, r, i, j);
    assert dp[i - 1, j - 1] == LcsOf(t, r, i - 1, j - 1);
    assert dp[i - 1, j] == LcsOf(t, r, i - 1, j) && dp[i, j - 1] == LcsOf(t, r, i, j - 1);
  }

  /** One backtracking move from an inner cell, in each of the three directions the table allows. */
  lemma TakeNext(t: seq<string>, r: seq<string>, dp: array2<nat>, found: seq<Pair>, i: nat, j: nat)
    requires Backtracked(t, r, dp, found, i, j) && i > 0 && j > 0
    requires dp[i, j] == if t[i - 1] == r[j - 1] then dp[i - 1, j - 1] + 1 else Max(dp[i - 1, j], dp[i, j - 1])
    ensures t[i - 1] == r[j - 1] ==>
      Backtracked(t, r, dp, [Pair(Some(t[i - 1]), Some(r[j - 1]))] + found, i - 1, j - 1)
    ensures t[i - 1] != r[j - 1] && dp[i - 1, j] > dp[i, j - 1] ==>
      Backtracked(t, r, dp, [Pair(Some(t[i - 1]), None)] + found, i - 1, j)
    ensures t[i - 1] != r[j - 1] && dp[i - 1, j] <= dp[i, j - 1] ==>
      Backtracked(t, r, dp, [Pair(None, Some(r[j - 1]))] + found, i, j - 1)
  {
    if t[i - 1] == r[j - 1] {
      TakeMatch(t, r, dp, found, i, j);
    } else if dp[i - 1, j] > dp[i, j - 1] {
      TakeTranscript(t, r, dp, found, i, j);
    } else {
      TakeReference(t, r, dp, found, i, j);
    }
  }

  /**
   * `_align_words`: fills the LCS table, then walks back from the corner,
   * collecting pairs in reverse and finally reversing them.
   */
  method AlignWords(t: seq<string>, r: seq<string>) returns (pairs: seq<Pair>)
    ensures TranscriptSide(pairs) == t
    ensures ReferenceSide(pairs) == r
    ensures ExactPairs(pairs)
    ensures MatchCount(pairs) == Lcs(t, r)
  {
    var dp := FillLcsTable(t, r);
    var acc := Backtrack(t, r, dp);
    assert t[0..] == t && r[0..] == r;
    pairs := Reverse(acc);
  }

  /** The second half of `_align_words`: the walk back from the corner of a filled table. */
  method Backtrack(t: seq<string>, r: seq<string>, dp: array2<nat>) returns (acc: seq<Pair>)
    requires dp.Length0 == |t| + 1 && dp.Length1 == |r| + 1
    requires forall a, b :: 0 <= a <= |t| && 0 <= b <= |r| ==> dp[a, b] == LcsOf(t, r, a, b)
    ensures Backtracked(t, r, dp, Reverse(acc), 0, 0)
  {
    acc := [];
    ghost var found: seq<Pair> := [];
    var i: nat, j: nat := |t|, |r|;
    BacktrackStart(t, r, dp);
    while i > 0 && j > 0
      invariant Reverse(acc) == found
      invariant Backtracked(t, r, dp, found, i, j)
      decreases i + j
    {
      var p;
      TableStep(t, r, dp, i, j);
      p, i, j := BacktrackMove(t, r, dp, found, i, j);
      ReverseSnoc(acc, p);
      acc := acc + [p];
      found := [p] + found;
    }
    assert forall a :: 0 <= a <= |t| ==> dp[a, 0] == 0;
    assert forall b :: 0 <= b <= |r| ==> dp[0, b] == 0;
    acc := CollectLeftovers(t, r, dp, acc, i, j);
  }

  /** One step of the walk back: a diagonal move on equal words, otherwise towards the larger neighbour. */
  method BacktrackMove(t: seq<string>, r: seq<string>, dp: array2<nat>, ghost found: seq<Pair>, i: nat, j: nat)
    returns (p: Pair, i2: nat, j2: nat)
    requires Backtracked(t, r, dp, found, i, j) && i > 0 && j > 0
    requires dp[i, j] == if t[i - 1] == r[j - 1] then dp[i - 1, j - 1] + 1 else Max(dp[i - 1, j], dp[i, j - 1])
    ensures Backtracked(t, r, dp, [p] + found, i2, j2)
    ensures i2 + j2 < i + j
  {
    TakeNext(t, r, dp, found, i, j);
    if t[i - 1] == r[j - 1] {
      p := Pair(Some(t[i - 1]), Some(r[j - 1]));
      i2, j2 := i - 1, j - 1;
    } else if dp[i - 1, j] > dp[i, j - 1] {
      p := Pair(Some(t[i - 1]), None);
      i2, j2 := i - 1, j;
    } else {
      p := Pair(None, Some(r[j - 1]));
      i2, j2 := i, j - 1;
    }
  }

  /** The end of the backtracking: the words left on one side, each paired with nothing. */
  method CollectLeftovers(t: seq<string>, r: seq<string>, dp: array2<nat>, acc0: seq<Pair>, i0: nat, j0: nat) returns (acc: seq<Pair>)
    requires Backtracked(t, r, dp, Reverse(acc0), i0, j0)
    requires i0 == 0 || j0 == 0
    requires forall a :: 0 <= a <= |t| ==> dp[a, 0] == 0
    requires forall b :: 0 <= b <= |r| ==> dp[0, b] == 0
    ensures Backtracked(t, r, dp, Reverse(acc), 0, 0)
  {
    acc := acc0;
    ghost var found := Reverse(acc0);
    var i, j := i0, j0;
    while i > 0
      invariant Reverse(acc) == found
      invariant Backtracked(t, r, dp, found, i, j)
      invariant j == 0 || i == 0
    {
      var p := Pair(Some(t[i - 1]), None);
      TakeTranscript(t, r, dp, found, i, j);
      ReverseSnoc(acc, p);
      acc := acc + [p];
      found := [p] + found;
      i := i - 1;
    }
    while j > 0
      invariant Reverse(acc) == found
      invariant Backtracked(t, r, dp, found, i, j)
      invariant i == 0
    {
      var p := Pair(None, Some(r[j - 1]));
      TakeReference(t, r, dp, found, i, j);
      ReverseSnoc(acc, p);
      acc := acc + [p];
      found := [p] + found;
      j := j - 1;
    }
  }

  // ---------------------------------------------------------------------
  // Word similarity (`_words_similar`)
  // ---------------------------------------------------------------------

  /**
   * Two words are similar when both are non-empty and at most three tenths
   * of the longer one must be edited to turn one into the other.
   */
  function WordsSimilar(w1: string, w2: string): bool {
    |w1| > 0 && |w2| > 0 && 10 * Distance(w1, w2) <= 3 * MaxLen(w1, w2)
  }

  /** `1 - d / m >= 0.7` over exact reals is `10 d <= 3 m`. */
  lemma SimilarityThreshold(d: nat, m: nat)
    requires m > 0
    ensures (1.0 - (d as real) / (m as real) >= 0.7) <==> 10 * d <= 3 * m
  {
    var q := (d as real) / (m as real);
    var mr := m as real;
    assert q * mr == d as real;
    if q <= 0.3 {
      ProductNonNegative(0.3 - q, mr);
      assert (0.3 - q) * mr == 0.3 * mr - q * mr;
    } else {
      ProductPositive(q - 0.3, mr);
      assert (q - 0.3) * mr == q * mr - 0.3 * mr;
    }
  }

  /**
   * The similarity test is the ratio test `1 - distance / max_len >= 0.7`
   * on two non-empty words (over exact reals).
   */
  lemma WordsSimilarIsRatioTest(w1: string, w2: string)
    ensures WordsSimilar(w1, w2) <==>
      |w1| > 0 && |w2| > 0 &&
      1.0 - (Distance(w1, w2) as real) / (MaxLen(w1, w2) as real) >= 0.7
  {
    if |w1| > 0 && |w2| > 0 {
      SimilarityThreshold(Distance(w1, w2), MaxLen(w1, w2));
    }
  }

  /** A non-empty word is similar to itself. */
  lemma WordSimilarToItself(w: string)
    requires |w| > 0
    ensures WordsSimilar(w, w)
  {
    DistanceZeroIffEqual(w, w);
  }

  /** Similarity does not depend on the order of the two words. */
  lemma WordsSimilarSymmetric(w1: string, w2: string)
    ensures WordsSimilar(w1, w2) == WordsSimilar(w2, w1)
  {
    DistanceSymmetric(w1, w2);
  }

  /** Words whose lengths differ by more than three tenths of the longer are never similar. */
  lemma LengthGapNotSimilar(w1: string, w2: string)
    requires 10 * (|w1| - |w2|) > 3 * |w1|
    ensures !WordsSimilar(w1, w2)
  {
    DistanceAtLeastLengthGap(w1, w2);
  }

  // ---------------------------------------------------------------------
  // Greedy alignment with look-ahead (`_align_words_improved`)
  // ---------------------------------------------------------------------

  /** Pairs each non-empty word with no reference word. */
  function InsertionsFor(ws: seq<string>): seq<Pair>
    decreases |ws|
  {
    if |ws| == 0 then [] else (if |ws[0]| > 0 then [Pair(Some(ws[0]), None)] else []) + InsertionsFor(ws[1..])
  }

  /** Pairs each non-empty word with no transcript word. */
  function DeletionsFor(ws: seq<string>): seq<Pair>
    decreases |ws|
  {
    if |ws| == 0 then [] else (if |ws[0]| > 0 then [Pair(None, Some(ws[0]))] else []) + DeletionsFor(ws[1..])
  }

  /** Whether `w` may stand for the reference word `target` in the look-ahead. */
  predicate LooksLike(w: string, target: string) {
    |w| > 0 && (w == target || WordsSimilar(w, target))
  }

  /** What one turn of the greedy aligner's main loop emits, and the indices it moves to. */
  datatype Turn = Turn(emitted: seq<Pair>, nextT: nat, nextR: nat)

  /**
   * One turn of the main loop at `ti`, `ri`: an empty word on either side is
   * skipped; equal or similar words are paired; otherwise the look-ahead
   * decides between an extra transcript word, a missing reference word and a
   * substitution.  Each turn moves past each word it consumes, and emits a
   * word exactly when it consumes it and the word is not empty.
   */
  function Step(t: seq<string>, r: seq<string>, ti: nat, ri: nat): (turn: Turn)
    requires ti < |t| && ri < |r|
    ensures turn.nextT == ti || turn.nextT == ti + 1
    ensures turn.nextR == ri || turn.nextR == ri + 1
    ensures turn.nextT + turn.nextR > ti + ri
    ensures TranscriptSide(turn.emitted) == (if turn.nextT == ti + 1 && t[ti] != "" then [t[ti]] else [])
    ensures ReferenceSide(turn.emitted) == (if turn.nextR == ri + 1 && r[ri] != "" then [r[ri]] else [])
    ensures forall k :: 0 <= k < |turn.emitted| ==> HasSide(turn.emitted[k])
  {
    var tw, rw := t[ti], r[ri];
    if |tw| == 0 then Turn([], ti + 1, ri)
    else if |rw| == 0 then Turn([], ti, ri + 1)
    else if tw == rw || WordsSimilar(tw, rw) then Turn([Pair(Some(tw), Some(rw))], ti + 1, ri + 1)
    else if ti + 1 < |t| && LooksLike(t[ti + 1], rw) then Turn([Pair(Some(tw), None)], ti + 1, ri)
    else if ri + 1 < |r| && LooksLike(r[ri + 1], tw) then Turn([Pair(None, Some(rw))], ti, ri + 1)
    else Turn([Pair(Some(tw), Some(rw))], ti + 1, ri + 1)
  }

  /** What the main loop of the greedy aligner emits from indices `ti`, `ri` on, remainders included. */
  function ImprovedFrom(t: seq<string>, r: seq<string>, ti: nat, ri: nat): seq<Pair>
    requires ti <= |t| && ri <= |r|
    decreases |t| - ti + |r| - ri
  {
    if ti < |t| && ri < |r| then
      var turn := Step(t, r, ti, ri);
      turn.emitted + ImprovedFrom(t, r, turn.nextT, turn.nextR)
    else
      InsertionsFor(t[ti..]) + DeletionsFor(r[ri..])
  }

  /** Pairs every word, empty or not, with no reference word. */
  function AllInsertions(ws: seq<string>): seq<Pair> {
    seq(|ws|, i requires 0 <= i < |ws| => Pair(Some(ws[i]), None))
  }

  /** Pairs every word, empty or not, with no transcript word. */
  function AllDeletions(ws: seq<string>): seq<Pair> {
    seq(|ws|, i requires 0 <= i < |ws| => Pair(None, Some(ws[i])))
  }

  /** The result of `_align_words_improved`, including its empty-input cases. */
  function AlignImproved(t: seq<string>, r: seq<string>): seq<Pair> {
    if |t| == 0 && |r| == 0 then []
    else if |t| == 0 then AllDeletions(r)
    else if |r| == 0 then AllInsertions(t)
    else ImprovedFrom(t, r, 0, 0)
  }

  lemma InsertionsStep(ws: seq<string>, i: nat)
    requires i < |ws|
    ensures InsertionsFor(ws[i..]) ==
      (if |ws[i]| > 0 then [Pair(Some(ws[i]), None)] else []) + InsertionsFor(ws[i + 1..])
  {
    assert ws[i..][1..] == ws[i + 1..];
  }

  lemma DeletionsStep(ws: seq<string>, i: nat)
    requires i < |ws|
    ensures DeletionsFor(ws[i..]) ==
      (if |ws[i]| > 0 then [Pair(None, Some(ws[i]))] else []) + DeletionsFor(ws[i + 1..])
  {
    assert ws[i..][1..] == ws[i + 1..];
  }

  /**
   * `_align_words_improved`.  Every turn of the main loop advances `t_idx`,
   * `r_idx` or both, which is the measure that makes it terminate.
   */
  method AlignWordsImproved(t: seq<string>, r: seq<string>) returns (pairs: seq<Pair>)
    ensures pairs == AlignImproved(t, r)
  {
    if |t| == 0 && |r| == 0 {
      return [];
    } else if |t| == 0 {
      return AllDeletions(r);
    } else if |r| == 0 {
      return AllInsertions(t);
    }
    pairs := [];
    var ti: nat, ri: nat := 0, 0;
    ghost var goal := ImprovedFrom(t, r, 0, 0);
    while ti < |t| && ri < |r|
      invariant ti <= |t| && ri <= |r|
      invariant pairs + ImprovedFrom(t, r, ti, ri) == goal
      decreases |t| - ti + |r| - ri
    {
      var emitted, nextT, nextR := ImprovedTurn(t, r, ti, ri);
      AppendAssoc(pairs, emitted, ImprovedFrom(t, r, nextT, nextR));
      pairs := pairs + emitted;
      ti, ri := nextT, nextR;
    }
    pairs := AppendLeftovers(pairs, t, ti, r, ri);
  }

  /**
   * The body of the main loop of `_align_words_improved`: what one turn
   * appends (nothing when it skips an empty word) and where it moves.
   */
  method ImprovedTurn(t: seq<string>, r: seq<string>, ti: nat, ri: nat) returns (emitted: seq<Pair>, nextT: nat, nextR: nat)
    requires ti < |t| && ri < |r|
    ensures Turn(emitted, nextT, nextR) == Step(t, r, ti, ri)
  {
    var tw, rw := t[ti], r[ri];
    if |tw| == 0 {
      return [], ti + 1, ri;
    }
    if |rw| == 0 {
      return [], ti, ri + 1;
    }
    if tw == rw {
      emitted, nextT, nextR := [Pair(Some(tw), Some(rw))], ti + 1, ri + 1;
    } else if WordsSimilar(tw, rw) {
      emitted, nextT, nextR := [Pair(Some(tw), Some(rw))], ti + 1, ri + 1;
    } else if ti + 1 < |t| && |t[ti + 1]| > 0 && (t[ti + 1] == rw || WordsSimilar(t[ti + 1], rw)) {
      emitted, nextT, nextR := [Pair(Some(tw), None)], ti + 1, ri;
    } else if ri + 1 < |r| && |r[ri + 1]| > 0 && (r[ri + 1] == tw || WordsSimilar(r[ri + 1], tw)) {
      emitted, nextT, nextR := [Pair(None, Some(rw))], ti, ri + 1;
    } else {
      emitted, nextT, nextR := [Pair(Some(tw), Some(rw))], ti + 1, ri + 1;
    }
  }

  /** The end of `_align_words_improved`: leftover transcript words, then leftover reference words. */
  method AppendLeftovers(pairs0: seq<Pair>, t: seq<string>, ti0: nat, r: seq<string>, ri0: nat) returns (pairs: seq<Pair>)
    requires ti0 <= |t| && ri0 <= |r|
    ensures pairs == pairs0 + (InsertionsFor(t[ti0..]) + DeletionsFor(r[ri0..]))
  {
    pairs := pairs0;
    var ti, ri := ti0, ri0;
    // The remainders: leftover transcript words, then leftover reference words.
    ghost var head := pairs + InsertionsFor(t[ti..]);
    ghost var deletions := DeletionsFor(r[ri..]);
    AppendAssoc(pairs, InsertionsFor(t[ti..]), deletions);
    while ti < |t|
      invariant ti <= |t|
      invariant pairs + InsertionsFor(t[ti..]) == head
    {
      ghost var before := pairs;
      var more := if |t[ti]| > 0 then [Pair(Some(t[ti]), None)] else [];
      InsertionsStep(t, ti);
      AppendAssoc(before, more, InsertionsFor(t[ti + 1..]));
      if |t[ti]| > 0 {
        pairs := pairs + [Pair(Some(t[ti]), None)];
      }
      assert pairs == before + more;
      ti := ti + 1;
    }
    assert pairs == head by {
      assert t[ti..] == [];
      assert pairs + InsertionsFor(t[ti..]) == pairs;
    }
    while ri < |r|
      invariant ri0 <= ri <= |r|
      invariant pairs + DeletionsFor(r[ri..]) == head + deletions
    {
      ghost var before := pairs;
      var more := if |r[ri]| > 0 then [Pair(None, Some(r[ri]))] else [];
      DeletionsStep(r, ri);
      AppendAssoc(before, more, DeletionsFor(r[ri + 1..]));
      if |r[ri]| > 0 {
        pairs := pairs + [Pair(None, Some(r[ri]))];
      }
      assert pairs == before + more;
      ri := ri + 1;
    }
    assert pairs == head + deletions by {
      assert r[ri..] == [];
      assert pairs + DeletionsFor(r[ri..]) == pairs;
    }
  }

  lemma AppendAssoc<T>(a: seq<T>, b: seq<T>, c: seq<T>)
    ensures (a + b) + c == a + (b + c)
  {
  }

  lemma {:induction false} InsertionsSides(ws: seq<string>)
    ensures TranscriptSide(InsertionsFor(ws)) == NonEmptyWords(ws)
    ensures ReferenceSide(InsertionsFor(ws)) == []
    ensures forall k :: 0 <= k < |InsertionsFor(ws)| ==> HasSide(InsertionsFor(ws)[k])
    decreases |ws|
  {
    if |ws| > 0 {
      InsertionsSides(ws[1..]);
      var head := if |ws[0]| > 0 then [Pair(Some(ws[0]), None)] else [];
      SidesOfConcat(head, InsertionsFor(ws[1..]));
    }
  }

  lemma {:induction false} DeletionsSides(ws: seq<string>)
    ensures TranscriptSide(DeletionsFor(ws)) == []
    ensures ReferenceSide(DeletionsFor(ws)) == NonEmptyWords(ws)
    ensures forall k :: 0 <= k < |DeletionsFor(ws)| ==> HasSide(DeletionsFor(ws)[k])
    decreases |ws|
  {
    if |ws| > 0 {
      DeletionsSides(ws[1..]);
      var head := if |ws[0]| > 0 then [Pair(None, Some(ws[0]))] else [];
      SidesOfConcat(head, DeletionsFor(ws[1..]));
    }
  }

  lemma NonEmptyStep(ws: seq<string>, i: nat)
    requires i < |ws|
    ensures NonEmptyWords(ws[i..]) == (if ws[i] != "" then [ws[i]] else []) + NonEmptyWords(ws[i + 1..])
  {
    assert ws[i..][1..] == ws[i + 1..];
  }

  lemma HasSideOfConcat(a: seq<Pair>, b: seq<Pair>)
    requires forall k :: 0 <= k < |a| ==> HasSide(a[k])
    requires forall k :: 0 <= k < |b| ==> HasSide(b[k])
    ensures forall k :: 0 <= k < |a + b| ==> HasSide((a + b)[k])
  {
    forall k | 0 <= k < |a + b|
      ensures HasSide((a + b)[k])
    {
      if k >= |a| { assert (a + b)[k] == b[k - |a|]; }
    }
  }

  /** The main loop drops empty words and loses no other word, on either side. */
  lemma {:induction false} ImprovedFromSides(t: seq<string>, r: seq<string>, ti: nat, ri: nat)
    requires ti <= |t| && ri <= |r|
    ensures TranscriptSide(ImprovedFrom(t, r, ti, ri)) == NonEmptyWords(t[ti..])
    ensures ReferenceSide(ImprovedFrom(t, r, ti, ri)) == NonEmptyWords(r[ri..])
    ensures forall k :: 0 <= k < |ImprovedFrom(t, r, ti, ri)| ==> HasSide(ImprovedFrom(t, r, ti, ri)[k])
    decreases |t| - ti + |r| - ri
  {
    if ti < |t| && ri < |r| {
      var turn := Step(t, r, ti, ri);
      var rest := ImprovedFrom(t, r, turn.nextT, turn.nextR);
      ImprovedFromSides(t, r, turn.nextT, turn.nextR);
      SidesOfConcat(turn.emitted, rest);
      HasSideOfConcat(turn.emitted, rest);
      NonEmptyAdvance(t, ti, turn.nextT);
      NonEmptyAdvance(r, ri, turn.nextR);
    } else {
      LeftoverSides(t, r, ti, ri);
    }
  }

  /** The words kept from `i` on: the one at `i` when it is passed and not empty, then those from `next` on. */
  lemma NonEmptyAdvance(ws: seq<string>, i: nat, next: nat)
    requires i < |ws| && (next == i || next == i + 1)
    ensures NonEmptyWords(ws[i..]) == (if next == i + 1 && ws[i] != "" then [ws[i]] else []) + NonEmptyWords(ws[next..])
  {
    if next == i + 1 {
      NonEmptyStep(ws, i);
    }
  }

  /** The remainders of the greedy aligner: every non-empty leftover word, on its own side. */
  lemma LeftoverSides(t: seq<string>, r: seq<string>, ti: nat, ri: nat)
    requires ti <= |t| && ri <= |r| && (ti == |t| || ri == |r|)
    ensures TranscriptSide(InsertionsFor(t[ti..]) + DeletionsFor(r[ri..])) == NonEmptyWords(t[ti..])
    ensures ReferenceSide(InsertionsFor(t[ti..]) + DeletionsFor(r[ri..])) == NonEmptyWords(r[ri..])
    ensures var ps := InsertionsFor(t[ti..]) + DeletionsFor(r[ri..]);
      forall k :: 0 <= k < |ps| ==> HasSide(ps[k])
  {
    InsertionsSides(t[ti..]);
    DeletionsSides(r[ri..]);
    SidesOfConcat(InsertionsFor(t[ti..]), DeletionsFor(r[ri..]));
    HasSideOfConcat(InsertionsFor(t[ti..]), DeletionsFor(r[ri..]));
    if ti == |t| {
      assert t[ti..] == [];
    } else {
      assert r[ri..] == [];
    }
  }

  lemma {:induction false} PositionalSides(ps: seq<Pair>, t: seq<string>, r: seq<string>)
    requires |ps| >= |t| && |ps| >= |r|
    requires forall i :: 0 <= i < |ps| ==> ps[i].transcript == (if i < |t| then Some(t[i]) else None)
    requires forall i :: 0 <= i < |ps| ==> ps[i].reference == (if i < |r| then Some(r[i]) else None)
    ensures TranscriptSide(ps) == t && ReferenceSide(ps) == r
    decreases |ps|
  {
    if |ps| > 0 {
      var t', r' := if |t| == 0 then [] else t[1..], if |r| == 0 then [] else r[1..];
      forall i | 0 <= i < |ps| - 1
        ensures ps[1..][i].transcript == (if i < |t'| then Some(t'[i]) else None)
        ensures ps[1..][i].reference == (if i < |r'| then Some(r'[i]) else None)
      {
      }
      PositionalSides(ps[1..], t', r');
      if |t| > 0 { assert t == [t[0]] + t'; }
      if |r| > 0 { assert r == [r[0]] + r'; }
    }
  }

  /**
   * The greedy aligner's promises: no pair is empty; with two non-empty
   * inputs the two sides are the inputs minus their empty words; with one
   * input empty the other comes back whole, empty words included.
   */
  lemma AlignImprovedProjections(t: seq<string>, r: seq<string>)
    ensures forall k :: 0 <= k < |AlignImproved(t, r)| ==> HasSide(AlignImproved(t, r)[k])
    ensures t != [] && r != [] ==>
      TranscriptSide(AlignImproved(t, r)) == NonEmptyWords(t) &&
      ReferenceSide(AlignImproved(t, r)) == NonEmptyWords(r)
    ensures t == [] ==> TranscriptSide(AlignImproved(t, r)) == [] && ReferenceSide(AlignImproved(t, r)) == r
    ensures r == [] ==> TranscriptSide(AlignImproved(t, r)) == t && ReferenceSide(AlignImproved(t, r)) == []
  {
    if |t| == 0 && |r| == 0 {
    } else if |t| == 0 {
      PositionalSides(AllDeletions(r), t, r);
    } else if |r| == 0 {
      PositionalSides(AllInsertions(t), t, r);
    } else {
      ImprovedFromSides(t, r, 0, 0);
      assert t[0..] == t && r[0..] == r;
    }
  }

  // ---------------------------------------------------------------------
  // Positional alignment (`_simple_word_alignment`)
  // ---------------------------------------------------------------------

  /** Pair i holds the i-th word of each list, or nothing past its end. */
  function SimpleAlignment(t: seq<string>, r: seq<string>): seq<Pair> {
    seq(Max(|t|, |r|), i requires 0 <= i < Max(|t|, |r|) =>
      Pair(if i < |t| then Some(t[i]) else None, if i < |r| then Some(r[i]) else None))
  }

  /** Positional pairing has `max(m, n)` pairs, none empty, and projects back onto both inputs. */
  lemma SimpleAlignmentProjections(t: seq<string>, r: seq<string>)
    ensures |SimpleAlignment(t, r)| == Max(|t|, |r|)
    ensures forall k :: 0 <= k < |SimpleAlignment(t, r)| ==> HasSide(SimpleAlignment(t, r)[k])
    ensures TranscriptSide(SimpleAlignment(t, r)) == t
    ensures ReferenceSide(SimpleAlignment(t, r)) == r
  {
    PositionalSides(SimpleAlignment(t, r), t, r);
  }
}
