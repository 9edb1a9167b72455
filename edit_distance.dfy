/**
 * The Levenshtein distance the analyser imports from the `Levenshtein`
 * package, written as the textbook recurrence: the fewest single-character
 * insertions, deletions and substitutions that turn one string into another.
 */
module EditDistance {

  function Min3(a: nat, b: nat, c: nat): nat {
    if a <= b && a <= c then a else if b <= c then b else c
  }

  function MaxLen(a: string, b: string): nat {
    if |a| >= |b| then |a| else |b|
  }

  function Distance(a: string, b: string): nat
    decreases |a| + |b|
  {
    if |a| == 0 then |b|
    else if |b| == 0 then |a|
    else Min3(Distance(a[1..], b) + 1,
              Distance(a, b[1..]) + 1,
              Distance(a[1..], b[1..]) + (if a[0] == b[0] then 0 else 1))
  }

  /** Never more edits than the longer string has characters. */
  lemma {:induction false} DistanceAtMostMaxLen(a: string, b: string)
    ensures Distance(a, b) <= MaxLen(a, b)
    decreases |a| + |b|
  {
    if |a| > 0 && |b| > 0 {
      DistanceAtMostMaxLen(a[1..], b[1..]);
    }
  }

  /** At least as many edits as the lengths differ. */
  lemma {:induction false} DistanceAtLeastLengthGap(a: string, b: string)
    ensures Distance(a, b) >= |a| - |b| && Distance(a, b) >= |b| - |a|
    decreases |a| + |b|
  {
    if |a| > 0 && |b| > 0 {
      DistanceAtLeastLengthGap(a[1..], b);
      DistanceAtLeastLengthGap(a, b[1..]);
      DistanceAtLeastLengthGap(a[1..], b[1..]);
    }
  }

  /** Distance zero means equal strings, and only that. */
  lemma {:induction false} DistanceZeroIffEqual(a: string, b: string)
    ensures Distance(a, b) == 0 <==> a == b
    decreases |a| + |b|
  {
    if |a| > 0 && |b| > 0 {
      DistanceZeroIffEqual(a[1..], b[1..]);
      if Distance(a, b) == 0 {
        assert a[0] == b[0] && Distance(a[1..], b[1..]) == 0;
        assert a == [a[0]] + a[1..] && b == [b[0]] + b[1..];
      }
    }
  }

  /** Turning `a` into `b` costs as many edits as turning `b` into `a`. */
  lemma {:induction false} DistanceSymmetric(a: string, b: string)
    ensures Distance(a, b) == Distance(b, a)
    decreases |a| + |b|
  {
    if |a| > 0 && |b| > 0 {
      DistanceSymmetric(a[1..], b);
      DistanceSymmetric(a, b[1..]);
      DistanceSymmetric(a[1..], b[1..]);
    }
  }
}
