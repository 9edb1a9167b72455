/**
 * The pronunciation analyser proper: turns a transcript and a reference
 * text into ordered `PronunciationError` records, classifies and rates each
 * one, and assembles the analysis `analyze_pronunciation` returns once the
 * transcription step has produced its dictionary.
 */
module Analyzer {
  import opened Wrappers
  import opened Text
  import opened EditDistance
  import opened Alignment
  import opened Transcripts
  import opened Scoring
  import opened Phonetic

  datatype ErrorType = Substitution | Deletion | Errors | ProcessingError

  /** One entry of `pronunciation_errors`. */
  datatype PronunciationError = PronunciationError(
    word: string,
    expectedPronunciation: string,
    actualPronunciation: string,
    confidence: real,
    errorType: ErrorType,
    position: nat,
    suggestion: string)

  /** A `PronunciationAnalysis` record. */
  datatype Analysis = Analysis(
    overallScore: real,
    accuracyScore: real,
    fluencyScore: real,
    errors: seq<PronunciationError>,
    transcript: string,
    phoneticTranscript: string,
    wordsAnalyzed: nat,
    totalErrors: nat)

  // ---------------------------------------------------------------------
  // Language patterns
  // ---------------------------------------------------------------------

  /** A sound of the reference word and what learners tend to say instead. */
  datatype SoundPattern = SoundPattern(sound: string, substitutions: seq<string>)

  /** `pronunciation_patterns.get(language, {})`, in insertion order. */
  function PatternsFor(language: string): seq<SoundPattern> {
    if language == "en" then [
      SoundPattern("th", ["s", "z", "f", "v", "d", "t"]),
      SoundPattern("r", ["w", "l"]),
      SoundPattern("v", ["w", "b", "f"]),
      SoundPattern("w", ["v", "u"])
    ]
    else if language == "de" then [
      SoundPattern("ü", ["u", "ue", "y"]),
      SoundPattern("ö", ["o", "oe"]),
      SoundPattern("ä", ["a", "ae", "e"]),
      SoundPattern("ch", ["sh", "k", "h"]),
      SoundPattern("r", ["ah", "er"])
    ]
    else []
  }

  /** `stress_patterns.get(language, {}).get(word)`. */
  function StressPattern(language: string, word: string): Option<string> {
    if language != "en" then None
    else if word == "photograph" then Some("PHO-to-graph")
    else if word == "photography" then Some("pho-TOG-ra-phy")
    else if word == "photographer" then Some("pho-TOG-ra-pher")
    else None
  }

  /** `any(sub in heard for sub in substitutions)`. */
  predicate AnyContained(substitutions: seq<string>, heard: string)
    decreases |substitutions|
  {
    |substitutions| > 0 && (Contains(heard, substitutions[0]) || AnyContained(substitutions[1..], heard))
  }

  /** The reference word has the pattern's sound and the heard word one of its substitutes. */
  predicate Hits(pattern: SoundPattern, expected: string, heard: string) {
    Contains(expected, pattern.sound) && AnyContained(pattern.substitutions, heard)
  }

  /** The sound of the first pattern, in order, that the pair of words hits. */
  function FirstHit(patterns: seq<SoundPattern>, expected: string, heard: string): (hit: Option<string>)
    decreases |patterns|
  {
    if |patterns| == 0 then None
    else if Hits(patterns[0], expected, heard) then Some(patterns[0].sound)
    else FirstHit(patterns[1..], expected, heard)
  }

  /** `FirstHit` finds the earliest pattern hit, and finds nothing only when no pattern is hit. */
  lemma {:induction false} FirstHitIsFirst(patterns: seq<SoundPattern>, expected: string, heard: string)
    ensures FirstHit(patterns, expected, heard).None? <==>
      forall k :: 0 <= k < |patterns| ==> !Hits(patterns[k], expected, heard)
    ensures FirstHit(patterns, expected, heard).Some? ==>
      exists k :: 0 <= k < |patterns| && Hits(patterns[k], expected, heard) &&
        patterns[k].sound == FirstHit(patterns, expected, heard).value &&
        forall j :: 0 <= j < k ==> !Hits(patterns[j], expected, heard)
    decreases |patterns|
  {
    if |patterns| > 0 && !Hits(patterns[0], expected, heard) {
      var rest := patterns[1..];
      FirstHitIsFirst(rest, expected, heard);
      assert forall k :: 0 < k < |patterns| ==> patterns[k] == rest[k - 1];
      if FirstHit(rest, expected, heard).Some? {
        var k :| 0 <= k < |rest| && Hits(rest[k], expected, heard) &&
          rest[k].sound == FirstHit(rest, expected, heard).value &&
          forall j :: 0 <= j < k ==> !Hits(rest[j], expected, heard);
        assert patterns[k + 1] == rest[k];
        assert forall j :: 0 <= j < k + 1 ==> !Hits(patterns[j], expected, heard) by {
          forall j | 0 <= j < k + 1 ensures !Hits(patterns[j], expected, heard) {
            if j > 0 { assert patterns[j] == rest[j - 1]; }
          }
        }
      }
    }
  }

  // ---------------------------------------------------------------------
  // Classification, confidence and suggestion of one error
  // ---------------------------------------------------------------------

  /** `_classify_error_type` (its reference word is always present). */
  function ClassifyError(heard: Option<string>, expected: string, language: string): ErrorType {
    if heard.None? then Deletion
    else if FirstHit(PatternsFor(language), expected, heard.value).Some? then Substitution
    else
      var distance := Distance(heard.value, expected);
      if distance == 1 then Substitution
      else if distance > 1 then Errors
      else Substitution
  }

  /**
   * A missing word is a deletion; a word said differently is a
   * substitution when it hits a language pattern or is one edit away, and
   * `errors` otherwise.
   */
  lemma ClassifyErrorCases(heard: Option<string>, expected: string, language: string)
    ensures ClassifyError(heard, expected, language) == Deletion <==> heard.None?
    ensures ClassifyError(heard, expected, language) == Errors <==>
      heard.Some? && (forall k :: 0 <= k < |PatternsFor(language)| ==> !Hits(PatternsFor(language)[k], expected, heard.value)) &&
      Distance(heard.value, expected) > 1
    ensures heard.Some? && heard.value != expected ==>
      (ClassifyError(heard, expected, language) == Substitution <==>
        (exists k :: 0 <= k < |PatternsFor(language)| && Hits(PatternsFor(language)[k], expected, heard.value)) ||
        Distance(heard.value, expected) == 1)
    ensures ClassifyError(heard, expected, language) != ProcessingError
  {
    if heard.Some? {
      FirstHitIsFirst(PatternsFor(language), expected, heard.value);
      DistanceZeroIffEqual(heard.value, expected);
    }
  }

  /** `_calculate_error_confidence`. */
  function ErrorConfidence(heard: Option<string>, expected: string): real {
    if heard.None? then 0.9
    else
      var distance := Distance(heard.value, expected);
      var maxLen := MaxLen(heard.value, expected);
      if maxLen == 0 then 1.0
      else
        var similarity := 1.0 - distance as real / maxLen as real;
        RealMax(0.1, 1.0 - similarity)
  }

  /**
   * Confidence is 0.9 for a deletion and otherwise the share of the longer
   * word that must be edited, but at least 0.1; it always lies in [0.1, 1].
   */
  lemma ErrorConfidenceRange(heard: Option<string>, expected: string)
    ensures 0.1 <= ErrorConfidence(heard, expected) <= 1.0
    ensures heard.None? ==> ErrorConfidence(heard, expected) == 0.9
    ensures heard.Some? && MaxLen(heard.value, expected) > 0 ==>
      ErrorConfidence(heard, expected) ==
        RealMax(0.1, Distance(heard.value, expected) as real / MaxLen(heard.value, expected) as real)
  {
    if heard.Some? && MaxLen(heard.value, expected) > 0 {
      DistanceAtMostMaxLen(heard.value, expected);
      RatioConfidence(Distance(heard.value, expected), MaxLen(heard.value, expected));
    }
  }

  /** `max(0.1, 1 - (1 - d / m))` is `max(0.1, d / m)`, within [0.1, 1] when `d <= m`. */
  lemma RatioConfidence(d: nat, m: nat)
    requires 0 < m && d <= m
    ensures RealMax(0.1, 1.0 - (1.0 - d as real / m as real)) == RealMax(0.1, d as real / m as real)
    ensures 0.1 <= RealMax(0.1, d as real / m as real) <= 1.0
  {
    var q := d as real / m as real;
    assert q * m as real == d as real;
    if q > 1.0 {
      Reals.ProductPositive(q - 1.0, m as real);
    }
  }

  /** `_generate_suggestion`. */
  function Suggestion(expected: string, heard: Option<string>, language: string): string {
    if heard.None? then "Don't forget to pronounce '" + expected + "'"
    else
      var hit := FirstHit(PatternsFor(language), expected, heard.value);
      if hit.Some? then "Focus on the '" + hit.value + "' sound in '" + expected + "'"
      else
        var stress := StressPattern(language, expected);
        if stress.Some? then "Pay attention to stress: " + stress.value
        else "Practice saying '" + expected + "' slowly"
  }

  /** The sound a suggestion points at is that of the first pattern the pair of words hits. */
  lemma SuggestionFocus(expected: string, heard: string, language: string)
    requires exists k :: 0 <= k < |PatternsFor(language)| && Hits(PatternsFor(language)[k], expected, heard)
    ensures exists k :: (0 <= k < |PatternsFor(language)| && Hits(PatternsFor(language)[k], expected, heard) &&
      (forall j :: 0 <= j < k ==> !Hits(PatternsFor(language)[j], expected, heard)) &&
      Suggestion(expected, Some(heard), language) ==
        "Focus on the '" + PatternsFor(language)[k].sound + "' sound in '" + expected + "'")
  {
    FirstHitIsFirst(PatternsFor(language), expected, heard);
  }

  // ---------------------------------------------------------------------
  // Word lists
  // ---------------------------------------------------------------------

  /** `w.lower().strip('.,!?;:')`. */
  function Normalize(w: string): string {
    StripPunctuation(Lower(w))
  }

  /**
   * A normalised word has no capital, has no `.,!?;:` at either end, is
   * what is left of the lower-cased word after cutting only those marks
   * from its ends, keeps a word free of whitespace free of it, and is
   * already normal.
   */
  lemma NormalizeFacts(w: string)
    ensures NoUpperIn(Normalize(w))
    ensures Normalize(w) != [] ==> !IsPunctuation(Normalize(w)[0]) && !IsPunctuation(Normalize(w)[|Normalize(w)| - 1])
    ensures exists i, j :: StrippedSlice(Lower(w), IsPunctuation, i, j) && Normalize(w) == Lower(w)[i..j]
    ensures NoSpace(w) ==> NoSpace(Normalize(w))
    ensures Normalize(Normalize(w)) == Normalize(w)
  {
    var n := Normalize(w);
    NormalizeSlice(w);
    LowerNoUpper(n);
    StripWithKeeps(n, IsPunctuation);
  }

  /** The normalised word is a slice of the lower-cased one, so it inherits its absences. */
  lemma NormalizeSlice(w: string)
    ensures NoUpperIn(Normalize(w))
    ensures NoSpace(w) ==> NoSpace(Normalize(w))
  {
    var l := Lower(w);
    LowerFacts(w);
    assert NoUpperIn(l);
    StripWithKeepsNone(l, IsPunctuation, IsUpper);
    if NoSpace(w) {
      LowerNoSpace(w);
      StripWithKeepsNone(l, IsPunctuation, IsSpace);
      var n := Normalize(w);
      forall k | 0 <= k < |n| ensures !IsSpace(n[k]) {
        assert !IsSpace(n[k]);
      }
    }
  }

  predicate NoUpperIn(s: string) {
    NoneIn(s, IsUpper)
  }

  /** Every word normalised, in order; `NormalizeFacts` states what each one is. */
  function NormalizeAll(ws: seq<string>): (normalized: seq<string>)
    ensures |normalized| == |ws|
  {
    seq(|ws|, i requires 0 <= i < |ws| => Normalize(ws[i]))
  }

  /** What the word-extraction loop keeps of one timed-word entry. */
  function EntryWord(entry: Option<string>): seq<string> {
    if entry.None? || |entry.value| == 0 then []
    else
      var word := Normalize(entry.value);
      if |word| > 0 then [word] else []
  }

  /** The words kept from the timed-word entries, in order. */
  function EntryWords(entries: seq<Option<string>>): seq<string>
    decreases |entries|
  {
    if |entries| == 0 then []
    else EntryWords(entries[..|entries| - 1]) + EntryWord(entries[|entries| - 1])
  }

  /** Every word kept from the entries is non-empty. */
  lemma {:induction false} EntryWordsNonEmpty(entries: seq<Option<string>>)
    ensures forall k :: 0 <= k < |EntryWords(entries)| ==> |EntryWords(entries)[k]| > 0
    decreases |entries|
  {
    if |entries| > 0 {
      EntryWordsNonEmpty(entries[..|entries| - 1]);
    }
  }

  /** The transcript words: from the timed words when there are any, else from the text. */
  function TranscriptWords(data: TranscriptData): seq<string> {
    if |data.words| > 0 then EntryWords(data.words)
    else if |data.text| > 0 then NormalizeAll(Split(data.text))
    else []
  }

  /** The reference words, normalised. */
  function ReferenceWords(referenceText: string): seq<string> {
    NormalizeAll(Split(referenceText))
  }

  /** `for w in transcript_data['words']`: keep each entry's normalised, non-empty word. */
  method ExtractEntryWords(entries: seq<Option<string>>) returns (words: seq<string>)
    ensures words == EntryWords(entries)
  {
    words := [];
    for i := 0 to |entries|
      invariant words == EntryWords(entries[..i])
    {
      assert entries[..i + 1][..i] == entries[..i];
      var entry := entries[i];
      if entry.Some? && |entry.value| > 0 {
        var word := Normalize(entry.value);
        if |word| > 0 {
          words := words + [word];
        }
      }
    }
    assert entries[..|entries|] == entries;
  }

  // ---------------------------------------------------------------------
  // Errors from an alignment
  // ---------------------------------------------------------------------

  /** A pair that is reported: a reference word the transcript does not match. */
  predicate Mismatch(p: Pair) {
    p.reference.Some? && p.transcript != p.reference
  }

  /** The record reported for the mismatched pair at `position`. */
  function ErrorFor(p: Pair, position: nat, language: string): PronunciationError
    requires p.reference.Some?
  {
    var expected := p.reference.value;
    PronunciationError(
      expected, expected,
      if p.transcript.Some? then p.transcript.value else "[missing]",
      ErrorConfidence(p.transcript, expected),
      ClassifyError(p.transcript, expected, language),
      position,
      Suggestion(expected, p.transcript, language))
  }

  /** The errors reported for the first `n` pairs of an alignment. */
  function ErrorsUpTo(pairs: seq<Pair>, language: string, n: nat): seq<PronunciationError>
    requires n <= |pairs|
  {
    if n == 0 then []
    else
      var last := if Mismatch(pairs[n - 1]) then [ErrorFor(pairs[n - 1], n - 1, language)] else [];
      ErrorsUpTo(pairs, language, n - 1) + last
  }

  /** Number of mismatched pairs among the first `n`. */
  function MismatchCount(pairs: seq<Pair>, n: nat): nat
    requires n <= |pairs|
  {
    if n == 0 then 0 else MismatchCount(pairs, n - 1) + (if Mismatch(pairs[n - 1]) then 1 else 0)
  }

  /**
   * One error per mismatched pair and no other, in alignment order: each
   * error sits at the index of its pair, names that pair's reference word and
   * is the record built from that pair.
   */
  lemma {:induction false} ErrorsUpToFacts(pairs: seq<Pair>, language: string, n: nat)
    requires n <= |pairs|
    ensures |ErrorsUpTo(pairs, language, n)| == MismatchCount(pairs, n)
    ensures forall k :: 0 <= k < |ErrorsUpTo(pairs, language, n)| ==>
      var e := ErrorsUpTo(pairs, language, n)[k];
      e.position < n && Mismatch(pairs[e.position]) &&
      e == ErrorFor(pairs[e.position], e.position, language)
    ensures forall k, l :: 0 <= k < l < |ErrorsUpTo(pairs, language, n)| ==>
      ErrorsUpTo(pairs, language, n)[k].position < ErrorsUpTo(pairs, language, n)[l].position
  {
    if n > 0 {
      ErrorsUpToFacts(pairs, language, n - 1);
      var prev := ErrorsUpTo(pairs, language, n - 1);
      var all := ErrorsUpTo(pairs, language, n);
      assert forall k :: 0 <= k < |prev| ==> all[k] == prev[k];
      forall k, l | 0 <= k < l < |all| ensures all[k].position < all[l].position {
        if l >= |prev| {
          assert all[l].position == n - 1 && all[k] == prev[k];
        }
      }
    }
  }

  /** Every mismatched pair among the first `n` has its error. */
  lemma {:induction false} MismatchReported(pairs: seq<Pair>, language: string, n: nat, i: nat)
    requires i < n <= |pairs| && Mismatch(pairs[i])
    ensures ErrorFor(pairs[i], i, language) in ErrorsUpTo(pairs, language, n)
  {
    if i < n - 1 {
      MismatchReported(pairs, language, n - 1, i);
    }
  }

  /** The error loop of `_compare_pronunciation` over an alignment. */
  method ReportMismatches(pairs: seq<Pair>, language: string) returns (errors: seq<PronunciationError>)
    ensures errors == ErrorsUpTo(pairs, language, |pairs|)
  {
    errors := [];
    for i := 0 to |pairs|
      invariant errors == ErrorsUpTo(pairs, language, i)
    {
      var p := pairs[i];
      if p.transcript != p.reference && p.reference.Some? {
        errors := errors + [ErrorFor(p, i, language)];
      }
    }
  }

  /** A `deletion` for every reference word, when nothing was heard. */
  function AllMissing(referenceWords: seq<string>): (errors: seq<PronunciationError>)
    ensures |errors| == |referenceWords|
  {
    seq(|referenceWords|, i requires 0 <= i < |referenceWords| =>
      PronunciationError(referenceWords[i], referenceWords[i], "[missing]", 0.9, Deletion, i,
        "Make sure to pronounce '" + referenceWords[i] + "'"))
  }

  /** The loop that marks every reference word missing. */
  method ReportAllMissing(referenceWords: seq<string>) returns (errors: seq<PronunciationError>)
    ensures errors == AllMissing(referenceWords)
  {
    errors := [];
    for i := 0 to |referenceWords|
      invariant errors == AllMissing(referenceWords[..i])
    {
      var word := referenceWords[i];
      errors := errors + [PronunciationError(word, word, "[missing]", 0.9, Deletion, i,
        "Make sure to pronounce '" + word + "'")];
    }
    assert referenceWords[..|referenceWords|] == referenceWords;
  }

  // ---------------------------------------------------------------------
  // _compare_pronunciation
  // ---------------------------------------------------------------------

  /** The greedy alignment, or positional pairing when it leaves more than half the reference words missing. */
  function ChooseAlignment(transcriptWords: seq<string>, referenceWords: seq<string>): seq<Pair> {
    var pairs := AlignImproved(transcriptWords, referenceWords);
    if MissingCount(pairs) * 2 > |referenceWords| then SimpleAlignment(transcriptWords, referenceWords)
    else pairs
  }

  /** What `_compare_pronunciation` returns (`None` for a transcript that is no dictionary). */
  function CompareErrors(transcript: Option<TranscriptData>, referenceText: string, language: string): seq<PronunciationError> {
    if transcript.None? || |Strip(referenceText)| == 0 then []
    else
      var heard := TranscriptWords(transcript.value);
      var expected := ReferenceWords(referenceText);
      if |heard| == 0 then AllMissing(expected)
      else if |expected| == 0 then []
      else
        var pairs := ChooseAlignment(heard, expected);
        ErrorsUpTo(pairs, language, |pairs|)
  }

  /** The transcript words `_compare_pronunciation` extracts. */
  method ExtractTranscriptWords(data: TranscriptData) returns (heard: seq<string>)
    ensures heard == TranscriptWords(data)
  {
    if |data.words| > 0 {
      heard := ExtractEntryWords(data.words);
    } else if |data.text| > 0 {
      heard := NormalizeAll(Split(data.text));
    } else {
      heard := [];
    }
  }

  /** The greedy alignment, replaced by positional pairing when too many words are missing. */
  method AlignForComparison(heard: seq<string>, expected: seq<string>) returns (pairs: seq<Pair>)
    ensures pairs == ChooseAlignment(heard, expected)
  {
    pairs := AlignWordsImproved(heard, expected);
    if MissingCount(pairs) * 2 > |expected| {
      pairs := SimpleAlignment(heard, expected);
    }
  }

  /** `_compare_pronunciation`. */
  method ComparePronunciation(transcript: Option<TranscriptData>, referenceText: string, language: string)
    returns (errors: seq<PronunciationError>)
    ensures errors == CompareErrors(transcript, referenceText, language)
  {
    if transcript.None? || |Strip(referenceText)| == 0 {
      return [];
    }
    var heard := ExtractTranscriptWords(transcript.value);
    var expected := NormalizeAll(Split(referenceText));
    if |heard| == 0 {
      errors := ReportAllMissing(expected);
      return;
    }
    if |expected| == 0 {
      return [];
    }
    var pairs := AlignForComparison(heard, expected);
    errors := ReportMismatches(pairs, language);
  }

  /** Every reference word a pair holds appears among the reference side. */
  lemma {:induction false} ReferenceSideHolds(ps: seq<Pair>, i: nat)
    requires i < |ps| && ps[i].reference.Some?
    ensures ps[i].reference.value in ReferenceSide(ps)
    decreases |ps|
  {
    if i > 0 {
      ReferenceSideHolds(ps[1..], i - 1);
    }
  }

  lemma {:induction false} NonEmptyWordsFrom(ws: seq<string>, w: string)
    requires w in NonEmptyWords(ws)
    ensures w in ws
    decreases |ws|
  {
    if |ws| > 0 && !(|ws[0]| > 0 && w == ws[0]) {
      NonEmptyWordsFrom(ws[1..], w);
    }
  }

  /** The reference words both aligners hand back name only reference words. */
  lemma ChosenReferences(heard: seq<string>, expected: seq<string>, i: nat)
    requires |heard| > 0 && |expected| > 0
    requires i < |ChooseAlignment(heard, expected)| && ChooseAlignment(heard, expected)[i].reference.Some?
    ensures ChooseAlignment(heard, expected)[i].reference.value in expected
  {
    var pairs := ChooseAlignment(heard, expected);
    ReferenceSideHolds(pairs, i);
    if pairs == SimpleAlignment(heard, expected) {
      SimpleAlignmentProjections(heard, expected);
    } else {
      AlignImprovedProjections(heard, expected);
      NonEmptyWordsFrom(expected, pairs[i].reference.value);
    }
  }

  /**
   * Errors are only ever reported against reference words: each names a
   * normalised reference word, as both its word and its expected
   * pronunciation, and none is an insertion.
   */
  lemma CompareNamesReferenceWords(transcript: Option<TranscriptData>, referenceText: string, language: string)
    ensures forall e :: e in CompareErrors(transcript, referenceText, language) ==>
      e.word in ReferenceWords(referenceText) && e.expectedPronunciation == e.word &&
      0.1 <= e.confidence <= 1.0 && e.errorType != ProcessingError
  {
    if transcript.Some? && |Strip(referenceText)| > 0 {
      var heard := TranscriptWords(transcript.value);
      var expected := ReferenceWords(referenceText);
      if |heard| > 0 && |expected| > 0 {
        var pairs := ChooseAlignment(heard, expected);
        var errors := ErrorsUpTo(pairs, language, |pairs|);
        ErrorsUpToFacts(pairs, language, |pairs|);
        forall e | e in errors
          ensures e.word in expected && e.expectedPronunciation == e.word
          ensures 0.1 <= e.confidence <= 1.0 && e.errorType != ProcessingError
        {
          var k :| 0 <= k < |errors| && errors[k] == e;
          ChosenReferences(heard, expected, e.position);
          ErrorConfidenceRange(pairs[e.position].transcript, pairs[e.position].reference.value);
          ClassifyErrorCases(pairs[e.position].transcript, pairs[e.position].reference.value, language);
        }
      }
    }
  }

  /**
   * With nothing heard, every reference word is reported missing in order:
   * the i-th error is a `deletion` of the i-th reference word at position i.
   */
  lemma CompareNothingHeard(data: TranscriptData, referenceText: string, language: string)
    requires |Strip(referenceText)| > 0 && |TranscriptWords(data)| == 0
    ensures |CompareErrors(Some(data), referenceText, language)| == |ReferenceWords(referenceText)|
    ensures forall i :: 0 <= i < |ReferenceWords(referenceText)| ==>
      var e := CompareErrors(Some(data), referenceText, language)[i];
      e.word == ReferenceWords(referenceText)[i] && e.position == i &&
      e.actualPronunciation == "[missing]" && e.errorType == Deletion && e.confidence == 0.9
  {
    assert CompareErrors(Some(data), referenceText, language) == AllMissing(ReferenceWords(referenceText));
  }

  /**
   * With words on both sides, the errors are in alignment order, one for
   * each pair whose reference word the transcript does not match.
   */
  lemma CompareFollowsAlignment(data: TranscriptData, referenceText: string, language: string)
    requires |Strip(referenceText)| > 0
    requires |TranscriptWords(data)| > 0 && |ReferenceWords(referenceText)| > 0
    ensures var pairs := ChooseAlignment(TranscriptWords(data), ReferenceWords(referenceText));
      var errors := CompareErrors(Some(data), referenceText, language);
      |errors| == MismatchCount(pairs, |pairs|) &&
      (forall k :: 0 <= k < |errors| ==>
        errors[k].position < |pairs| && Mismatch(pairs[errors[k].position]) &&
        errors[k] == ErrorFor(pairs[errors[k].position], errors[k].position, language)) &&
      (forall k, l :: 0 <= k < l < |errors| ==> errors[k].position < errors[l].position) &&
      (forall i :: 0 <= i < |pairs| && Mismatch(pairs[i]) ==> ErrorFor(pairs[i], i, language) in errors)
  {
    var pairs := ChooseAlignment(TranscriptWords(data), ReferenceWords(referenceText));
    ErrorsUpToFacts(pairs, language, |pairs|);
    forall i | 0 <= i < |pairs| && Mismatch(pairs[i])
      ensures ErrorFor(pairs[i], i, language) in ErrorsUpTo(pairs, language, |pairs|)
    {
      MismatchReported(pairs, language, |pairs|, i);
    }
  }

  // ---------------------------------------------------------------------
  // analyze_pronunciation, after transcription
  // ---------------------------------------------------------------------

  /**
   * What the transcription step ended with: an exception, or a value.  The
   * value is `None` when the `not result or not isinstance(result, dict)`
   * guard rejects it, i.e. when it is no dictionary or is the empty
   * dictionary `{}`; `Some` holds a non-empty dictionary.
   */
  datatype TranscriptionOutcome = Raised | Returned(data: Option<TranscriptData>)

  /** Sum of the errors' confidences. */
  function WeightedErrors(errors: seq<PronunciationError>): real
    decreases |errors|
  {
    if |errors| == 0 then 0.0 else errors[0].confidence + WeightedErrors(errors[1..])
  }

  lemma {:induction false} WeightedErrorsNonNegative(errors: seq<PronunciationError>)
    requires forall e :: e in errors ==> e.confidence >= 0.0
    ensures WeightedErrors(errors) >= 0.0
    decreases |errors|
  {
    if |errors| > 0 {
      assert errors[0] in errors;
      assert forall e :: e in errors[1..] ==> e in errors;
      WeightedErrorsNonNegative(errors[1..]);
    }
  }

  /** A score outside [0, 100] is replaced by 50. */
  function InRangeOr50(score: real): real {
    if score < 0.0 || score > 100.0 then 50.0 else score
  }

  /** The analysis when the transcription is no dictionary: every reference word missing. */
  function TranscriptionFailed(referenceText: string): Analysis {
    var words := Split(referenceText);
    Analysis(0.0, 0.0, 50.0,
      seq(|words|, i requires 0 <= i < |words| =>
        PronunciationError(words[i], words[i], "[missing]", 0.9, Deletion, i,
          "Make sure to pronounce '" + words[i] + "'")),
      "[Transcription failed]", "[Not available]", |words|, |words|)
  }

  /** The catch-all analysis: every reference word (or `unknown`) a processing error. */
  function ProcessingFailed(referenceText: string): Analysis {
    var words := if |referenceText| > 0 then Split(referenceText) else ["unknown"];
    Analysis(0.0, 0.0, 0.0,
      seq(|words|, i requires 0 <= i < |words| =>
        PronunciationError(words[i], words[i], "[error]", 0.5, ProcessingError, i,
          "Unable to analyze '" + words[i] + "' due to processing error")),
      "[Analysis failed]", "[Not available]", |words|, |words|)
  }

  /** The analysis of a transcript dictionary. */
  function AnalyzeTranscript(data: TranscriptData, referenceText: string, language: string): Analysis {
    var errors := CompareErrors(Some(data), referenceText, language);
    var text := if |data.text| > 0 then data.text else "[No text]";
    var phonetic := PhoneticOf(text);
    Analysis(
      InRangeOr50(OverallScore(WeightedErrors(errors), referenceText)),
      InRangeOr50(AccuracyScore(|errors|, referenceText)),
      InRangeOr50(FluencyScore(Some(data))),
      errors,
      text,
      if |phonetic| > 0 then phonetic else "[Not available]",
      |Split(referenceText)|,
      |errors|)
  }

  /**
   * `analyze_pronunciation`: a missing audio file, a blank reference text or
   * a transcription that raised lead to the catch-all; a transcription that
   * is no dictionary to all words missing; anything else is analysed.
   */
  function AnalyzePronunciation(audioExists: bool, referenceText: string, language: string,
                                outcome: TranscriptionOutcome): Analysis
  {
    if !audioExists || |Strip(referenceText)| == 0 || outcome.Raised? then ProcessingFailed(referenceText)
    else if outcome.data.None? then TranscriptionFailed(referenceText)
    else AnalyzeTranscript(outcome.data.value, referenceText, language)
  }

  /**
   * The two fallbacks: 0/0/50 with one `deletion` per reference word when
   * the transcription is no dictionary, and 0/0/0 with one
   * `processing_error` per word otherwise.
   */
  lemma AnalyzeFallbacks(audioExists: bool, referenceText: string, language: string, outcome: TranscriptionOutcome)
    ensures var a := AnalyzePronunciation(audioExists, referenceText, language, outcome);
      (!audioExists || |Strip(referenceText)| == 0 || outcome.Raised?) ==>
        a.overallScore == 0.0 && a.accuracyScore == 0.0 && a.fluencyScore == 0.0 &&
        (forall e :: e in a.errors ==> e.errorType == ProcessingError && e.actualPronunciation == "[error]") &&
        a.wordsAnalyzed == |a.errors| == a.totalErrors
    ensures var a := AnalyzePronunciation(audioExists, referenceText, language, outcome);
      (audioExists && |Strip(referenceText)| > 0 && outcome == Returned(None)) ==>
        a.overallScore == 0.0 && a.accuracyScore == 0.0 && a.fluencyScore == 50.0 &&
        |a.errors| == |Split(referenceText)| == a.wordsAnalyzed == a.totalErrors &&
        forall i :: 0 <= i < |a.errors| ==>
          a.errors[i].word == Split(referenceText)[i] && a.errors[i].position == i &&
          a.errors[i].errorType == Deletion && a.errors[i].actualPronunciation == "[missing]"
  {
    if !audioExists || |Strip(referenceText)| == 0 || outcome.Raised? {
      ProcessingFailedFacts(referenceText);
    } else if outcome == Returned(None) {
      TranscriptionFailedFacts(referenceText);
    }
  }

  /** The catch-all analysis scores 0/0/0 and reports only processing errors. */
  lemma ProcessingFailedFacts(referenceText: string)
    ensures var a := ProcessingFailed(referenceText);
      a.overallScore == 0.0 && a.accuracyScore == 0.0 && a.fluencyScore == 0.0 &&
      (forall e :: e in a.errors ==> e.errorType == ProcessingError && e.actualPronunciation == "[error]") &&
      a.wordsAnalyzed == |a.errors| == a.totalErrors
  {
    var a := ProcessingFailed(referenceText);
    forall e | e in a.errors ensures e.errorType == ProcessingError && e.actualPronunciation == "[error]" {
      var i :| 0 <= i < |a.errors| && a.errors[i] == e;
    }
  }

  /** The failed-transcription analysis scores 0/0/50 and misses every reference word at its own position. */
  lemma TranscriptionFailedFacts(referenceText: string)
    ensures var a := TranscriptionFailed(referenceText);
      a.overallScore == 0.0 && a.accuracyScore == 0.0 && a.fluencyScore == 50.0 &&
      |a.errors| == |Split(referenceText)| == a.wordsAnalyzed == a.totalErrors &&
      forall i :: 0 <= i < |a.errors| ==>
        a.errors[i].word == Split(referenceText)[i] && a.errors[i].position == i &&
        a.errors[i].errorType == Deletion && a.errors[i].actualPronunciation == "[missing]"
  {
  }

  /**
   * An analysed transcript: every score lies in [0, 100], so the guards
   * replacing out-of-range scores by 50 never apply; the scores are those of
   * the reported errors; the counts are the reference words and the errors.
   */
  lemma AnalyzeTranscriptScores(data: TranscriptData, referenceText: string, language: string)
    ensures var a := AnalyzeTranscript(data, referenceText, language);
      var errors := CompareErrors(Some(data), referenceText, language);
      a.errors == errors &&
      a.overallScore == OverallScore(WeightedErrors(errors), referenceText) &&
      a.accuracyScore == AccuracyScore(|errors|, referenceText) &&
      a.fluencyScore == FluencyScore(Some(data)) &&
      0.0 <= a.overallScore <= 100.0 && 0.0 <= a.accuracyScore <= 100.0 &&
      0.0 <= a.fluencyScore <= 100.0 &&
      a.phoneticTranscript == PhoneticOf(a.transcript) &&
      a.wordsAnalyzed == |Split(referenceText)| && a.totalErrors == |errors|
  {
    var errors := CompareErrors(Some(data), referenceText, language);
    CompareNamesReferenceWords(Some(data), referenceText, language);
    WeightedErrorsNonNegative(errors);
    OverallInRange(WeightedErrors(errors), referenceText);
    AccuracyInRange(|errors|, referenceText);
    FluencyRange(Some(data));
    PhoneticNeverEmpty(if |data.text| > 0 then data.text else "[No text]");
  }
}
