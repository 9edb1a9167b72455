/**
 * `process_audio_file`: a 16 kHz mono waveform is cut into 30-second
 * chunks, each chunk is transcribed on its own, and after every chunk that
 * was transcribed the generator yields its progress in per cent and the
 * transcript so far.
 *
 * Loading, resampling and mono conversion are one parameter (`loaded`: the
 * samples, or the loader's error message); Whisper's transcription of one
 * chunk is another (`transcribe`: its text, or `None` when it raised).
 */
module Chunking {
  import opened Wrappers
  import opened Text

  const SampleRate: nat := 16000
  const ChunkSize: nat := 30 * SampleRate

  /** Fewer samples than this last under 0.1 seconds. */
  const MinSamples: nat := SampleRate / 10

  /**
   * The `TypeError` text `len()` raises on a 0-d tensor: `squeeze()` turns
   * a waveform of a single sample into one, before its length is taken.
   */
  const ZeroDimLenError: string := "len() of a 0-d tensor"

  // ---------------------------------------------------------------------
  // Chunks
  // ---------------------------------------------------------------------

  function Min(a: int, b: int): int {
    if a <= b then a else b
  }

  /** `[w[i:i+CHUNK_SIZE] for i in range(0, len(w), CHUNK_SIZE)]`. */
  function Chunks(w: seq<real>): seq<seq<real>>
    decreases |w|
  {
    if |w| == 0 then [] else [w[..Min(ChunkSize, |w|)]] + Chunks(w[Min(ChunkSize, |w|)..])
  }

  function Flatten(chunks: seq<seq<real>>): seq<real>
    decreases |chunks|
  {
    if |chunks| == 0 then [] else chunks[0] + Flatten(chunks[1..])
  }

  /**
   * The chunks partition the waveform in order: together they are the
   * waveform, none is empty or longer than 30 seconds, and only the last
   * may be shorter; there are as many as 30-second periods started.
   */
  lemma {:induction false} ChunksPartition(w: seq<real>)
    ensures Flatten(Chunks(w)) == w
    ensures forall k :: 0 <= k < |Chunks(w)| ==> 0 < |Chunks(w)[k]| <= ChunkSize
    ensures forall k :: 0 <= k < |Chunks(w)| - 1 ==> |Chunks(w)[k]| == ChunkSize
    ensures (|Chunks(w)| - 1) * ChunkSize < |w| <= |Chunks(w)| * ChunkSize
    decreases |w|
  {
    if |w| > 0 {
      var m := Min(ChunkSize, |w|);
      var rest := w[m..];
      ChunksPartition(rest);
      var cs := Chunks(w);
      assert cs[1..] == Chunks(rest);
      assert w == w[..m] + rest;
      forall k | 1 <= k < |cs| ensures cs[k] == Chunks(rest)[k - 1] {
      }
      if |rest| == 0 {
        assert Chunks(rest) == [];
      }
    }
  }

  // ---------------------------------------------------------------------
  // What the chunk loop yields
  // ---------------------------------------------------------------------

  /** One yield: the progress in per cent and the transcript so far. */
  datatype Progress = Progress(percent: nat, transcript: string)

  /** Everything the generator produces: its yields and the transcript it returns. */
  datatype ChunkRun = ChunkRun(steps: seq<Progress>, finalTranscript: string)

  /** `a // n`, by repeated subtraction. */
  function FloorDiv(a: nat, n: nat): nat
    requires n > 0
    decreases a
  {
    if a < n then 0 else 1 + FloorDiv(a - n, n)
  }

  /** `int((idx + 1) / len(chunks) * 100)`, taken as the integer floor of the exact quotient. */
  function Percent(idx: nat, n: nat): nat
    requires idx < n
  {
    FloorDiv((idx + 1) * 100, n)
  }

  /** The transcription outcome of every chunk, in order. */
  function Texts(chunks: seq<seq<real>>, transcribe: seq<real> -> Option<string>): (texts: seq<Option<string>>)
    ensures |texts| == |chunks|
  {
    seq(|chunks|, k requires 0 <= k < |chunks| => transcribe(chunks[k]))
  }

  /** A chunk's text stripped, `None` when its transcription raised. */
  function Clean(text: Option<string>): (cleaned: Option<string>)
    ensures cleaned.Some? == text.Some?
  {
    if text.Some? then Some(Strip(text.value)) else None
  }

  /** Each chunk's text stripped, `None` for a chunk whose transcription raised. */
  function Cleaned(texts: seq<Option<string>>): (cleaned: seq<Option<string>>)
    ensures |cleaned| == |texts|
    ensures forall k :: 0 <= k < |texts| ==> cleaned[k].Some? == texts[k].Some?
  {
    seq(|texts|, k requires 0 <= k < |texts| => Clean(texts[k]))
  }

  /** `full_transcript` after the first `k` chunks: their stripped texts that are not empty. */
  function Kept(cleaned: seq<Option<string>>, k: nat): seq<string>
    requires k <= |cleaned|
  {
    if k == 0 then []
    else
      var t := cleaned[k - 1];
      Kept(cleaned, k - 1) + (if t.Some? && |t.value| > 0 then [t.value] else [])
  }

  /** The transcript so far, `" ".join(full_transcript)`. */
  function Current(kept: seq<string>): string {
    if |kept| > 0 then Join(kept, " ") else ""
  }

  /** The yields after the first `k` chunks: one per chunk that was transcribed. */
  function YieldsUpTo(cleaned: seq<Option<string>>, k: nat): seq<Progress>
    requires k <= |cleaned|
  {
    if k == 0 then []
    else
      var earlier := YieldsUpTo(cleaned, k - 1);
      if cleaned[k - 1].Some? then earlier + [Progress(Percent(k - 1, |cleaned|), Current(Kept(cleaned, k)))]
      else earlier
  }

  /** What the generator returns after its last yield. */
  function FinalTranscript(kept: seq<string>): string {
    if |kept| > 0 then Join(kept, " ") else "[No speech detected]"
  }

  /** The outcome of running the chunk loop over `chunks`. */
  function ChunkLoop(chunks: seq<seq<real>>, transcribe: seq<real> -> Option<string>): ChunkRun {
    var cleaned := Cleaned(Texts(chunks, transcribe));
    ChunkRun(YieldsUpTo(cleaned, |cleaned|), FinalTranscript(Kept(cleaned, |cleaned|)))
  }

  /**
   * `process_audio_file` given the loaded samples: the checks on the
   * waveform (empty, a single sample whose squeezed tensor has no length,
   * under 0.1 seconds), then the chunk loop.
   */
  function AudioOutcome(loaded: Result<seq<real>, string>, transcribe: seq<real> -> Option<string>): Result<ChunkRun, string> {
    match loaded
    case Failure(e) => Failure(e)
    case Success(w) =>
      if |w| == 0 then Failure("Audio file appears to be empty or corrupted")
      else if |w| == 1 then Failure(ZeroDimLenError)
      else if |w| < MinSamples then Failure("Audio file is too short (less than 0.1 seconds)")
      else Success(ChunkLoop(Chunks(w), transcribe))
  }

  /** `full_transcript` and the yields so far, as the chunk loop carries them from one chunk to the next. */
  datatype LoopState = LoopState(kept: seq<string>, steps: seq<Progress>)

  /** What chunk `idx` of `n`, whose cleaned text is `c`, does to the loop state. */
  function Turn(s: LoopState, c: Option<string>, idx: nat, n: nat): LoopState
    requires idx < n
  {
    if c.None? then s
    else
      var kept := if |c.value| > 0 then s.kept + [c.value] else s.kept;
      LoopState(kept, s.steps + [Progress(Percent(idx, n), Current(kept))])
  }

  /** The loop state after the first `k` chunks. */
  function LoopUpTo(cleaned: seq<Option<string>>, k: nat): LoopState
    requires k <= |cleaned|
  {
    if k == 0 then LoopState([], []) else Turn(LoopUpTo(cleaned, k - 1), cleaned[k - 1], k - 1, |cleaned|)
  }

  /** Turn by turn, the loop state holds `Kept` and `YieldsUpTo`. */
  lemma {:induction false} LoopUpToParts(cleaned: seq<Option<string>>, k: nat)
    requires k <= |cleaned|
    ensures LoopUpTo(cleaned, k) == LoopState(Kept(cleaned, k), YieldsUpTo(cleaned, k))
    decreases k
  {
    if k > 0 {
      LoopUpToParts(cleaned, k - 1);
      KeptStep(cleaned, k);
      var s := LoopUpTo(cleaned, k - 1);
      var c := cleaned[k - 1];
      if c.Some? {
        var kept := if |c.value| > 0 then s.kept + [c.value] else s.kept;
        assert Kept(cleaned, k) == kept;
        assert YieldsUpTo(cleaned, k) == s.steps + [Progress(Percent(k - 1, |cleaned|), Current(kept))];
      }
    }
  }

  lemma KeptStep(cleaned: seq<Option<string>>, k: nat)
    requires 0 < k <= |cleaned|
    ensures var c := cleaned[k - 1];
      Kept(cleaned, k) == if c.Some? && |c.value| > 0 then Kept(cleaned, k - 1) + [c.value] else Kept(cleaned, k - 1)
  {
    assert Kept(cleaned, k - 1) + [] == Kept(cleaned, k - 1);
  }

  /** The chunk loop of `process_audio_file`. */
  method TranscribeChunks(chunks: seq<seq<real>>, transcribe: seq<real> -> Option<string>) returns (run: ChunkRun)
    ensures run == ChunkLoop(chunks, transcribe)
  {
    ghost var cleaned := Cleaned(Texts(chunks, transcribe));
    var fullTranscript, steps := RunChunks(cleaned, chunks, transcribe);
    LoopUpToParts(cleaned, |cleaned|);
    run := ChunkRun(steps, FinalTranscript(fullTranscript));
  }

  /** The loop itself, against the cleaned outcome of every chunk. */
  method RunChunks(ghost cleaned: seq<Option<string>>, chunks: seq<seq<real>>, transcribe: seq<real> -> Option<string>)
    returns (fullTranscript: seq<string>, steps: seq<Progress>)
    requires |cleaned| == |chunks|
    requires forall idx :: 0 <= idx < |chunks| ==> cleaned[idx] == Clean(transcribe(chunks[idx]))
    ensures LoopState(fullTranscript, steps) == LoopUpTo(cleaned, |cleaned|)
  {
    fullTranscript := [];
    steps := [];
    for idx := 0 to |chunks|
      invariant LoopState(fullTranscript, steps) == LoopUpTo(cleaned, idx)
    {
      var transcript := transcribe(chunks[idx]);
      fullTranscript, steps := ChunkTurn(cleaned[idx], |chunks|, idx, transcript, fullTranscript, steps);
    }
  }

  /** The body of the chunk loop for chunk `idx`, whose transcription came back as `transcript`. */
  method ChunkTurn(ghost c: Option<string>, n: nat, idx: nat, transcript: Option<string>,
                   fullTranscript: seq<string>, steps: seq<Progress>)
    returns (fullTranscript': seq<string>, steps': seq<Progress>)
    requires idx < n && c == Clean(transcript)
    ensures LoopState(fullTranscript', steps') == Turn(LoopState(fullTranscript, steps), c, idx, n)
  {
    fullTranscript', steps' := fullTranscript, steps;
    if transcript.Some? {
      var stripped := Strip(transcript.value);
      if |stripped| > 0 {
        fullTranscript' := fullTranscript' + [stripped];
      }
      var progress := FloorDiv((idx + 1) * 100, n);
      steps' := steps' + [Progress(progress, Current(fullTranscript'))];
    }
  }

  /** `process_audio_file`, from the loader's result on. */
  method ProcessAudioFile(loaded: Result<seq<real>, string>, transcribe: seq<real> -> Option<string>)
    returns (r: Result<ChunkRun, string>)
    ensures r == AudioOutcome(loaded, transcribe)
  {
    if loaded.Failure? {
      return Failure(loaded.error);
    }
    var waveform := loaded.value;
    if |waveform| == 0 {
      return Failure("Audio file appears to be empty or corrupted");
    }
    if |waveform| == 1 {
      return Failure(ZeroDimLenError);
    }
    if |waveform| < MinSamples {
      return Failure("Audio file is too short (less than 0.1 seconds)");
    }
    var chunks := Chunks(waveform);
    var run := TranscribeChunks(chunks, transcribe);
    r := Success(run);
  }

  // ---------------------------------------------------------------------
  // Properties of the yields
  // ---------------------------------------------------------------------

  /** `FloorDiv(a, n)` is the floor of `a / n`. */
  lemma {:induction false} FloorDivBounds(a: nat, n: nat)
    requires n > 0
    ensures FloorDiv(a, n) * n <= a < (FloorDiv(a, n) + 1) * n
    decreases a
  {
    if a >= n {
      FloorDivBounds(a - n, n);
      var q := FloorDiv(a - n, n);
      assert (q + 1) * n == q * n + n;
      assert (q + 2) * n == (q + 1) * n + n;
    }
  }

  lemma {:induction false} FloorDivMonotone(a: nat, b: nat, n: nat)
    requires a <= b && n > 0
    ensures FloorDiv(a, n) <= FloorDiv(b, n)
    decreases a
  {
    if a >= n {
      FloorDivMonotone(a - n, b - n, n);
    }
  }

  lemma {:induction false} FloorDivMultiple(q: nat, n: nat)
    requires n > 0
    ensures FloorDiv(q * n, n) == q
    decreases q
  {
    if q > 0 {
      assert q * n == (q - 1) * n + n;
      FloorDivMultiple(q - 1, n);
    }
  }

  /** Progress never goes down along the chunks and reaches exactly 100 at the last one. */
  lemma PercentBounds(i: nat, j: nat, n: nat)
    requires i <= j < n
    ensures Percent(i, n) <= Percent(j, n) <= 100
    ensures Percent(n - 1, n) == 100
  {
    FloorDivMonotone((i + 1) * 100, (j + 1) * 100, n);
    FloorDivMonotone((j + 1) * 100, 100 * n, n);
    FloorDivMultiple(100, n);
  }

  /** The number of chunks among the first `k` that were transcribed. */
  function Transcribed(cleaned: seq<Option<string>>, k: nat): nat
    requires k <= |cleaned|
  {
    if k == 0 then 0 else Transcribed(cleaned, k - 1) + (if cleaned[k - 1].Some? then 1 else 0)
  }

  /** A chunk that failed yields nothing and every other yields once. */
  lemma {:induction false} YieldsCount(cleaned: seq<Option<string>>, k: nat)
    requires k <= |cleaned|
    ensures |YieldsUpTo(cleaned, k)| == Transcribed(cleaned, k)
    decreases k
  {
    if k > 0 {
      YieldsCount(cleaned, k - 1);
    }
  }

  /** The percentages of `ys` never go down and none exceeds `bound`. */
  predicate ProgressSorted(ys: seq<Progress>, bound: nat) {
    (forall i :: 0 <= i < |ys| ==> ys[i].percent <= bound) &&
    (forall i, j :: 0 <= i < j < |ys| ==> ys[i].percent <= ys[j].percent)
  }

  lemma ProgressSortedExtend(ys: seq<Progress>, b1: nat, b2: nat, y: Progress)
    requires ProgressSorted(ys, b1) && b1 <= b2
    ensures ProgressSorted(ys, b2)
    ensures y.percent == b2 ==> ProgressSorted(ys + [y], b2)
  {
  }

  /** Progress is non-decreasing and never above the last chunk's progress, so at most 100. */
  lemma {:induction false} YieldsProgress(cleaned: seq<Option<string>>, k: nat)
    requires 0 < k <= |cleaned|
    ensures ProgressSorted(YieldsUpTo(cleaned, k), Percent(k - 1, |cleaned|))
    ensures Percent(k - 1, |cleaned|) <= 100
    decreases k
  {
    var n := |cleaned|;
    PercentBounds(k - 1, k - 1, n);
    var ys := YieldsUpTo(cleaned, k);
    var y := Progress(Percent(k - 1, n), Current(Kept(cleaned, k)));
    YieldsStep(cleaned, k);
    if k == 1 {
      assert YieldsUpTo(cleaned, 0) == [];
    } else {
      YieldsProgress(cleaned, k - 1);
      PercentBounds(k - 2, k - 1, n);
      var earlier := YieldsUpTo(cleaned, k - 1);
      ProgressSortedExtend(earlier, Percent(k - 2, n), Percent(k - 1, n), y);
    }
  }

  /** Every transcript of `ys` is a prefix of the later ones and of `last`. */
  predicate PrefixChain(ys: seq<Progress>, last: string) {
    (forall i :: 0 <= i < |ys| ==> IsPrefix(ys[i].transcript, last)) &&
    (forall i, j :: 0 <= i < j < |ys| ==> IsPrefix(ys[i].transcript, ys[j].transcript))
  }

  lemma PrefixChainExtend(ys: seq<Progress>, c1: string, c2: string, y: Progress)
    requires PrefixChain(ys, c1) && IsPrefix(c1, c2)
    ensures PrefixChain(ys, c2)
    ensures y.transcript == c2 ==> PrefixChain(ys + [y], c2)
  {
    forall i | 0 <= i < |ys| ensures IsPrefix(ys[i].transcript, c2) {
      PrefixTransitive(ys[i].transcript, c1, c2);
    }
    if y.transcript == c2 {
      var zs := ys + [y];
      forall i, j | 0 <= i < j < |zs| ensures IsPrefix(zs[i].transcript, zs[j].transcript) {
        if j < |ys| {
          assert zs[i] == ys[i] && zs[j] == ys[j];
        } else {
          assert zs[i] == ys[i] && zs[j] == y;
        }
      }
    }
  }

  /** A chain that is kept as it is or extended by a step carrying the new, longer transcript. */
  lemma PrefixChainStep(ys: seq<Progress>, earlier: seq<Progress>, c1: string, c2: string, y: Progress)
    requires PrefixChain(earlier, c1) && IsPrefix(c1, c2) && y.transcript == c2
    requires ys == earlier || ys == earlier + [y]
    ensures PrefixChain(ys, c2)
  {
    PrefixChainExtend(earlier, c1, c2, y);
  }

  /** The yields after one more chunk: the same, or one more carrying the transcript so far. */
  lemma YieldsStep(cleaned: seq<Option<string>>, k: nat)
    requires 0 < k <= |cleaned|
    ensures var earlier := YieldsUpTo(cleaned, k - 1);
      var y := Progress(Percent(k - 1, |cleaned|), Current(Kept(cleaned, k)));
      YieldsUpTo(cleaned, k) == earlier || YieldsUpTo(cleaned, k) == earlier + [y]
  {
  }

  /** Every yielded transcript extends the ones yielded before it. */
  lemma {:induction false} YieldsTranscripts(cleaned: seq<Option<string>>, k: nat)
    requires k <= |cleaned|
    ensures PrefixChain(YieldsUpTo(cleaned, k), Current(Kept(cleaned, k)))
    decreases k
  {
    if k > 0 {
      var earlier := YieldsUpTo(cleaned, k - 1);
      var c1 := Current(Kept(cleaned, k - 1));
      var c2 := Current(Kept(cleaned, k));
      var y := Progress(Percent(k - 1, |cleaned|), c2);
      YieldsTranscripts(cleaned, k - 1);
      KeptGrows(cleaned, k - 1);
      YieldsStep(cleaned, k);
      PrefixChainStep(YieldsUpTo(cleaned, k), earlier, c1, c2, y);
    }
  }

  /** When the last chunk was transcribed, the last yield reports 100 per cent and the whole transcript. */
  lemma LastYieldComplete(cleaned: seq<Option<string>>)
    requires |cleaned| > 0 && cleaned[|cleaned| - 1].Some?
    ensures var ys := YieldsUpTo(cleaned, |cleaned|);
      |ys| > 0 && ys[|ys| - 1] == Progress(100, Current(Kept(cleaned, |cleaned|)))
  {
    PercentBounds(|cleaned| - 1, |cleaned| - 1, |cleaned|);
  }

  predicate IsPrefix(a: string, b: string) {
    |a| <= |b| && b[..|a|] == a
  }

  lemma PrefixTransitive(a: string, b: string, c: string)
    requires IsPrefix(a, b) && IsPrefix(b, c)
    ensures IsPrefix(a, c)
  {
    assert c[..|a|] == c[..|b|][..|a|];
  }

  /** One more chunk only adds to the transcript so far. */
  lemma KeptGrows(cleaned: seq<Option<string>>, k: nat)
    requires k < |cleaned|
    ensures IsPrefix(Current(Kept(cleaned, k)), Current(Kept(cleaned, k + 1)))
  {
    var before := Kept(cleaned, k);
    var after := Kept(cleaned, k + 1);
    var t := cleaned[k];
    if t.Some? && |t.value| > 0 {
      var x := t.value;
      assert after == before + [x];
      if |before| > 0 {
        JoinAppend(before, x, " ");
        var j := Join(before, " ");
        assert Current(after) == j + " " + x;
        assert Current(after)[..|j|] == j;
      }
    } else {
      assert after == before + [];
      assert after == before;
    }
  }

  // ---------------------------------------------------------------------
  // One whole run
  // ---------------------------------------------------------------------

  /** `duration < 0.1` with `duration = len(waveform) / 16000` is the sample-count test. */
  lemma ShortAudioThreshold(samples: nat)
    ensures (samples as real / SampleRate as real < 0.1) <==> samples < MinSamples
  {
    var d := samples as real / 16000.0;
    assert d * 16000.0 == samples as real;
  }

  /**
   * A run of the chunk loop: one yield per chunk that was transcribed,
   * progress non-decreasing up to at most 100 and exactly 100 when the last
   * chunk was transcribed, every transcript extending the earlier ones and
   * all of them prefixes of the final transcript when any text was heard.
   */
  lemma ChunkRunFacts(chunks: seq<seq<real>>, transcribe: seq<real> -> Option<string>)
    requires |chunks| > 0
    ensures var cleaned := Cleaned(Texts(chunks, transcribe));
      var run := ChunkLoop(chunks, transcribe);
      |run.steps| == Transcribed(cleaned, |chunks|) &&
      ProgressSorted(run.steps, 100) &&
      PrefixChain(run.steps, Current(Kept(cleaned, |chunks|))) &&
      (transcribe(chunks[|chunks| - 1]).Some? ==>
        run.steps[|run.steps| - 1] == Progress(100, Current(Kept(cleaned, |chunks|)))) &&
      (|Kept(cleaned, |chunks|)| > 0 ==> run.finalTranscript == Current(Kept(cleaned, |chunks|)))
  {
    var cleaned := Cleaned(Texts(chunks, transcribe));
    var n := |chunks|;
    YieldsCount(cleaned, n);
    YieldsProgress(cleaned, n);
    ProgressSortedExtend(YieldsUpTo(cleaned, n), Percent(n - 1, n), 100, Progress(0, ""));
    YieldsTranscripts(cleaned, n);
    if transcribe(chunks[n - 1]).Some? {
      assert cleaned[n - 1].Some?;
      LastYieldComplete(cleaned);
    }
  }

  /**
   * `process_audio_file` fails with the loader's error, for an empty
   * waveform, with the `len()` error for a single sample, or for a
   * waveform under 0.1 seconds; otherwise it runs the chunk loop over
   * chunks that partition the waveform.
   */
  lemma AudioOutcomeCases(loaded: Result<seq<real>, string>, transcribe: seq<real> -> Option<string>)
    ensures loaded.Failure? ==> AudioOutcome(loaded, transcribe) == Failure(loaded.error)
    ensures loaded.Success? ==>
      (AudioOutcome(loaded, transcribe).Success? <==> |loaded.value| >= MinSamples)
    ensures loaded.Success? && |loaded.value| == 0 ==>
      AudioOutcome(loaded, transcribe) == Failure("Audio file appears to be empty or corrupted")
    ensures loaded.Success? && |loaded.value| == 1 ==> AudioOutcome(loaded, transcribe) == Failure(ZeroDimLenError)
    ensures loaded.Success? && 1 < |loaded.value| < MinSamples ==>
      AudioOutcome(loaded, transcribe) == Failure("Audio file is too short (less than 0.1 seconds)")
    ensures AudioOutcome(loaded, transcribe).Success? ==>
      var chunks := Chunks(loaded.value);
      |chunks| > 0 && Flatten(chunks) == loaded.value &&
      AudioOutcome(loaded, transcribe).value == ChunkLoop(chunks, transcribe)
  {
    if loaded.Success? {
      ChunksPartition(loaded.value);
    }
  }
}
