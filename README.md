# PronunAnalyzer backend — a Dafny model

PronunAnalyzer is a speech-practice service: it transcribes uploaded recordings, scores
how a recording of a reference sentence was pronounced, speaks text back, and answers grammar
questions from an indexed document store. This project models the deterministic logic of its
Python backend and proves properties of that model. The covered files are:

- `backend/pronunciation_analyzer.py`: the pronunciation analyser, i.e. the word alignments, the
  error classification, the scores and the phonetic transcript;
- `backend/app.py`: upload validation, chunked transcription with progress reports, the two job
  tables and their background tasks, the status and delete endpoints, speech preparation, the
  health report and the WAV conversion shortcut;
- `backend/rag_handler.py`: the grammar chatbot endpoint, i.e. retrieval, reranking, prompt
  building and the response;
- `backend/load_chroma.py`: the indexer's file discovery, document loading and entry point.

The Dafny modules follow the same split:

- `Wrappers`: Option and Result.
- `Text`: the whitespace split, strip, lower-casing, replace and join of Python strings.
- `EditDistance`: Levenshtein distance.
- `Reals`, `Scoring`: the scores.
- `Transcripts`: the transcript record, built only from a non-empty transcription dictionary (the empty dictionary `{}` is falsy and is rejected with the non-dictionaries).
- `Phonetic`: the grapheme rewrite.
- `Alignment`: the three word aligners and word similarity.
- `Analyzer`: errors and the analysis.
- `Paths`: `os.path.splitext` and `os.path.join`.
- `Uploads`: the endpoint decision tables.
- `Chunking`: `process_audio_file`.
- `Jobs`: the job tables as a class with two `map` fields.
- `Rag`: the chatbot endpoint.
- `Indexer`: the indexer.

Parameters stand in for everything the program hands to libraries it does not own:

- Whisper's output for one chunk;
- audio loading and ffmpeg conversion;
- `glob`;
- the document loaders;
- the reranker's reply;
- the vector store's result;
- `json.dumps`;
- the language model.

These parameters are arrow-typed values or plain inputs, so every property holds whatever
they return.

Loops that build a result step by step (the word extraction, the LCS table fill on an `array2`,
the greedy alignment, the error reports, the chunk loop, the file loaders) are methods with `while`
loops, each proved against a specification function. Two small scans are functions instead: the
positional pairing of `_simple_word_alignment`, and the first-match scans over `patterns.items()`.

The 50 % "too many missing words" test of `_compare_pronunciation` is `missing_count > len *
0.5`. Both counts are integers, so the model states it exactly as `2 * missing > len`. The
0.7 similarity threshold is stated on integers as `10 * d <= 3 * m`. `WordsSimilarIsRatioTest`
proves that this is the source's ratio test on exact reals.

One point where the documented API and the code differ: the documented example response shows
the expected pronunciation of an error as a phonetic string. The code stores the reference
word itself (`pronunciation_analyzer.py:470-490`). The model follows the code, and
`CompareNamesReferenceWords` proves `expectedPronunciation == word` for every error.

One behaviour of the code that the model reproduces: `process_audio_file` is a generator, and
its final `return 100, final_transcript` is not seen by the `for` loop that consumes it. A job
therefore keeps the last yielded transcript, and "[No speech detected]" never reaches a job
(`Jobs.TranscriptionTaskOutcome`).

## Model

| member | source | states |
|---|---|---|
| Text.Split | backend/pronunciation_analyzer.py:415 | every word of `str.split()` is non-empty and holds no whitespace |
| Text.SplitSingle | backend/pronunciation_analyzer.py:415 | a non-empty text without whitespace splits into itself alone |
| Text.SplitAtSpace | backend/pronunciation_analyzer.py:415 | a whitespace character separates: the words of `a + [c] + b` are those of `a` followed by those of `b`. With `SplitSingle` and the empty text this fixes `split()` on every text |
| Text.SplitEmptyIffBlank | backend/pronunciation_analyzer.py:415 | `split()` gives no words exactly when the text is all whitespace |
| Text.StripWith | backend/app.py:644 | stripping gives the slice of the input left after cutting only dropped characters from both ends, and its first and last characters are not dropped |
| Text.StripWithKeeps | backend/app.py:644 | a text whose ends are not dropped is left unchanged |
| Text.StripEmptyIffBlank | backend/app.py:640-641 | `strip()` is empty exactly when the text is all whitespace, so the `not text.strip()` guards are blank-text tests |
| Text.LowerFacts | backend/pronunciation_analyzer.py:802 | lower-casing leaves no ASCII capital, moves each capital to its small letter, keeps every other character, and is idempotent |
| Text.ReplaceAllNoChar | backend/app.py:713 | after `replace(pat, rep)` a character that `rep` lacks is gone when `pat` is exactly that character or the input never had it |
| Text.JoinAppend | backend/rag_handler.py:112 | joining one more word adds the separator and the word at the end |
| Text.NatToString | backend/rag_handler.py:101 | the snippet number is a non-empty run of decimal digits that denotes the number, with no leading zero except for zero itself |
| EditDistance.DistanceAtMostMaxLen | backend/pronunciation_analyzer.py:614-621 | the edit distance of two words is at most the longer word's length |
| EditDistance.DistanceAtLeastLengthGap | backend/pronunciation_analyzer.py:614-621 | the edit distance is at least the difference of the two lengths |
| EditDistance.DistanceZeroIffEqual | backend/pronunciation_analyzer.py:614-621 | distance 0 exactly for equal words |
| EditDistance.DistanceSymmetric | backend/pronunciation_analyzer.py:614-621 | the distance does not depend on the order of the words |
| Scoring.RoundHalfEven | backend/pronunciation_analyzer.py:706 | Python's `round` lands within one half of its argument |
| Scoring.Round1Bounds | backend/pronunciation_analyzer.py:716 | rounding to one decimal keeps a value between two integer bounds |
| Scoring.Round1OfTenths | backend/pronunciation_analyzer.py:779 | a value that already has one decimal is unchanged by `round(x, 1)` |
| Scoring.ShareBounds | backend/pronunciation_analyzer.py:700-716 | the error-free share of the reference words lies in [0, 1]: 1 with no errors, 0 once the errors reach the word count |
| Scoring.AccuracyInRange | backend/pronunciation_analyzer.py:708-716 | accuracy lies in [0, 100], is 100 with no errors or no reference words, and is 0 once every word is wrong |
| Scoring.OverallInRange | backend/pronunciation_analyzer.py:693-706 | the overall score lies in [0, 100] and is 100 with no weighted errors or no reference words |
| Scoring.AccuracyMonotone | backend/pronunciation_analyzer.py:708-716 | more errors never raise accuracy |
| Scoring.Round1Monotone | backend/pronunciation_analyzer.py:716 | rounding to one decimal preserves order |
| Scoring.WordCountScore | backend/pronunciation_analyzer.py:735-743 | the word-count factor lies between 60 and 95 |
| Scoring.CompletenessScore | backend/pronunciation_analyzer.py:745-753 | the completeness factor lies between 70 and 95 |
| Scoring.DistributionScore | backend/pronunciation_analyzer.py:755-763 | the average-word-length factor lies between 70 and 90 |
| Scoring.WeightedFactors | backend/pronunciation_analyzer.py:765-779 | the 0.4/0.4/0.2 weighting is exactly (4a + 4b + 2c)/10, so the clamp to [30, 100] and the rounding never act, and it lies in [66, 94] |
| Scoring.FluencyRange | backend/pronunciation_analyzer.py:718-779 | fluency is 50 without words, and otherwise (4a + 4b + 2c)/10 of the three factors, in [66, 94] |
| Phonetic.PhoneticTranscript | backend/pronunciation_analyzer.py:785-805 | the rewrite loop gives the specified phonetic transcript, i.e. "[Invalid text]" for empty text, else the lower-cased text with the six rules applied in order |
| Phonetic.NoDigraphSurvives | backend/pronunciation_analyzer.py:792-805 | none of the six graphemes (th, sh, ch, ng, ph, gh) is left in a phonetic transcript |
| Phonetic.PhoneticNeverEmpty | backend/pronunciation_analyzer.py:785-805 | the phonetic transcript is never empty |
| Alignment.LcsAtMostLengths | backend/pronunciation_analyzer.py:503-508 | an LCS table entry never exceeds either prefix length |
| Alignment.FillLcsTable | backend/pronunciation_analyzer.py:496-508 | the filled table holds, for every pair of prefixes, the value of the source's dp recurrence (match: diagonal plus one, else the larger neighbour) |
| Alignment.FillLcsRow | backend/pronunciation_analyzer.py:503-508 | one row of the table is filled and the other rows are untouched |
| Alignment.AlignWords | backend/pronunciation_analyzer.py:496-535 | the LCS alignment lists all transcript words and all reference words in order, and matches only equal words. Its match count is the LCS length |
| Alignment.Backtrack | backend/pronunciation_analyzer.py:514-533 | the backtrack, reversed, is a valid alignment path from the full prefix pair down to the empty one |
| Alignment.BacktrackMove | backend/pronunciation_analyzer.py:516-529 | one backtrack move follows the table (match, or the larger neighbour) and shrinks the remaining prefixes |
| Alignment.CollectLeftovers | backend/pronunciation_analyzer.py:514-533 | the moves after one side is used up pair the other side's remaining words with nothing |
| Alignment.SimilarityThreshold | backend/pronunciation_analyzer.py:619-623 | the ratio test `1 - d/m >= 0.7` is equivalent to `10 d <= 3 m` |
| Alignment.WordsSimilarIsRatioTest | backend/pronunciation_analyzer.py:610-623 | two words are similar exactly when both are non-empty and one minus the distance over the longer length is at least 0.7 |
| Alignment.WordSimilarToItself | backend/pronunciation_analyzer.py:610-623 | a non-empty word is similar to itself |
| Alignment.WordsSimilarSymmetric | backend/pronunciation_analyzer.py:610-623 | similarity does not depend on word order |
| Alignment.LengthGapNotSimilar | backend/pronunciation_analyzer.py:610-623 | words whose lengths differ by more than 30 % of the first cannot be similar |
| Alignment.Step | backend/pronunciation_analyzer.py:553-596 | one greedy turn advances at least one cursor by one, and emits exactly the non-empty words it moves past, each pair with a side |
| Alignment.AlignWordsImproved | backend/pronunciation_analyzer.py:537-608 | the greedy aligner's loop computes the specified greedy alignment |
| Alignment.ImprovedTurn | backend/pronunciation_analyzer.py:555-596 | one iteration of the greedy loop (exact match, similar match, lookahead insertion or deletion, substitution) is the specified turn |
| Alignment.AppendLeftovers | backend/pronunciation_analyzer.py:598-606 | the trailing loops append the remaining transcript words as insertions, then the remaining reference words as deletions |
| Alignment.ImprovedFromSides | backend/pronunciation_analyzer.py:553-606 | from any cursor pair, the greedy alignment lists exactly the non-empty remaining transcript words and reference words, in order |
| Alignment.AlignImprovedProjections | backend/pronunciation_analyzer.py:537-608 | the greedy alignment keeps every non-empty word of both sides in order (all of the other side when one side is empty), and every pair has a side |
| Alignment.SimpleAlignmentProjections | backend/pronunciation_analyzer.py:625-635 | positional pairing has the longer length and keeps both word lists exactly |
| Analyzer.FirstHitIsFirst | backend/pronunciation_analyzer.py:646-649 | the pattern scan reports the first language pattern that fits the two words, or none when none fits |
| Analyzer.ClassifyErrorCases | backend/pronunciation_analyzer.py:637-658 | a missing word is a deletion. A differing word is a substitution when a pattern fits or the distance is 1, and "errors" otherwise |
| Analyzer.ErrorConfidenceRange | backend/pronunciation_analyzer.py:660-672 | confidence is 0.9 for a missing word, and otherwise max(0.1, distance over the longer length) |
| Analyzer.RatioConfidence | backend/pronunciation_analyzer.py:671-672 | `max(0.1, 1 - similarity)` equals `max(0.1, d/m)` and lies in [0.1, 1] |
| Analyzer.SuggestionFocus | backend/pronunciation_analyzer.py:679-684 | when a pattern fits, the suggestion names the sound of the first pattern that fits |
| Analyzer.NormalizeFacts | backend/pronunciation_analyzer.py:408 | a normalised word has no ASCII capital and no `.,!?;:` at either end, is the slice of the lower-cased word left after cutting only those marks, stays free of whitespace, and normalising it again changes nothing |
| Analyzer.EntryWordsNonEmpty | backend/pronunciation_analyzer.py:402-413 | the words extracted from the transcript entries are all non-empty |
| Analyzer.ExtractEntryWords | backend/pronunciation_analyzer.py:402-413 | the extraction loop keeps each entry that has a word, normalised, in order |
| Analyzer.ErrorsUpToFacts | backend/pronunciation_analyzer.py:458-492 | the error loop reports one error per mismatched pair, in increasing position, each built from its own pair |
| Analyzer.MismatchReported | backend/pronunciation_analyzer.py:458-492 | every mismatched pair is reported |
| Analyzer.ReportMismatches | backend/pronunciation_analyzer.py:458-492 | the error loop computes the specified error list |
| Analyzer.AllMissing | backend/pronunciation_analyzer.py:421-435 | one error per reference word when nothing was heard |
| Analyzer.ReportAllMissing | backend/pronunciation_analyzer.py:421-435 | the nothing-heard loop computes the specified all-missing list |
| Analyzer.ExtractTranscriptWords | backend/pronunciation_analyzer.py:402-413 | the word list is read from the entries when the `words` list is non-empty (even if no entry yields a word), and otherwise from the split text |
| Analyzer.AlignForComparison | backend/pronunciation_analyzer.py:443-454 | the greedy alignment is used unless over half the reference words come out missing, and then positional pairing |
| Analyzer.ComparePronunciation | backend/pronunciation_analyzer.py:389-494 | the comparison computes the specified error list |
| Analyzer.ChosenReferences | backend/pronunciation_analyzer.py:443-454 | every reference side of the chosen alignment is a reference word |
| Analyzer.CompareNamesReferenceWords | backend/pronunciation_analyzer.py:389-494 | every reported error names a reference word as its word and expected pronunciation, has confidence in [0.1, 1], and is not a processing error |
| Analyzer.CompareNothingHeard | backend/pronunciation_analyzer.py:421-435 | with nothing heard, every reference word is reported in order as a deletion at its own position, "[missing]", confidence 0.9 |
| Analyzer.CompareFollowsAlignment | backend/pronunciation_analyzer.py:443-492 | otherwise the errors are exactly the mismatches of the chosen alignment, in position order, and every mismatch is reported |
| Analyzer.WeightedErrorsNonNegative | backend/pronunciation_analyzer.py:703 | the confidence-weighted error total is never negative |
| Analyzer.AnalyzeFallbacks | backend/pronunciation_analyzer.py:86-231 | a missing file, a blank reference or a raising transcription gives the catch-all analysis: scores 0/0/0 and only processing errors, "[error]". A transcription that is no dictionary, or is the falsy empty dictionary `{}` (both encoded as `Returned(None)`), gives scores 0/0/50 and one deletion, "[missing]", per reference word at its own position |
| Analyzer.AnalyzeTranscriptScores | backend/pronunciation_analyzer.py:142-206 | a successful analysis carries the comparison's errors, the three scores computed from them (each in [0, 100]), the phonetic transcript of its text, and the word and error counts |
| Paths.LastIndexOf | backend/app.py:388-390 | the index is the last occurrence of the character, or -1 when there is none |
| Paths.SplitExtensionShape | backend/app.py:389 | `splitext`'s extension is empty or a dot-led suffix of the path with no further dot or slash |
| Paths.SplitExtensionOf | backend/app.py:389 | a named stem plus `.x` has extension `.x` |
| Paths.NoDotNoExtension | backend/app.py:389 | a last path component without a dot has no extension |
| Paths.PathJoin | backend/app.py:441-443 | an absolute last part replaces the first; otherwise the joined path is the first part, one `/` exactly when the first part is non-empty and lacks a trailing one, then the last part |
| Paths.PathJoinBasename | backend/app.py:441-443 | joining a directory with a file name that has no `/` keeps that name as the last component and its extension as the path's |
| Uploads.ContentTypeRule | backend/app.py:397-402 | a content type is accepted exactly when it is empty, starts with `audio/` or is `application/octet-stream` |
| Uploads.InferExtension | backend/app.py:419-433 | an extension inferred from the content type is always one of the allowed extensions |
| Uploads.CheckUploadDecision | backend/app.py:376-416 | an upload passes exactly when its extension (if named) and its content type (if given) are allowed. Every refusal is a 400, and a bad extension is reported before the content type |
| Uploads.CheckUploadExtension | backend/app.py:419-433 | a passing upload gets an allowed extension, except when neither filename nor content type was given |
| Uploads.UnnamedExtensionRefused | backend/app.py:388-394 | a filename without an extension is refused with the extension error |
| Uploads.JobFilename | backend/app.py:455-461 | the recorded filename is the upload's own when it has one and is never empty |
| Uploads.UploadPath | backend/app.py:441-443 | the saved path ends with the chosen extension |
| Uploads.PronunciationUploadOrder | backend/app.py:493-567 | without the analyser the answer is 503 before any other check. The file checks come next, then the reference text, which is refused exactly when blank |
| Uploads.HealthStatusCases | backend/app.py:791-807 | healthy when both services are up, unhealthy when both are down, partial when exactly one is up |
| Uploads.PrepareSpeechFacts | backend/app.py:640-675 | blank text is a 400. Otherwise the text is stripped, a single word gets a full stop, and the language is kept when supported and otherwise becomes English |
| Uploads.ShortTextServedAsMp3 | backend/app.py:709-715 | texts of at most two words are served as MP3 |
| Uploads.SpeechFormatChoice | backend/app.py:709-752 | the answer is WAV with a `.wav` name exactly when the text has more than two words and the conversion succeeded; otherwise it is the MP3 with its `.mp3` name, also when the conversion failed |
| Uploads.DownloadNameClean | backend/app.py:709-753 | the download name is `pronunciation_` plus the text with spaces turned to underscores and dots removed, then the suffix |
| Uploads.LowerKeepsWav | backend/app.py:862 | a `.wav` path is still `.wav` after lower-casing |
| Uploads.WavUploadNotConverted | backend/app.py:859-864 | a saved `.wav` upload is passed through without conversion |
| Chunking.ChunksPartition | backend/app.py:228-232 | the 30-second chunks concatenate back to the waveform: all are non-empty and at most a chunk long, and all but the last are full |
| Chunking.Clean | backend/app.py:248-251 | a chunk has a cleaned transcript exactly when Whisper produced one |
| Chunking.TranscribeChunks | backend/app.py:232-266 | the chunk loop produces the specified yields and final transcript |
| Chunking.RunChunks | backend/app.py:237-262 | the loop's kept transcripts and yields after all chunks are those of the step function applied chunk by chunk |
| Chunking.ChunkTurn | backend/app.py:238-262 | one chunk's turn keeps its non-empty transcript and yields the progress and the joined text |
| Chunking.ProcessAudioFile | backend/app.py:139-270 | `process_audio_file` gives the specified outcome for the loaded audio |
| Chunking.FloorDivBounds | backend/app.py:253 | the integer progress is the floor of the quotient |
| Chunking.PercentBounds | backend/app.py:253 | progress never decreases along the chunks, is at most 100, and is 100 at the last chunk |
| Chunking.YieldsCount | backend/app.py:239-262 | one yield per chunk that produced a transcript |
| Chunking.YieldsProgress | backend/app.py:237-262 | the yielded progress values never decrease and stay within 100 |
| Chunking.YieldsTranscripts | backend/app.py:237-262 | each yielded transcript is a prefix of the next one and of the final text |
| Chunking.LastYieldComplete | backend/app.py:237-262 | when the last chunk produced a transcript, the last yield is 100 % with the whole text |
| Chunking.KeptGrows | backend/app.py:250-254 | the joined transcript only grows from chunk to chunk |
| Chunking.ShortAudioThreshold | backend/app.py:221-225 | under 0.1 seconds at 16 kHz is exactly fewer than 1600 samples |
| Chunking.ChunkRunFacts | backend/app.py:228-266 | for any non-empty audio, the run's yields are counted, ordered by progress and prefix-ordered, end at 100 % when the last chunk was heard, and the final transcript is the joined text |
| Chunking.AudioOutcomeCases | backend/app.py:139-226 | a load failure is passed on; an empty waveform gets the empty-audio error, a single sample the `len()` error of a 0-d tensor, and audio under 1600 samples the too-short error; otherwise the chunks partition the waveform and the chunk loop runs over them |
| Jobs.TranscriptionUploadQueued | backend/app.py:364-466 | `POST /transcribe` queues a job exactly when the file checks pass and the save succeeds. A 500 means the checks passed and the save failed, and every refusal is a 400 or a 500 |
| Jobs.PronunciationUploadQueued | backend/app.py:483-599 | `POST /analyze-pronunciation` queues a job exactly when the analyser is loaded, the file checks pass, the reference is not blank and the save succeeds; without the analyser it is a 503 |
| Jobs.AudioOutcomeBounded | backend/app.py:253-257 | every progress value a successful run reports lies in [0, 100] |
| Jobs.TranscriptionTaskValid | backend/app.py:272-306 | the background transcription keeps a job valid, ends completed or failed, and keeps its filename |
| Jobs.TranscriptionTaskOutcome | backend/app.py:276-298 | when the first run and the conversion fail, the job fails with the conversion's error. When the first run fails and the conversion succeeds, the run on the converted file settles the job: failed with that run's error, or completed with that run's last yield. When the first succeeds, the job completes: at 100 % with the joined text when the last chunk was heard, and with at most an empty transcript when no chunk had text. The generator's returned "[No speech detected]" never reaches the job |
| Jobs.WavRetryRepeatsFailure | backend/app.py:284-298 | for a `.wav` upload, the retry reloads the same file, so the job fails with the first error |
| Jobs.PronunciationTaskValid | backend/app.py:308-350 | the background analysis keeps a job valid, completed with its analysis, with its filename and reference text unchanged |
| Jobs.TranscriptionTableUpdate | backend/app.py:276-298 | writing a valid job keeps every job in the table valid |
| Jobs.PronunciationTableUpdate | backend/app.py:312-349 | writing a valid job keeps every job in the table valid |
| Jobs.JobTables.constructor | backend/app.py:73-74 | both job tables start empty |
| Jobs.JobTables.UploadAndTranscribe | backend/app.py:364-466 | the response is the upload decision; exactly an accepted upload adds a queued job under the new id, and the other table is untouched |
| Jobs.JobTables.AdmitTranscription | backend/app.py:445-466 | an accepted, saved upload is recorded as a queued job at progress 0 |
| Jobs.JobTables.UploadAndAnalyze | backend/app.py:483-599 | the response is the pronunciation upload decision; exactly an accepted upload adds a queued job recording the reference text |
| Jobs.JobTables.AdmitPronunciation | backend/app.py:572-599 | an accepted, saved upload is recorded as a queued pronunciation job at progress 0 |
| Jobs.JobTables.TranscriptionStatus | backend/app.py:468-481 | 404 exactly for an unknown id, else the stored status, progress, transcript and error |
| Jobs.JobTables.PronunciationStatus | backend/app.py:601-614 | 404 exactly for an unknown id, else the stored status, progress, analysis and error |
| Jobs.JobTables.DeleteJob | backend/app.py:616-630 | the id leaves both tables. The answer is 404 exactly when it was in neither, else the deleted message |
| Jobs.JobTables.WriteYields | backend/app.py:280-283 | the consumer loop leaves the last yield's progress and transcript on the job |
| Jobs.JobTables.Finish | backend/app.py:294-298 | only the job's status, and for a failure its error, change |
| Jobs.JobTables.TranscribeBackground | backend/app.py:272-306 | the job becomes the specified task outcome, an unknown id changes nothing, the other table is untouched and the tables stay valid |
| Jobs.JobTables.SettleJob | backend/app.py:280-298 | a successful run writes its yields and completes the job, and a failure marks the job failed with the error |
| Jobs.JobTables.RunWithRetry | backend/app.py:279-292 | the first attempt, or after its failure the attempt on the converted file, as specified |
| Jobs.JobTables.AnalyzeBackground | backend/app.py:308-361 | the job becomes completed with the specified analysis, an unknown id changes nothing, and the tables stay valid |
| Jobs.JobTables.StoreAnalysis | backend/app.py:312-349 | the job passes through processing at 50 % and ends completed at 100 % with the analysis |
| Rag.Pick | backend/rag_handler.py:81 | the picked documents are documents of the retrieval and are no more than the ranks |
| Rag.PickInRange | backend/rag_handler.py:79-81 | with every rank in range, the picked list is the documents in rank order |
| Rag.PickAppend | backend/rag_handler.py:81 | picking concatenated rank lists concatenates the picks, so the rank order is kept |
| Rag.InRange | backend/rag_handler.py:81 | the `i < len(docs)` filter keeps exactly the in-range ranks and no others |
| Rag.PickFilters | backend/rag_handler.py:81 | the picked list is `docs[i]` for each in-range rank, in rank order; out-of-range ranks are dropped |
| Rag.PickIdentity | backend/rag_handler.py:72-93 | ranking every document in place keeps the retrieval order |
| Rag.PresentMembers | backend/rag_handler.py:84-88 | an index is collected exactly when some result entry carries it |
| Rag.CollectIndices | backend/rag_handler.py:84-88 | the result loop collects the entries' indices in order |
| Rag.RerankDocs | backend/rag_handler.py:72-93 | the reranked list is the specified rerank of the documents and the reply |
| Rag.RerankFacts | backend/rag_handler.py:72-93 | reranking only reorders or drops retrieved documents; a non-empty rank list, or else a non-empty list of result indices, gives `docs[i]` for each in-range index in order; a reranker that is not configured or raised, or a reply with no indices, keeps the retrieval order |
| Rag.BuildSnippets | backend/rag_handler.py:96-104 | the context loop builds the specified snippets |
| Rag.SnippetsShape | backend/rag_handler.py:96-104 | there are `top_k` snippets, and snippet i opens with `Source i+1:` and its document. A metadata line is present exactly when the document has metadata |
| Rag.JoinContains | backend/rag_handler.py:112 | every snippet occurs in the joined context |
| Rag.PromptCarriesSnippets | backend/rag_handler.py:111-113 | the user prompt opens with the question, ends with the answer cue and contains every snippet |
| Rag.Sources | backend/rag_handler.py:152 | the response's sources are the first `top_k` reranked documents cut to 800 characters |
| Rag.ChatbotQuery | backend/rag_handler.py:41-153 | the endpoint computes the specified answer |
| Rag.BlankQueryRejectedFirst | backend/rag_handler.py:46-48 | a missing or blank query is a 400 whatever the store, the reranker and the model do |
| Rag.MissingKeyNoModelCall | backend/rag_handler.py:118-121 | without the model key the answer is the 500 key error, whatever the model would do |
| Rag.AnswerFacts | backend/rag_handler.py:96-153 | an answer came from the model's reply to the built prompt, with at most `max_results` truncated sources |
| Indexer.MatchesMembers | backend/load_chroma.py:24-26 | a path is matched exactly when some pattern's glob under the source directory returns it |
| Indexer.Dedupe | backend/load_chroma.py:28 | deduplication keeps exactly the same paths, each once |
| Indexer.SortDistinct | backend/load_chroma.py:28 | sorting distinct paths gives a strictly increasing list of the same paths |
| Indexer.FindFiles | backend/load_chroma.py:21-28 | the discovery loop gives the specified file list |
| Indexer.FoundFilesFacts | backend/load_chroma.py:21-28 | the found files are strictly sorted and are exactly the paths some pattern matches |
| Indexer.FoundFilesEmpty | backend/load_chroma.py:21-28 | no files are found exactly when nothing matched |
| Indexer.KindOf | backend/load_chroma.py:41-67 | the PDF loader exactly for `.pdf`, the text loader exactly for `.md` and `.txt` (any case) |
| Indexer.TagDocuments | backend/load_chroma.py:47-67 | PDF pages get their source and page number, and other documents get their source |
| Indexer.LoadDocuments | backend/load_chroma.py:31-72 | the loading loop gives the specified documents |
| Indexer.PdfPagesTagged | backend/load_chroma.py:43-52 | every page is kept. A page with text gets the source and its 1-based page number alongside its other metadata, and a blank page is left untouched |
| Indexer.OtherFilesTagged | backend/load_chroma.py:53-67 | every loaded document is kept with its source recorded |
| Indexer.FailedFileSkipped | backend/load_chroma.py:69-70 | a file that fails to load contributes nothing and the others are unaffected |
| Indexer.RunIndexer | backend/load_chroma.py:102-124 | the entry point gives the specified run outcome |
| Indexer.IndexRunCases | backend/load_chroma.py:113-124 | it stops with no files exactly when no default glob matches, and persists only a non-empty set of loaded documents |

## Left out

- Paths: only POSIX separators (`posixpath`); Windows paths (`ntpath`) are not modelled.
- Floating point: the scores, the similarity ratio and the confidences are exact reals, and `round(x, 1)` is round-half-even on exact reals. Binary rounding of floats is not modelled.
- Chunking.FloorDivBounds: progress `int((idx+1)/n*100)` is the exact floor of `(idx+1)*100/n`. The float quotient can come out one lower (28 instead of 29 for 29/100, since `29/100*100` is `28.999999999999996` in floating point).
- Text.LowerFacts: only ASCII letters are lowered. Unicode case mapping is not modelled. Whitespace is the full set Python's `str.split()` and `str.strip()` use.
- Audio loading: resampling, mono conversion and the analyser's audio repair and loading fallbacks (`_load_audio_robust` and the helpers after it in `pronunciation_analyzer.py`) are inside the `load` parameter, which gives the mono samples at 16 kHz. Of the `squeeze()` that follows, the model keeps its one visible effect: a single sample becomes a 0-d tensor, and `len()` of it raises `TypeError` with torch's text "len() of a 0-d tensor".
- Whisper: what a chunk transcribes to, and `_get_detailed_transcription`, are parameters (the transcription outcome). Word timestamps are not modelled.
- I/O: file writes, removal of temporary files in `finally`, `ffmpeg`, `glob` and the loaders are parameters or are left out.
- Concurrency: `asyncio` and interleaved background tasks are left out. The job tables are updated one task at a time.
- Jobs.JobTables.StoreAnalysis: the three writes after the analysis are merged into one update.
- Speech synthesis: gTTS, the thread pool and its 503/500 error paths are left out. Only the request preparation, the format choice and the file name are modelled.
- Jobs.PronunciationTask: its failure path is left out. The analyser catches every exception and returns a fallback analysis, so that path, and the conversion retry before it, are not reached.
- Rag.ChatbotAnswer: `max_results` is a natural number. Negative or non-integer values and Python's negative list indices are not modelled.
- Rag.ChatbotAnswer: a non-dictionary store result and a non-string query are not modelled.
- `json.dumps` of the metadata is a parameter.
- `get_chroma_client` and collection creation are left out, because they are library calls.
- `chunk_and_persist` is left out, because splitting, embedding and persisting are library calls.
- The `load_model` start-up, CORS, the root, mobile-test and connection-info endpoints and the Pydantic request models are left out.
