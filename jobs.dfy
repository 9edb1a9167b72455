/**
 * The speech API's two job tables and everything that writes to them: the
 * two upload endpoints create queued jobs, the two background tasks move a
 * job through `processing` to `completed` or `failed`, the status
 * endpoints read a job back and `delete_job` removes one.
 *
 * The tables are modelled sequentially: a background task runs to its end
 * in one call.  Job ids, the outcome of saving the upload, the audio loader,
 * the converter to WAV and the per-chunk transcription are parameters.
 */
module Jobs {
  import opened Wrappers
  import opened Text
  import opened Paths
  import opened Uploads
  import opened Chunking
  import opened Transcripts
  import opened Analyzer

  datatype JobStatus = Queued | Processing | Completed | Failed

  /** An entry of `transcription_jobs`. */
  datatype TranscriptionJob = TranscriptionJob(
    status: JobStatus,
    progress: nat,
    transcript: Option<string>,
    error: Option<string>,
    filename: string)

  /** An entry of `pronunciation_jobs`. */
  datatype PronunciationJob = PronunciationJob(
    status: JobStatus,
    progress: nat,
    analysis: Option<Analysis>,
    error: Option<string>,
    filename: string,
    referenceText: string)

  /** The body of `GET /status/{job_id}`. */
  datatype TranscriptionStatusView = TranscriptionStatusView(
    jobId: string, status: JobStatus, progress: nat, transcript: Option<string>, error: Option<string>)

  /** The body of `GET /pronunciation-status/{job_id}`. */
  datatype PronunciationStatusView = PronunciationStatusView(
    jobId: string, status: JobStatus, progress: nat, analysis: Option<Analysis>, error: Option<string>)

  const JobNotFound := HttpError(404, "Job not found")

  function SaveFailed(reason: string): HttpError {
    HttpError(500, "Failed to save file: " + reason)
  }

  /** The response of an upload endpoint: the first refusal of the checks, a failed save, or the new job's id. */
  function UploadResponse(checked: Result<string, HttpError>, saveError: Option<string>, jobId: string): Result<string, HttpError> {
    if checked.Failure? then Failure(checked.error)
    else if saveError.Some? then Failure(SaveFailed(saveError.value))
    else Success(jobId)
  }

  /**
   * A transcription upload gets its job id back exactly when its filename
   * and content type pass the checks and the file was saved; a refusal is a
   * 400 and a failed save a 500.
   */
  lemma TranscriptionUploadQueued(filename: string, contentType: string, saveError: Option<string>, jobId: string)
    ensures var r := UploadResponse(CheckUpload(filename, contentType), saveError, jobId);
      (r == Success(jobId) <==>
        (|filename| == 0 || Lower(SplitExtension(filename)) in AllowedExtensions) &&
        (|contentType| == 0 || StartsWith(contentType, "audio/") || contentType == "application/octet-stream") &&
        saveError.None?) &&
      (r.Failure? ==> (r.error.status == 500 <==> CheckUpload(filename, contentType).Success?)) &&
      (r.Failure? ==> r.error.status == 400 || r.error.status == 500)
  {
    CheckUploadDecision(filename, contentType);
  }

  /**
   * A pronunciation upload gets its job id back exactly when the analyser
   * is loaded, the file passes the transcription upload's checks, the
   * reference text is not blank and the file was saved.
   */
  lemma PronunciationUploadQueued(analyzerLoaded: bool, filename: string, contentType: string, referenceText: string,
                                  saveError: Option<string>, jobId: string)
    ensures var r := UploadResponse(CheckPronunciationUpload(analyzerLoaded, filename, contentType, referenceText),
                                    saveError, jobId);
      (r == Success(jobId) <==>
        analyzerLoaded && CheckUpload(filename, contentType).Success? && !AllSpace(referenceText) && saveError.None?) &&
      (!analyzerLoaded ==> r.Failure? && r.error.status == 503)
  {
    PronunciationUploadOrder(analyzerLoaded, filename, contentType, referenceText);
    if analyzerLoaded && CheckUpload(filename, contentType).Success? && AllSpace(referenceText) {
      assert CheckPronunciationUpload(analyzerLoaded, filename, contentType, referenceText) == Failure(EmptyReference);
    }
  }

  /** A job as the transcription upload creates it. */
  function NewTranscriptionJob(filename: string, extension: string): TranscriptionJob {
    TranscriptionJob(Queued, 0, None, None, JobFilename(filename, extension))
  }

  /** A job as the pronunciation upload creates it. */
  function NewPronunciationJob(filename: string, extension: string, referenceText: string): PronunciationJob {
    PronunciationJob(Queued, 0, None, None, JobFilename(filename, extension), referenceText)
  }

  // ---------------------------------------------------------------------
  // What a background task does to its job
  // ---------------------------------------------------------------------

  /** The job after the consumer loop wrote each yield's progress and transcript over it. */
  function AfterYields(job: TranscriptionJob, steps: seq<Progress>): TranscriptionJob {
    if |steps| == 0 then job
    else job.(progress := steps[|steps| - 1].percent, transcript := Some(steps[|steps| - 1].transcript))
  }

  /**
   * The audio run of `transcribe_audio_background`: process the stored
   * file; if that raises, convert it to WAV and process the result.  The
   * error is the last one raised.
   */
  function RetriedOutcome(filePath: string,
                          load: string -> Result<seq<real>, string>,
                          converter: string -> Result<string, string>,
                          transcribe: seq<real> -> Option<string>): Result<ChunkRun, string>
  {
    match AudioOutcome(load(filePath), transcribe)
    case Success(run) => Success(run)
    case Failure(_) =>
      match ConvertToWav(filePath, converter)
      case Failure(e) => Failure(e)
      case Success(converted) => AudioOutcome(load(converted), transcribe)
  }

  /** A processing job settled by its run: completed after the run's yields, or failed with its error. */
  function Settle(job: TranscriptionJob, outcome: Result<ChunkRun, string>): TranscriptionJob {
    match outcome
    case Success(run) => AfterYields(job, run.steps).(status := Completed)
    case Failure(e) => job.(status := Failed, error := Some(e))
  }

  /**
   * `transcribe_audio_background` on one job: processing, then settled by
   * the retried run.  The run's returned transcript is not used.
   */
  function TranscriptionTask(job: TranscriptionJob, filePath: string,
                             load: string -> Result<seq<real>, string>,
                             converter: string -> Result<string, string>,
                             transcribe: seq<real> -> Option<string>): TranscriptionJob
  {
    Settle(job.(status := Processing), RetriedOutcome(filePath, load, converter, transcribe))
  }

  /**
   * `analyze_pronunciation_background` on one job.  The analyser catches
   * every exception itself, so its failure branch cannot be taken and the
   * task always completes.
   */
  function PronunciationTask(job: PronunciationJob, analysis: Analysis): PronunciationJob {
    job.(status := Completed, progress := 100, analysis := Some(analysis))
  }

  // ---------------------------------------------------------------------
  // Job invariants
  // ---------------------------------------------------------------------

  /** A queued job is untouched; a failed one has its error; progress is a percentage. */
  predicate TranscriptionJobValid(job: TranscriptionJob) {
    job.progress <= 100 && |job.filename| > 0 &&
    (job.status == Queued ==> job.progress == 0 && job.transcript.None? && job.error.None?) &&
    (job.status == Failed ==> job.error.Some?)
  }

  /** Progress is 0 when queued, 50 while processing and 100 when completed with an analysis; no error is ever set. */
  predicate PronunciationJobValid(job: PronunciationJob) {
    |job.filename| > 0 && job.error.None? && job.status != Failed &&
    (job.status == Queued ==> job.progress == 0 && job.analysis.None?) &&
    (job.status == Processing ==> job.progress == 50) &&
    (job.status == Completed ==> job.progress == 100 && job.analysis.Some?)
  }

  /** All yields of a run report at most 100 per cent. */
  predicate StepsBounded(steps: seq<Progress>) {
    forall i :: 0 <= i < |steps| ==> steps[i].percent <= 100
  }

  /** Every run of `process_audio_file` reports progress of at most 100. */
  lemma AudioOutcomeBounded(loaded: Result<seq<real>, string>, transcribe: seq<real> -> Option<string>)
    requires AudioOutcome(loaded, transcribe).Success?
    ensures StepsBounded(AudioOutcome(loaded, transcribe).value.steps)
  {
    AudioOutcomeCases(loaded, transcribe);
    ChunkRunFacts(Chunks(loaded.value), transcribe);
  }

  /** The transcription task keeps a job valid and ends it completed or failed. */
  lemma TranscriptionTaskValid(job: TranscriptionJob, filePath: string,
                               load: string -> Result<seq<real>, string>,
                               converter: string -> Result<string, string>,
                               transcribe: seq<real> -> Option<string>)
    requires TranscriptionJobValid(job)
    ensures var done := TranscriptionTask(job, filePath, load, converter, transcribe);
      TranscriptionJobValid(done) && (done.status == Completed || done.status == Failed) &&
      done.filename == job.filename
  {
    var first := AudioOutcome(load(filePath), transcribe);
    if first.Success? {
      AudioOutcomeBounded(load(filePath), transcribe);
    } else {
      var converted := ConvertToWav(filePath, converter);
      if converted.Success? && AudioOutcome(load(converted.value), transcribe).Success? {
        AudioOutcomeBounded(load(converted.value), transcribe);
      }
    }
  }

  /**
   * The job is failed with the converter's error when the first run and
   * the conversion both fail.  When the first run fails and the conversion
   * succeeds, the run on the converted file settles the job: completed
   * with that run's last yield (or the job's own fields when it yielded
   * nothing), or failed with that run's error.  When the first run succeeds, the job holds
   * the last yield: progress 100 and the joined chunk texts when the last
   * chunk was transcribed, and at most an empty transcript when no chunk
   * had text, although the run itself returned "[No speech detected]".
   */
  lemma TranscriptionTaskOutcome(job: TranscriptionJob, filePath: string,
                                 load: string -> Result<seq<real>, string>,
                                 converter: string -> Result<string, string>,
                                 transcribe: seq<real> -> Option<string>)
    ensures var done := TranscriptionTask(job, filePath, load, converter, transcribe);
      var first := AudioOutcome(load(filePath), transcribe);
      var converted := ConvertToWav(filePath, converter);
      (first.Failure? && converted.Failure? ==> done == job.(status := Failed, error := Some(converted.error))) &&
      (first.Failure? && converted.Success? ==>
        var second := AudioOutcome(load(converted.value), transcribe);
        (second.Failure? ==> done == job.(status := Failed, error := Some(second.error))) &&
        (second.Success? ==>
          var steps := second.value.steps;
          done.status == Completed && done.error == job.error && done.filename == job.filename &&
          (|steps| > 0 ==>
            done.progress == steps[|steps| - 1].percent && done.transcript == Some(steps[|steps| - 1].transcript)) &&
          (|steps| == 0 ==> done.progress == job.progress && done.transcript == job.transcript))) &&
      (first.Success? ==>
        var chunks := Chunks(load(filePath).value);
        var kept := Kept(Cleaned(Texts(chunks, transcribe)), |chunks|);
        done.status == Completed && done.error == job.error &&
        (transcribe(chunks[|chunks| - 1]).Some? ==>
          done.progress == 100 && done.transcript == Some(Current(kept))) &&
        (|kept| == 0 ==>
          (done.transcript == job.transcript || done.transcript == Some("")) &&
          first.value.finalTranscript == "[No speech detected]"))
  {
    var first := AudioOutcome(load(filePath), transcribe);
    if first.Success? {
      AudioOutcomeCases(load(filePath), transcribe);
      var chunks := Chunks(load(filePath).value);
      ChunkRunFacts(chunks, transcribe);
    }
  }

  /**
   * A `.wav` upload is retried from the same file, so when its first run
   * fails the job fails with that very error.
   */
  lemma WavRetryRepeatsFailure(job: TranscriptionJob, jobId: string,
                               load: string -> Result<seq<real>, string>,
                               converter: string -> Result<string, string>,
                               transcribe: seq<real> -> Option<string>)
    requires AudioOutcome(load(UploadPath(jobId, ".wav")), transcribe).Failure?
    ensures TranscriptionTask(job, UploadPath(jobId, ".wav"), load, converter, transcribe) ==
      job.(status := Failed, error := Some(AudioOutcome(load(UploadPath(jobId, ".wav")), transcribe).error))
  {
    WavUploadNotConverted(jobId, converter);
  }

  /** The pronunciation task always completes, with the analysis and progress 100. */
  lemma PronunciationTaskValid(job: PronunciationJob, analysis: Analysis)
    requires PronunciationJobValid(job)
    ensures var done := PronunciationTask(job, analysis);
      PronunciationJobValid(done) && done.status == Completed && done.analysis == Some(analysis) &&
      done.filename == job.filename && done.referenceText == job.referenceText
  {
  }

  /** Storing a valid job keeps a table of valid transcription jobs valid. */
  lemma TranscriptionTableUpdate(m: map<string, TranscriptionJob>, id: string, job: TranscriptionJob)
    requires forall k :: k in m ==> TranscriptionJobValid(m[k])
    requires TranscriptionJobValid(job)
    ensures var m' := m[id := job]; forall k :: k in m' ==> TranscriptionJobValid(m'[k])
  {
  }

  /** Storing a valid job keeps a table of valid pronunciation jobs valid. */
  lemma PronunciationTableUpdate(m: map<string, PronunciationJob>, id: string, job: PronunciationJob)
    requires forall k :: k in m ==> PronunciationJobValid(m[k])
    requires PronunciationJobValid(job)
    ensures var m' := m[id := job]; forall k :: k in m' ==> PronunciationJobValid(m'[k])
  {
  }

  // ---------------------------------------------------------------------
  // The tables
  // ---------------------------------------------------------------------

  class JobTables {
    var transcriptionJobs: map<string, TranscriptionJob>
    var pronunciationJobs: map<string, PronunciationJob>

    ghost predicate Valid()
      reads this
    {
      (forall id :: id in transcriptionJobs ==> TranscriptionJobValid(transcriptionJobs[id])) &&
      (forall id :: id in pronunciationJobs ==> PronunciationJobValid(pronunciationJobs[id]))
    }

    constructor()
      ensures Valid()
      ensures transcriptionJobs == map[] && pronunciationJobs == map[]
    {
      transcriptionJobs := map[];
      pronunciationJobs := map[];
    }

    /**
     * `POST /transcribe`: the file checks, then saving the upload, then a
     * queued job under the new id; the response carries the id.
     */
    method UploadAndTranscribe(filename: string, contentType: string, jobId: string, saveError: Option<string>)
      returns (r: Result<string, HttpError>)
      requires Valid()
      modifies this
      ensures Valid()
      ensures var checked := CheckUpload(filename, contentType);
        r == UploadResponse(checked, saveError, jobId) &&
        transcriptionJobs == if r.Success? then old(transcriptionJobs)[jobId := NewTranscriptionJob(filename, checked.value)]
                             else old(transcriptionJobs)
      ensures pronunciationJobs == old(pronunciationJobs)
    {
      var checked := CheckUpload(filename, contentType);
      r := AdmitTranscription(checked, filename, jobId, saveError);
    }

    /** Saves an upload that passed the checks (or refuses it) and queues its transcription job. */
    method AdmitTranscription(checked: Result<string, HttpError>, filename: string, jobId: string, saveError: Option<string>)
      returns (r: Result<string, HttpError>)
      requires Valid()
      modifies this
      ensures Valid()
      ensures r == UploadResponse(checked, saveError, jobId)
      ensures transcriptionJobs == if r.Success? then old(transcriptionJobs)[jobId := NewTranscriptionJob(filename, checked.value)]
                                   else old(transcriptionJobs)
      ensures pronunciationJobs == old(pronunciationJobs)
    {
      if checked.Failure? {
        return Failure(checked.error);
      }
      if saveError.Some? {
        return Failure(SaveFailed(saveError.value));
      }
      transcriptionJobs := transcriptionJobs[jobId := TranscriptionJob(Queued, 0, None, None, JobFilename(filename, checked.value))];
      r := Success(jobId);
    }

    /**
     * `POST /analyze-pronunciation`: the analyser and file checks, then
     * saving the upload, then a queued job recording the reference text.
     */
    method UploadAndAnalyze(analyzerLoaded: bool, filename: string, contentType: string, referenceText: string,
                            jobId: string, saveError: Option<string>)
      returns (r: Result<string, HttpError>)
      requires Valid()
      modifies this
      ensures Valid()
      ensures var checked := CheckPronunciationUpload(analyzerLoaded, filename, contentType, referenceText);
        r == UploadResponse(checked, saveError, jobId) &&
        pronunciationJobs == if r.Success? then old(pronunciationJobs)[jobId := NewPronunciationJob(filename, checked.value, referenceText)]
                             else old(pronunciationJobs)
      ensures transcriptionJobs == old(transcriptionJobs)
    {
      var checked := CheckPronunciationUpload(analyzerLoaded, filename, contentType, referenceText);
      r := AdmitPronunciation(checked, filename, referenceText, jobId, saveError);
    }

    /** Saves an upload that passed the checks (or refuses it) and queues its pronunciation job. */
    method AdmitPronunciation(checked: Result<string, HttpError>, filename: string, referenceText: string,
                              jobId: string, saveError: Option<string>)
      returns (r: Result<string, HttpError>)
      requires Valid()
      modifies this
      ensures Valid()
      ensures r == UploadResponse(checked, saveError, jobId)
      ensures pronunciationJobs == if r.Success? then old(pronunciationJobs)[jobId := NewPronunciationJob(filename, checked.value, referenceText)]
                                   else old(pronunciationJobs)
      ensures transcriptionJobs == old(transcriptionJobs)
    {
      if checked.Failure? {
        return Failure(checked.error);
      }
      if saveError.Some? {
        return Failure(SaveFailed(saveError.value));
      }
      pronunciationJobs := pronunciationJobs[jobId :=
        PronunciationJob(Queued, 0, None, None, JobFilename(filename, checked.value), referenceText)];
      r := Success(jobId);
    }

    /** `GET /status/{job_id}`: the job's fields as stored, or 404. */
    method TranscriptionStatus(jobId: string) returns (r: Result<TranscriptionStatusView, HttpError>)
      ensures jobId !in transcriptionJobs <==> r == Failure(JobNotFound)
      ensures jobId in transcriptionJobs ==>
        var job := transcriptionJobs[jobId];
        r.Success? && r.value.jobId == jobId && r.value.status == job.status && r.value.progress == job.progress &&
        r.value.transcript == job.transcript && r.value.error == job.error
    {
      if jobId !in transcriptionJobs {
        return Failure(JobNotFound);
      }
      var job := transcriptionJobs[jobId];
      r := Success(TranscriptionStatusView(jobId, job.status, job.progress, job.transcript, job.error));
    }

    /** `GET /pronunciation-status/{job_id}`: the job's fields as stored, or 404. */
    method PronunciationStatus(jobId: string) returns (r: Result<PronunciationStatusView, HttpError>)
      ensures jobId !in pronunciationJobs <==> r == Failure(JobNotFound)
      ensures jobId in pronunciationJobs ==>
        var job := pronunciationJobs[jobId];
        r.Success? && r.value.jobId == jobId && r.value.status == job.status && r.value.progress == job.progress &&
        r.value.analysis == job.analysis && r.value.error == job.error
    {
      if jobId !in pronunciationJobs {
        return Failure(JobNotFound);
      }
      var job := pronunciationJobs[jobId];
      r := Success(PronunciationStatusView(jobId, job.status, job.progress, job.analysis, job.error));
    }

    /** `DELETE /job/{job_id}`: removes the id from both tables; 404 when it was in neither. */
    method DeleteJob(jobId: string) returns (r: Result<string, HttpError>)
      requires Valid()
      modifies this
      ensures Valid()
      ensures transcriptionJobs == old(transcriptionJobs) - {jobId}
      ensures pronunciationJobs == old(pronunciationJobs) - {jobId}
      ensures r.Failure? <==> jobId !in old(transcriptionJobs) && jobId !in old(pronunciationJobs)
      ensures r.Failure? ==> r.error == JobNotFound
      ensures r.Success? ==> r.value == "Job deleted successfully"
    {
      var deleted := false;
      if jobId in transcriptionJobs {
        transcriptionJobs := transcriptionJobs - {jobId};
        deleted := true;
      }
      if jobId in pronunciationJobs {
        pronunciationJobs := pronunciationJobs - {jobId};
        deleted := true;
      }
      if deleted {
        r := Success("Job deleted successfully");
      } else {
        r := Failure(JobNotFound);
      }
    }

    /** The consumer loop: each yield's progress, then its transcript, written over the job. */
    method WriteYields(jobId: string, steps: seq<Progress>)
      requires jobId in transcriptionJobs
      modifies this
      ensures transcriptionJobs == old(transcriptionJobs)[jobId := AfterYields(old(transcriptionJobs)[jobId], steps)]
      ensures pronunciationJobs == old(pronunciationJobs)
    {
      ghost var start := transcriptionJobs[jobId];
      for k := 0 to |steps|
        invariant transcriptionJobs == old(transcriptionJobs)[jobId := AfterYields(start, steps[..k])]
        invariant pronunciationJobs == old(pronunciationJobs)
      {
        assert steps[..k + 1][..k] == steps[..k];
        var job := transcriptionJobs[jobId];
        transcriptionJobs := transcriptionJobs[jobId := job.(progress := steps[k].percent)];
        job := transcriptionJobs[jobId];
        transcriptionJobs := transcriptionJobs[jobId := job.(transcript := Some(steps[k].transcript))];
      }
      assert steps[..|steps|] == steps;
    }

    /** Sets the job's status, and its error when one is given. */
    method Finish(jobId: string, status: JobStatus, error: Option<string>)
      requires jobId in transcriptionJobs
      modifies this
      ensures var job := old(transcriptionJobs)[jobId];
        transcriptionJobs == old(transcriptionJobs)[jobId :=
          if error.Some? then job.(status := status, error := error) else job.(status := status)]
      ensures pronunciationJobs == old(pronunciationJobs)
    {
      var job := transcriptionJobs[jobId];
      transcriptionJobs := transcriptionJobs[jobId := job.(status := status)];
      if error.Some? {
        job := transcriptionJobs[jobId];
        transcriptionJobs := transcriptionJobs[jobId := job.(error := error)];
      }
    }

    /**
     * `transcribe_audio_background`.  An id missing from the table makes
     * the task raise before it changes anything.
     */
    method TranscribeBackground(jobId: string, filePath: string,
                                load: string -> Result<seq<real>, string>,
                                converter: string -> Result<string, string>,
                                transcribe: seq<real> -> Option<string>)
      requires Valid()
      modifies this
      ensures Valid()
      ensures pronunciationJobs == old(pronunciationJobs)
      ensures jobId !in old(transcriptionJobs) ==> transcriptionJobs == old(transcriptionJobs)
      ensures jobId in old(transcriptionJobs) ==>
        transcriptionJobs == old(transcriptionJobs)[jobId :=
          TranscriptionTask(old(transcriptionJobs)[jobId], filePath, load, converter, transcribe)]
    {
      if jobId !in transcriptionJobs {
        return;
      }
      ghost var start := transcriptionJobs[jobId];
      ghost var done := TranscriptionTask(start, filePath, load, converter, transcribe);
      TranscriptionTaskValid(start, filePath, load, converter, transcribe);
      TranscriptionTableUpdate(transcriptionJobs, jobId, done);
      Finish(jobId, Processing, None);
      var outcome := RunWithRetry(filePath, load, converter, transcribe);
      SettleJob(jobId, outcome);
    }

    /** The end of `transcribe_audio_background`: the run's yields and status, or its error, written to the job. */
    method SettleJob(jobId: string, outcome: Result<ChunkRun, string>)
      requires jobId in transcriptionJobs
      modifies this
      ensures transcriptionJobs == old(transcriptionJobs)[jobId := Settle(old(transcriptionJobs)[jobId], outcome)]
      ensures pronunciationJobs == old(pronunciationJobs)
    {
      if outcome.Success? {
        WriteYields(jobId, outcome.value.steps);
        Finish(jobId, Completed, None);
      } else {
        Finish(jobId, Failed, Some(outcome.error));
      }
    }

    /** The two attempts of `transcribe_audio_background` at the audio. */
    method RunWithRetry(filePath: string,
                        load: string -> Result<seq<real>, string>,
                        converter: string -> Result<string, string>,
                        transcribe: seq<real> -> Option<string>)
      returns (outcome: Result<ChunkRun, string>)
      ensures outcome == RetriedOutcome(filePath, load, converter, transcribe)
    {
      outcome := ProcessAudioFile(load(filePath), transcribe);
      if outcome.Success? {
        return;
      }
      var converted := ConvertToWav(filePath, converter);
      if converted.Failure? {
        return Failure(converted.error);
      }
      outcome := ProcessAudioFile(load(converted.value), transcribe);
    }

    /**
     * `analyze_pronunciation_background`, with the analyser's inputs
     * (whether the file exists and what the transcription produced).
     */
    method AnalyzeBackground(jobId: string, audioExists: bool, referenceText: string, language: string,
                             outcome: TranscriptionOutcome)
      requires Valid()
      modifies this
      ensures Valid()
      ensures transcriptionJobs == old(transcriptionJobs)
      ensures jobId !in old(pronunciationJobs) ==> pronunciationJobs == old(pronunciationJobs)
      ensures jobId in old(pronunciationJobs) ==>
        pronunciationJobs == old(pronunciationJobs)[jobId := PronunciationTask(old(pronunciationJobs)[jobId],
          AnalyzePronunciation(audioExists, referenceText, language, outcome))]
    {
      if jobId !in pronunciationJobs {
        return;
      }
      var analysis := AnalyzePronunciation(audioExists, referenceText, language, outcome);
      StoreAnalysis(jobId, analysis);
    }

    /** The job's updates around the analysis: processing at 50 per cent, then the analysis at 100, completed. */
    method StoreAnalysis(jobId: string, analysis: Analysis)
      requires Valid() && jobId in pronunciationJobs
      modifies this
      ensures Valid()
      ensures transcriptionJobs == old(transcriptionJobs)
      ensures pronunciationJobs == old(pronunciationJobs)[jobId := PronunciationTask(old(pronunciationJobs)[jobId], analysis)]
    {
      var job := pronunciationJobs[jobId];
      pronunciationJobs := pronunciationJobs[jobId := job.(status := Processing, progress := 50)];
      job := pronunciationJobs[jobId];
      pronunciationJobs := pronunciationJobs[jobId := job.(analysis := Some(analysis), progress := 100, status := Completed)];
      PronunciationTaskValid(old(pronunciationJobs)[jobId], analysis);
      PronunciationTableUpdate(old(pronunciationJobs), jobId, PronunciationTask(old(pronunciationJobs)[jobId], analysis));
    }
  }
}
