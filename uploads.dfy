/**
 * The request-level decision tables of the speech API: which uploads are
 * accepted and under which extension they are stored, when the
 * pronunciation endpoint refuses a request, the health summary, the
 * preparation of text for speech synthesis, and the `.wav` short-circuit
 * of the conversion to WAV.
 *
 * A filename or content type that is absent is the empty string, as
 * Python's truthiness treats both alike.
 */
module Uploads {
  import opened Wrappers
  import opened Text
  import opened Paths

  // ---------------------------------------------------------------------
  // Upload validation
  // ---------------------------------------------------------------------

  const AllowedExtensions: seq<string> := [".mp3", ".wav", ".m4a", ".flac", ".ogg", ".webm"]

  const AllowedContentTypes: seq<string> := [
    "audio/mpeg", "audio/mp3",
    "audio/wav", "audio/wave", "audio/x-wav",
    "audio/mp4", "audio/m4a", "audio/x-m4a",
    "audio/flac", "audio/x-flac",
    "audio/ogg", "audio/vorbis",
    "audio/webm",
    "application/octet-stream"
  ]

  /** The extension detected from the filename: lower-cased, empty without a filename. */
  function FileExtension(filename: string): string {
    if |filename| == 0 then "" else Lower(SplitExtension(filename))
  }

  predicate ExtensionValid(filename: string) {
    |filename| == 0 || FileExtension(filename) in AllowedExtensions
  }

  predicate ContentTypeValid(contentType: string) {
    |contentType| == 0 || contentType in AllowedContentTypes ||
    StartsWith(contentType, "audio/") || contentType == "application/octet-stream"
  }

  /** The list of known content types adds nothing to the `audio/` prefix test. */
  lemma ContentTypeRule(contentType: string)
    ensures ContentTypeValid(contentType) <==>
      |contentType| == 0 || StartsWith(contentType, "audio/") || contentType == "application/octet-stream"
  {
    if contentType in AllowedContentTypes && contentType != "application/octet-stream" {
      var k :| 0 <= k < |AllowedContentTypes| && AllowedContentTypes[k] == contentType;
      assert k < 13;
      assert AllowedContentTypes[k][..6] == "audio/";
    }
  }

  function ExtensionError(extension: string): HttpError {
    HttpError(400, "Unsupported file extension '" + extension + "'. Allowed: " + Join(AllowedExtensions, ", "))
  }

  function ContentTypeError(contentType: string): HttpError {
    HttpError(400, "Unsupported file type '" + contentType + "'. Please upload an audio file.")
  }

  /** The extension guessed from a content type: the first family whose name occurs in it, `.wav` otherwise. */
  function InferExtension(contentType: string): (extension: string)
    ensures extension in AllowedExtensions
  {
    var ct := Lower(contentType);
    if Contains(ct, "wav") then ".wav"
    else if Contains(ct, "mp3") || Contains(ct, "mpeg") then ".mp3"
    else if Contains(ct, "m4a") || Contains(ct, "mp4") then ".m4a"
    else if Contains(ct, "flac") then ".flac"
    else if Contains(ct, "ogg") || Contains(ct, "vorbis") then ".ogg"
    else if Contains(ct, "webm") then ".webm"
    else ".wav"
  }

  /**
   * The file checks shared by both upload endpoints: the extension error
   * first, then the content-type error; on success the extension the file
   * is stored under, inferred from the content type when there is none.
   */
  function CheckUpload(filename: string, contentType: string): Result<string, HttpError> {
    var extension := FileExtension(filename);
    if !ExtensionValid(filename) then Failure(ExtensionError(extension))
    else if !ContentTypeValid(contentType) then Failure(ContentTypeError(contentType))
    else if |extension| == 0 && |contentType| > 0 then Success(InferExtension(contentType))
    else Success(extension)
  }

  /**
   * An upload is accepted exactly when its filename is empty or has an
   * allowed extension (any case) and its content type is absent, audio or
   * `application/octet-stream`; a refusal is a 400, and a bad extension is
   * reported whatever the content type.
   */
  lemma CheckUploadDecision(filename: string, contentType: string)
    ensures CheckUpload(filename, contentType).Success? <==>
      (|filename| == 0 || Lower(SplitExtension(filename)) in AllowedExtensions) &&
      (|contentType| == 0 || StartsWith(contentType, "audio/") || contentType == "application/octet-stream")
    ensures CheckUpload(filename, contentType).Failure? ==> CheckUpload(filename, contentType).error.status == 400
    ensures !ExtensionValid(filename) ==>
      CheckUpload(filename, contentType) == Failure(ExtensionError(FileExtension(filename)))
  {
    ContentTypeRule(contentType);
  }

  /**
   * An accepted upload is stored under an allowed extension, except a file
   * with neither filename nor content type, which is stored without one.
   */
  lemma CheckUploadExtension(filename: string, contentType: string)
    requires CheckUpload(filename, contentType).Success?
    ensures var extension := CheckUpload(filename, contentType).value;
      (extension in AllowedExtensions) != (|filename| == 0 && |contentType| == 0 && extension == "")
  {
  }

  /** A named file without an extension, a hidden file like `.wav` among them, is refused. */
  lemma UnnamedExtensionRefused(filename: string, contentType: string)
    requires |filename| > 0 && SplitExtension(filename) == ""
    ensures CheckUpload(filename, contentType) == Failure(ExtensionError(""))
  {
    assert Lower("") == "";
    assert "" !in AllowedExtensions;
  }

  /** The file a job records: the upload's filename, or `audio` plus the stored extension. */
  function JobFilename(filename: string, extension: string): (name: string)
    ensures |name| > 0
    ensures |filename| > 0 ==> name == filename
  {
    if |filename| > 0 then filename else "audio" + extension
  }

  /** Where the upload is saved: `uploads/<job id><extension>`. */
  function UploadPath(jobId: string, extension: string): (path: string)
    ensures EndsWith(path, extension)
  {
    PathJoin("uploads", jobId + extension)
  }

  // ---------------------------------------------------------------------
  // The pronunciation endpoint
  // ---------------------------------------------------------------------

  const AnalyzerUnavailable := HttpError(503, "Pronunciation analyzer is not available. Please wait for the model to load.")
  const EmptyReference := HttpError(400, "Reference text cannot be empty")

  /** The checks of the pronunciation upload: the analyser first, then the file, then the reference text. */
  function CheckPronunciationUpload(analyzerLoaded: bool, filename: string, contentType: string,
                                    referenceText: string): Result<string, HttpError>
  {
    if !analyzerLoaded then Failure(AnalyzerUnavailable)
    else match CheckUpload(filename, contentType)
      case Failure(e) => Failure(e)
      case Success(extension) =>
        if |Strip(referenceText)| == 0 then Failure(EmptyReference) else Success(extension)
  }

  /**
   * Without an analyser every request is a 503; the file errors come before
   * the reference check; an accepted request has a non-blank reference and
   * the extension of the transcription upload.
   */
  lemma PronunciationUploadOrder(analyzerLoaded: bool, filename: string, contentType: string, referenceText: string)
    ensures !analyzerLoaded ==>
      CheckPronunciationUpload(analyzerLoaded, filename, contentType, referenceText) == Failure(AnalyzerUnavailable)
    ensures analyzerLoaded && CheckUpload(filename, contentType).Failure? ==>
      CheckPronunciationUpload(analyzerLoaded, filename, contentType, referenceText) == CheckUpload(filename, contentType)
    ensures analyzerLoaded && CheckUpload(filename, contentType).Success? ==>
      (CheckPronunciationUpload(analyzerLoaded, filename, contentType, referenceText) == Failure(EmptyReference)
       <==> AllSpace(referenceText))
    ensures CheckPronunciationUpload(analyzerLoaded, filename, contentType, referenceText).Success? ==>
      analyzerLoaded && !AllSpace(referenceText) &&
      CheckPronunciationUpload(analyzerLoaded, filename, contentType, referenceText) == CheckUpload(filename, contentType)
  {
    StripEmptyIffBlank(referenceText);
  }

  // ---------------------------------------------------------------------
  // Health
  // ---------------------------------------------------------------------

  /** `health_check`'s status from the loaded processor, Whisper model and analyser. */
  function HealthStatus(processorLoaded: bool, modelLoaded: bool, analyzerLoaded: bool): string {
    var transcription := processorLoaded && modelLoaded;
    var status := if transcription && analyzerLoaded then "healthy" else "partial";
    if !transcription && !analyzerLoaded then "unhealthy" else status
  }

  /** Healthy when both models are there, unhealthy when neither is, partial otherwise. */
  lemma HealthStatusCases(processorLoaded: bool, modelLoaded: bool, analyzerLoaded: bool)
    ensures var status := HealthStatus(processorLoaded, modelLoaded, analyzerLoaded);
      var transcription := processorLoaded && modelLoaded;
      (status == "healthy" <==> transcription && analyzerLoaded) &&
      (status == "unhealthy" <==> !transcription && !analyzerLoaded) &&
      (status == "partial" <==> transcription != analyzerLoaded)
  {
  }

  // ---------------------------------------------------------------------
  // Speech synthesis
  // ---------------------------------------------------------------------

  const SpeechLanguages: seq<string> :=
    ["en", "de", "es", "fr", "it", "pt", "ru", "ja", "ko", "zh", "nl", "ar", "hi", "th", "vi"]

  /** The text and language handed to the speech library. */
  datatype SpeechRequest = SpeechRequest(text: string, language: string)

  /** The audio returned: its media type and download name. */
  datatype SpeechFile = SpeechFile(mediaType: string, filename: string)

  /** The language code used, English for any code outside the table. */
  function SpeechLanguage(language: string): string {
    if language in SpeechLanguages then language else "en"
  }

  /** Stripped text, with a full stop after a single word; blank text is a 400. */
  function PrepareSpeech(text: string, language: string): Result<SpeechRequest, HttpError> {
    if |Strip(text)| == 0 then Failure(HttpError(400, "Text cannot be empty"))
    else
      var clean := Strip(text);
      var clean := if |Split(clean)| == 1 then clean + "." else clean;
      Success(SpeechRequest(clean, SpeechLanguage(language)))
  }

  /** `pronunciation_<text>` with spaces made underscores and dots dropped, plus the suffix. */
  function DownloadName(cleanText: string, suffix: string): string {
    "pronunciation_" + ReplaceAll(ReplaceAll(cleanText, " ", "_"), ".", "") + suffix
  }

  /**
   * The audio sent back: MP3 for text of at most two words; WAV for longer
   * text, unless the conversion to WAV failed, when it is the MP3 again.
   */
  function SpeechResponse(cleanText: string, wavConverted: bool): SpeechFile {
    if |Split(cleanText)| <= 2 || !wavConverted then SpeechFile("audio/mpeg", DownloadName(cleanText, ".mp3"))
    else SpeechFile("audio/wav", DownloadName(cleanText, ".wav"))
  }

  /**
   * Blank text is refused; otherwise the text is stripped, gains a full
   * stop exactly when it is one word, keeps its number of words, and the
   * language falls back to English.
   */
  lemma PrepareSpeechFacts(text: string, language: string)
    ensures PrepareSpeech(text, language).Failure? <==> AllSpace(text)
    ensures PrepareSpeech(text, language).Failure? ==> PrepareSpeech(text, language).error.status == 400
    ensures PrepareSpeech(text, language).Success? ==>
      var request := PrepareSpeech(text, language).value;
      request.text == Strip(text) + (if |Split(Strip(text))| == 1 then "." else "") &&
      |Split(request.text)| == |Split(Strip(text))| &&
      (request.language == language <==> language in SpeechLanguages) &&
      (request.language != language ==> request.language == "en")
  {
    StripEmptyIffBlank(text);
    var clean := Strip(text);
    if |clean| > 0 && |Split(clean)| == 1 {
      SplitAppendNonSpace(clean, '.');
    }
  }

  /** Text of one or two words is always served as MP3. */
  lemma ShortTextServedAsMp3(text: string, language: string, wavConverted: bool)
    requires PrepareSpeech(text, language).Success?
    requires |Split(Strip(text))| <= 2
    ensures SpeechResponse(PrepareSpeech(text, language).value.text, wavConverted).mediaType == "audio/mpeg"
  {
    PrepareSpeechFacts(text, language);
  }

  /**
   * The format choice for prepared text: WAV, named `.wav`, exactly when
   * the text has more than two words and the conversion succeeded;
   * otherwise (short text, or a failed conversion) the MP3 with its `.mp3`
   * name.
   */
  lemma SpeechFormatChoice(text: string, language: string, wavConverted: bool)
    requires |Strip(text)| > 0
    ensures var clean := PrepareSpeech(text, language).value.text;
      var file := SpeechResponse(clean, wavConverted);
      (file.mediaType == "audio/wav" <==> |Split(Strip(text))| > 2 && wavConverted) &&
      (file.mediaType == "audio/wav" ==> file.filename == DownloadName(clean, ".wav")) &&
      (file.mediaType != "audio/wav" ==> file == SpeechFile("audio/mpeg", DownloadName(clean, ".mp3")))
  {
    PrepareSpeechFacts(text, language);
  }

  /** The download name after its prefix has no spaces and no dots. */
  lemma DownloadNameClean(cleanText: string, suffix: string)
    ensures var stem := ReplaceAll(ReplaceAll(cleanText, " ", "_"), ".", "");
      DownloadName(cleanText, suffix) == "pronunciation_" + stem + suffix && ' ' !in stem && '.' !in stem
  {
    var underscored := ReplaceAll(cleanText, " ", "_");
    ReplaceAllNoChar(cleanText, " ", "_", ' ');
    ReplaceAllNoChar(underscored, ".", "", ' ');
    ReplaceAllNoChar(underscored, ".", "", '.');
  }

  // ---------------------------------------------------------------------
  // Conversion to WAV
  // ---------------------------------------------------------------------

  /**
   * `convert_audio_to_wav`: a path already ending in `.wav` (any case) is
   * returned as it is; any other is handed to the converter, whose result
   * (the new path, or the error message) is a parameter.
   */
  function ConvertToWav(inputPath: string, converter: string -> Result<string, string>): Result<string, string> {
    if EndsWith(Lower(inputPath), ".wav") then Success(inputPath) else converter(inputPath)
  }

  /** Lower-casing keeps a `.wav` ending. */
  lemma LowerKeepsWav(path: string)
    requires EndsWith(path, ".wav")
    ensures EndsWith(Lower(path), ".wav")
  {
    var n := |path|;
    var lowered := Lower(path);
    assert path[n - 4..] == ".wav";
    assert path[n - 4] == '.' && path[n - 3] == 'w' && path[n - 2] == 'a' && path[n - 1] == 'v';
    assert lowered[n - 4..] == [lowered[n - 4], lowered[n - 3], lowered[n - 2], lowered[n - 1]];
  }

  /** An upload stored as `.wav` is never converted: the retry reads the same file. */
  lemma WavUploadNotConverted(jobId: string, converter: string -> Result<string, string>)
    ensures ConvertToWav(UploadPath(jobId, ".wav"), converter) == Success(UploadPath(jobId, ".wav"))
  {
    LowerKeepsWav(UploadPath(jobId, ".wav"));
  }
}
