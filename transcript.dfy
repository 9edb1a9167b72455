/**
 * The dictionary the transcription step hands to the analyser.  Its `text`
 * is `""` when the key is absent, and its `words` list is empty when the key
 * is absent; each timed-word entry is reduced to its `word` value, `None`
 * for an entry that is no dictionary or has no `word` key (the timestamps
 * play no part in the analysis).  Only a non-empty dictionary becomes a
 * `TranscriptData`: the empty dictionary `{}` is falsy and is rejected with
 * the non-dictionaries before the analysis reads a key.
 */
module Transcripts {
  import opened Wrappers

  datatype TranscriptData = TranscriptData(text: string, words: seq<Option<string>>)
}
