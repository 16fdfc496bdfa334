# AssemblyAI transcriber for Haystack: the reshaping step

The repository provides one pipeline component, `AssemblyAITranscriber`. Its
`run` hands an audio file to the AssemblyAI service and reshapes the returned
transcript into the pipeline's output mapping. This project models the
reshaping step, which starts once the vendor has answered:

- a transcript whose `error` is truthy raises `ValueError("Could not transcribe file: …")`;
- the raw JSON response is changed in place: `id` is popped into
  `transcription_id` and `text` into `transcription_text`;
- if `summarization is True`, a one-Document `summarization` list is built
  and `summary` is popped into `transcription_text`;
- if `speaker_labels is True`, one Document is built per utterance and
  `utterances` is popped into `transcription_text`;
- the output holds `transcript_object`, `transcription` and, when their flag
  was exactly `True`, `summarization` and `speaker_labels`.

A `pop` of a missing key raises `KeyError`. The model has this as an error
outcome too.

Files:

- `wrappers.dfy`: the `Option` and `Result` datatypes.
- `transcriber.dfy`: the data model, Python's truthiness rule for `error`,
  the `is True` rule for a flag, the Document builders, and two forms of the
  step. `Transcriber.Run` is a method that changes a local copy of the
  response one pop and one assignment at a time, as the source does.
  `Transcriber.Transcribe` and `Transcriber.TranscriptObject` build the same
  result from named keys, independent of order. `Run` is proved to compute
  `Transcribe`.
- `properties.dfy`: what the step promises, proved about `Transcribe`.

The vendor's transcript is a parameter of the model (`Transcript`): its
`error`, `text`, `id`, `audio_url`, `summary` and `utterances` attributes,
and its raw `json_response` map of JSON values. The flags are the source's
`Optional[bool]`, modelled as `Option<bool>`. The model assumes the vendor's
`TranscriptionConfig` hands the flags back unchanged.

When both flags are `True`, the model keeps the source's behaviour.
`transcription_text` first receives the summary (transcriber.py line 64).
Line 78 then overwrites it with the utterances. Unless another key of the
response holds the same value, the summary is left nowhere in
`transcript_object`. `SummaryOverwrittenByUtterances` and
`SummaryLostExample` state this loss. The model does not guess at a
corrected behaviour, because the source gives no hint of which one was
intended.

## Model

| member | source | states |
|---|---|---|
| `Transcriber.Run` | assemblyai_haystack/transcriber.py:50-100 | the step-by-step pops and assignments on the response give the same result, or the same error, as the order-independent definition `Transcribe` |
| `Transcriber.Transcribe` | assemblyai_haystack/transcriber.py:50-51 | a truthy `error` fails the step with `ValueError("Could not transcribe file: " + error)`; a `ValueError` arises in no other case |
| `Transcriber.TranscriptObject` | assemblyai_haystack/transcriber.py:53-78 | the reshaped response exists iff every key to be popped is present; a failure names a missing key to be popped; the reshaped keys are the original keys minus the popped ones plus `transcription_id` and `transcription_text` |
| `Transcriber.SpeakerDocuments` | assemblyai_haystack/transcriber.py:70-77 | one Document per utterance, in order, with the utterance's text as content and `{"speaker": speaker}` as meta |
| `TranscriberProperties.EmptyErrorIsIgnored` | assemblyai_haystack/transcriber.py:50 | an `error` equal to the empty string is falsy and behaves as no error |
| `TranscriberProperties.SucceedsIffKeysPresent` | assemblyai_haystack/transcriber.py:50-78 | the step succeeds iff there is no error and `id`, `text`, and `summary`/`utterances` when requested, are all in the response |
| `TranscriberProperties.MissingKeyReported` | assemblyai_haystack/transcriber.py:56-78 | without an error, the `KeyError` raised names the first missing key in pop order (`id`, `text`, `summary`, `utterances`), each case as an iff |
| `TranscriberProperties.IdRenamed` | assemblyai_haystack/transcriber.py:56-57 | `transcription_id` holds the original `id`; `id` and `text` are no longer keys; `transcription_text` is a key |
| `TranscriberProperties.OtherKeysUnchanged` | assemblyai_haystack/transcriber.py:53-57 | every key the step neither pops nor writes is present after iff present before, with the same value |
| `TranscriberProperties.TextKeptWithoutFlags` | assemblyai_haystack/transcriber.py:57 | with neither flag exactly True, `transcription_text` is the original `text` |
| `TranscriberProperties.SummarizationIff` | assemblyai_haystack/transcriber.py:60-66 | `summarization` is an output key iff the flag is exactly True; it then holds one Document with the summary and empty meta; `summary` is gone from the response and, without speaker labels, is in `transcription_text` |
| `TranscriberProperties.SpeakerLabelsIff` | assemblyai_haystack/transcriber.py:69-80 | `speaker_labels` is an output key iff the flag is exactly True; it then has one Document per utterance in order, with text as content and the speaker as meta; `utterances` moves into `transcription_text` |
| `TranscriberProperties.SummaryOverwrittenByUtterances` | assemblyai_haystack/transcriber.py:64-78 | with both flags True, `transcription_text` holds the original `utterances`, `summary` is no key, and a summary value that no other key of the response holds is in no value of `transcript_object` |
| `TranscriberProperties.SummaryLostExample` | assemblyai_haystack/transcriber.py:64-78 | a concrete response where, with both flags True, no value of `transcript_object` is the summary |
| `TranscriberProperties.TranscriptionAlwaysPresent` | assemblyai_haystack/transcriber.py:83-97 | `transcript_object` and `transcription` are always output keys; `transcription` is one Document with the transcript's text and `{transcript_id, audio_url}` from its attributes |
| `TranscriberProperties.TranscriptionIgnoresResponse` | assemblyai_haystack/transcriber.py:83-93 | the transcription Document depends only on the transcript's `text`, `id` and `audio_url`, not on the raw response or the flags |
| `TranscriberProperties.OutputKeysExact` | assemblyai_haystack/transcriber.py:95-100 | the output keys are exactly `transcript_object`, `transcription`, plus `summarization` and `speaker_labels` for the flags that are exactly True |
| `TranscriberProperties.NoneFlagIsFalse` | assemblyai_haystack/transcriber.py:60 | a flag of `None` gives the same result as `False`, because only `is True` switches a branch on |
| `TranscriberProperties.PlainTranscriptExample` | assemblyai_haystack/transcriber.py:53-100 | a response `{id: "t1", text: "hello world", error: null, audio_url: …}` with both flags False gives exactly the expected output |
| `TranscriberProperties.SpeakerDocumentsRoundTrip` | assemblyai_haystack/transcriber.py:70-77 | the utterances can be read back from the speaker-label Documents: none is lost, altered or reordered |

The builders `TranscriptionDocuments`, `SummarizationDocuments` and
`SpeakerDocument`, and the predicates `ErrorRaised` and `IsTrue`, have no
contracts of their own. The lemmas above state what they produce.

## Left out

- The vendor SDK: building `TranscriptionConfig` and `Transcriber` and the blocking network `transcribe` call (lines 42-48). This is foreign code doing I/O. Its result is the `Transcript` parameter of `Run`.
- The `ValueError` the vendor raises when no API key is set, and the constructor's write of the process-wide `aai.settings.api_key` (lines 15-19). This is vendor state the model cannot see.
- `to_dict`/`from_dict` (lines 21-26). They delegate to the framework's serialisation helpers, which are not part of this model.
- `LazyImport`, `assemblyai_import.check()`, the `@component` decorators and the output-type declarations. These are import and framework plumbing.
- The stores to `self.file_path` and `self.transcriber` (lines 40, 47). They only feed the vendor call.
- Aliasing: the source changes the dict it obtains from `transcript.json_response` in place (line 53). If that attribute returns the transcript's stored dict, the source also renames the transcript's own response. The model changes a copy.
- Dictionary ordering: Python dicts keep insertion order, so the renamed keys move to the end. Dafny maps are unordered.
- Attribute values outside the declared types: a `None` summary or `None` utterances, non-string speakers or ids, floating-point JSON numbers, and flag values other than `None`, `True` or `False`. The vendor's result is taken as having the types in `Transcript`.
