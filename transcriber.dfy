/**
  The reshaping step of the AssemblyAI transcriber component: it takes the
  transcript the vendor service returned, rejects an errored one, renames the
  keys of the raw response in place and assembles the output record of
  pipeline Documents.
 */
module Transcriber {
  import opened Wrappers

  /** A JSON-serialisable value, as found in the vendor's raw response. */
  datatype Value =
    | VNull
    | VBool(b: bool)
    | VInt(i: int)
    | VStr(s: string)
    | VList(items: seq<Value>)
    | VDict(fields: map<string, Value>)

  /** The pipeline framework's unit of content. */
  datatype Document = Document(content: string, meta: map<string, Value>)

  /** A span of speech attributed to one speaker. */
  datatype Utterance = Utterance(text: string, speaker: string)

  /** The vendor's transcript, as the component reads it. */
  datatype Transcript = Transcript(
    error: Option<string>,
    text: string,
    id: string,
    audioUrl: string,
    summary: string,
    utterances: seq<Utterance>,
    jsonResponse: map<string, Value>)

  /** The exceptions the reshaping step raises. */
  datatype Error =
    | ValueError(message: string)
    | KeyError(key: string)

  /**
    The output mapping: `transcript_object` and `transcription` always,
    `summarization` and `speaker_labels` only when present here.
   */
  datatype Output = Output(
    transcriptObject: map<string, Value>,
    transcription: seq<Document>,
    summarization: Option<seq<Document>>,
    speakerLabels: Option<seq<Document>>)

  // Keys of the raw response that the step reads or writes.
  const IdKey := "id"
  const TextKey := "text"
  const SummaryKey := "summary"
  const UtterancesKey := "utterances"
  const TranscriptionIdKey := "transcription_id"
  const TranscriptionTextKey := "transcription_text"

  // Keys of the output mapping and of the Documents' metadata.
  const TranscriptObjectKey := "transcript_object"
  const TranscriptionKey := "transcription"
  const SummarizationKey := "summarization"
  const SpeakerLabelsKey := "speaker_labels"
  const SpeakerKey := "speaker"
  const TranscriptIdKey := "transcript_id"
  const AudioUrlKey := "audio_url"

  const CouldNotTranscribe := "Could not transcribe file: "

  /** Python truthiness of `transcript.error`: None and the empty string are false. */
  predicate ErrorRaised(error: Option<string>)
  {
    error.Some? && error.value != ""
  }

  /** `flag is True` for an `Optional[bool]` flag. */
  predicate IsTrue(flag: Option<bool>)
  {
    flag == Some(true)
  }

  /** The keys of the output mapping. */
  function OutputKeys(o: Output): set<string>
  {
    {TranscriptObjectKey, TranscriptionKey}
    + (if o.summarization.Some? then {SummarizationKey} else {})
    + (if o.speakerLabels.Some? then {SpeakerLabelsKey} else {})
  }

  function TranscriptionDocuments(t: Transcript): seq<Document>
  {
    [Document(t.text, map[TranscriptIdKey := VStr(t.id), AudioUrlKey := VStr(t.audioUrl)])]
  }

  function SummarizationDocuments(t: Transcript): seq<Document>
  {
    [Document(t.summary, map[])]
  }

  function SpeakerDocument(u: Utterance): Document
  {
    Document(u.text, map[SpeakerKey := VStr(u.speaker)])
  }

  /** One Document per utterance, in the utterances' order. */
  function SpeakerDocuments(utterances: seq<Utterance>): (docs: seq<Document>)
    ensures |docs| == |utterances|
    ensures forall i :: 0 <= i < |utterances| ==>
              docs[i].content == utterances[i].text && docs[i].meta == map[SpeakerKey := VStr(utterances[i].speaker)]
  {
    if utterances == [] then [] else [SpeakerDocument(utterances[0])] + SpeakerDocuments(utterances[1..])
  }

  /** The response keys the step removes. */
  function Consumed(summarize: bool, diarize: bool): set<string>
  {
    {IdKey, TextKey}
    + (if summarize then {SummaryKey} else {})
    + (if diarize then {UtterancesKey} else {})
  }

  /**
    Reference definition of `transcript_object`, built afresh from named keys
    instead of by successive pops: the consumed keys go, `transcription_id`
    holds the old `id`, `transcription_text` holds the value of the last key
    moved into it, and every other key is kept. A missing key is reported in
    the order the pops happen.
   */
  function TranscriptObject(json: map<string, Value>, summarize: bool, diarize: bool): (r: Result<map<string, Value>, Error>)
    ensures r.Success? <==> Consumed(summarize, diarize) <= json.Keys
    ensures r.Failure? ==> r.error.KeyError? && r.error.key in Consumed(summarize, diarize) && r.error.key !in json
    ensures r.Success? ==> r.value.Keys == json.Keys - Consumed(summarize, diarize) + {TranscriptionIdKey, TranscriptionTextKey}
  {
    if IdKey !in json then Failure(KeyError(IdKey))
    else if TextKey !in json then Failure(KeyError(TextKey))
    else if summarize && SummaryKey !in json then Failure(KeyError(SummaryKey))
    else if diarize && UtterancesKey !in json then Failure(KeyError(UtterancesKey))
    else
      var kept := map k | k in json && k !in Consumed(summarize, diarize) :: json[k];
      var text := if diarize then json[UtterancesKey] else if summarize then json[SummaryKey] else json[TextKey];
      Success(kept[TranscriptionIdKey := json[IdKey]][TranscriptionTextKey := text])
  }

  /** Reference definition of the whole step. */
  function Transcribe(t: Transcript, summarization: Option<bool>, speakerLabels: Option<bool>): (r: Result<Output, Error>)
    ensures ErrorRaised(t.error) ==> r == Failure(ValueError("Could not transcribe file: " + t.error.value))
    ensures (r.Failure? && r.error.ValueError?) <==> ErrorRaised(t.error)
  {
    if ErrorRaised(t.error) then Failure(ValueError(CouldNotTranscribe + t.error.value))
    else
      var summarize, diarize := IsTrue(summarization), IsTrue(speakerLabels);
      match TranscriptObject(t.jsonResponse, summarize, diarize)
      case Failure(e) => Failure(e)
      case Success(obj) =>
        Success(Output(
                  obj,
                  TranscriptionDocuments(t),
                  if summarize then Some(SummarizationDocuments(t)) else None,
                  if diarize then Some(SpeakerDocuments(t.utterances)) else None))
  }

  /**
    The step as the component runs it: the raw response is changed one pop
    and one assignment at a time, and the Documents are built beside it.
   */
  method Run(transcript: Transcript, summarization: Option<bool>, speakerLabels: Option<bool>)
    returns (r: Result<Output, Error>)
    ensures r == Transcribe(transcript, summarization, speakerLabels)
  {
    if ErrorRaised(transcript.error) {
      return Failure(ValueError(CouldNotTranscribe + transcript.error.value));
    }

    var transcriptJson := transcript.jsonResponse;

    // Pop `id` and store its value under `transcription_id`.
    if IdKey !in transcriptJson {
      return Failure(KeyError(IdKey));
    }
    var id := transcriptJson[IdKey];
    transcriptJson := transcriptJson - {IdKey};
    transcriptJson := transcriptJson[TranscriptionIdKey := id];

    // Pop `text` and store its value under `transcription_text`.
    if TextKey !in transcriptJson {
      return Failure(KeyError(TextKey));
    }
    var text := transcriptJson[TextKey];
    transcriptJson := transcriptJson - {TextKey};
    transcriptJson := transcriptJson[TranscriptionTextKey := text];

    var summarizationDoc: Option<seq<Document>>;
    if IsTrue(summarization) {
      summarizationDoc := Some(SummarizationDocuments(transcript));
      if SummaryKey !in transcriptJson {
        return Failure(KeyError(SummaryKey));
      }
      var summary := transcriptJson[SummaryKey];
      transcriptJson := transcriptJson - {SummaryKey};
      transcriptJson := transcriptJson[TranscriptionTextKey := summary];
    } else {
      summarizationDoc := None;
    }

    var speakersDoc: Option<seq<Document>>;
    if IsTrue(speakerLabels) {
      speakersDoc := Some(SpeakerDocuments(transcript.utterances));
      if UtterancesKey !in transcriptJson {
        return Failure(KeyError(UtterancesKey));
      }
      var utterances := transcriptJson[UtterancesKey];
      transcriptJson := transcriptJson - {UtterancesKey};
      transcriptJson := transcriptJson[TranscriptionTextKey := utterances];
    } else {
      speakersDoc := None;
    }

    // The map built step by step equals the one built from named keys.
    ghost var expected := TranscriptObject(transcript.jsonResponse, IsTrue(summarization), IsTrue(speakerLabels));
    assert transcriptJson == expected.value;
    r := Success(Output(transcriptJson, TranscriptionDocuments(transcript), summarizationDoc, speakersDoc));
  }
}
