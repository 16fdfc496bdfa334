/**
  What the reshaping step promises, stated about its reference definition
  `Transcriber.Transcribe` (which `Transcriber.Run` is proved to compute).
 */
module TranscriberProperties {
  import opened Wrappers
  import opened Transcriber

  /** An error of the empty string is falsy in Python and does not stop the step. */
  lemma EmptyErrorIsIgnored(t: Transcript, summarization: Option<bool>, speakerLabels: Option<bool>)
    requires t.error == Some("")
    ensures Transcribe(t, summarization, speakerLabels) == Transcribe(t.(error := None), summarization, speakerLabels)
  {
  }

  /** The step succeeds exactly when there is no error and every key it pops is present. */
  lemma SucceedsIffKeysPresent(t: Transcript, summarization: Option<bool>, speakerLabels: Option<bool>)
    ensures Transcribe(t, summarization, speakerLabels).Success?
            <==> !ErrorRaised(t.error) && Consumed(IsTrue(summarization), IsTrue(speakerLabels)) <= t.jsonResponse.Keys
  {
  }

  /** Which missing key is reported: the first one popped, in the source's order. */
  lemma MissingKeyReported(t: Transcript, summarization: Option<bool>, speakerLabels: Option<bool>)
    requires !ErrorRaised(t.error)
    ensures Transcribe(t, summarization, speakerLabels) == Failure(KeyError("id")) <==> "id" !in t.jsonResponse
    ensures Transcribe(t, summarization, speakerLabels) == Failure(KeyError("text"))
            <==> "id" in t.jsonResponse && "text" !in t.jsonResponse
    ensures Transcribe(t, summarization, speakerLabels) == Failure(KeyError("summary"))
            <==> "id" in t.jsonResponse && "text" in t.jsonResponse && IsTrue(summarization) && "summary" !in t.jsonResponse
    ensures Transcribe(t, summarization, speakerLabels) == Failure(KeyError("utterances"))
            <==> "id" in t.jsonResponse && "text" in t.jsonResponse
                 && (IsTrue(summarization) ==> "summary" in t.jsonResponse)
                 && IsTrue(speakerLabels) && "utterances" !in t.jsonResponse
  {
  }

  /** `id` is renamed to `transcription_id`; neither `id` nor `text` survives. */
  lemma IdRenamed(t: Transcript, summarization: Option<bool>, speakerLabels: Option<bool>)
    requires Transcribe(t, summarization, speakerLabels).Success?
    ensures var obj := Transcribe(t, summarization, speakerLabels).value.transcriptObject;
            && "transcription_id" in obj && obj["transcription_id"] == t.jsonResponse["id"]
            && "id" !in obj && "text" !in obj && "transcription_text" in obj
  {
  }

  /**
    Every key the step does not consume or write keeps its value, and no key
    appears that was not there.
   */
  lemma OtherKeysUnchanged(t: Transcript, summarization: Option<bool>, speakerLabels: Option<bool>, k: string)
    requires Transcribe(t, summarization, speakerLabels).Success?
    requires k !in Consumed(IsTrue(summarization), IsTrue(speakerLabels)) && k != "transcription_id" && k != "transcription_text"
    ensures var obj := Transcribe(t, summarization, speakerLabels).value.transcriptObject;
            && (k in obj <==> k in t.jsonResponse)
            && (k in obj ==> obj[k] == t.jsonResponse[k])
  {
  }

  /** With neither flag exactly True, `transcription_text` is the original `text`. */
  lemma TextKeptWithoutFlags(t: Transcript, summarization: Option<bool>, speakerLabels: Option<bool>)
    requires Transcribe(t, summarization, speakerLabels).Success?
    requires !IsTrue(summarization) && !IsTrue(speakerLabels)
    ensures Transcribe(t, summarization, speakerLabels).value.transcriptObject["transcription_text"] == t.jsonResponse["text"]
  {
  }

  /**
    `summarization` is an output key iff the flag is exactly True; it then
    holds one Document with the summary, and `summary` leaves the raw response
    for `transcription_text` (where it stays unless speaker labels are asked for).
   */
  lemma SummarizationIff(t: Transcript, summarization: Option<bool>, speakerLabels: Option<bool>)
    requires Transcribe(t, summarization, speakerLabels).Success?
    ensures var o := Transcribe(t, summarization, speakerLabels).value;
            && ("summarization" in OutputKeys(o) <==> IsTrue(summarization))
            && (IsTrue(summarization) ==>
                  && o.summarization == Some([Document(t.summary, map[])])
                  && "summary" !in o.transcriptObject
                  && (!IsTrue(speakerLabels) ==> o.transcriptObject["transcription_text"] == t.jsonResponse["summary"]))
  {
  }

  /**
    `speaker_labels` is an output key iff the flag is exactly True; it then
    holds one Document per utterance, in order, and `utterances` moves into
    `transcription_text`.
   */
  lemma SpeakerLabelsIff(t: Transcript, summarization: Option<bool>, speakerLabels: Option<bool>)
    requires Transcribe(t, summarization, speakerLabels).Success?
    ensures var o := Transcribe(t, summarization, speakerLabels).value;
            && ("speaker_labels" in OutputKeys(o) <==> IsTrue(speakerLabels))
            && (IsTrue(speakerLabels) ==>
                  && o.speakerLabels.Some?
                  && |o.speakerLabels.value| == |t.utterances|
                  && (forall i :: 0 <= i < |t.utterances| ==>
                        && o.speakerLabels.value[i].content == t.utterances[i].text
                        && o.speakerLabels.value[i].meta == map["speaker" := VStr(t.utterances[i].speaker)])
                  && "utterances" !in o.transcriptObject
                  && o.transcriptObject["transcription_text"] == t.jsonResponse["utterances"])
  {
  }

  /**
    With both flags set, the summary first moved into `transcription_text` is
    overwritten by the utterances, and `summary` itself is gone: a summary
    value that no other key of the response holds is nowhere in the result.
   */
  lemma SummaryOverwrittenByUtterances(t: Transcript)
    requires Transcribe(t, Some(true), Some(true)).Success?
    ensures var obj := Transcribe(t, Some(true), Some(true)).value.transcriptObject;
            && obj["transcription_text"] == t.jsonResponse["utterances"]
            && "summary" !in obj
            && ((forall k :: k in t.jsonResponse && k != "summary" ==> t.jsonResponse[k] != t.jsonResponse["summary"])
                ==> t.jsonResponse["summary"] !in obj.Values)
  {
  }

  /** A transcript on which the loss shows: nothing in the result holds the summary value. */
  lemma SummaryLostExample()
    ensures var json := map["id" := VStr("t1"), "text" := VStr("hi"), "summary" := VStr("S"), "utterances" := VList([])];
            var t := Transcript(None, "hi", "t1", "u", "S", [], json);
            && Transcribe(t, Some(true), Some(true)).Success?
            && VStr("S") !in Transcribe(t, Some(true), Some(true)).value.transcriptObject.Values
  {
  }

  /**
    `transcript_object` and `transcription` are always present; the one
    transcription Document is built from the transcript's attributes.
   */
  lemma TranscriptionAlwaysPresent(t: Transcript, summarization: Option<bool>, speakerLabels: Option<bool>)
    requires Transcribe(t, summarization, speakerLabels).Success?
    ensures var o := Transcribe(t, summarization, speakerLabels).value;
            && {"transcript_object", "transcription"} <= OutputKeys(o)
            && o.transcription == [Document(t.text, map["transcript_id" := VStr(t.id), "audio_url" := VStr(t.audioUrl)])]
  {
  }

  /**
    The transcription Document depends on the transcript's attributes only,
    not on the raw response nor on the flags.
   */
  lemma TranscriptionIgnoresResponse(t1: Transcript, t2: Transcript,
                                     s1: Option<bool>, l1: Option<bool>, s2: Option<bool>, l2: Option<bool>)
    requires Transcribe(t1, s1, l1).Success? && Transcribe(t2, s2, l2).Success?
    requires t1.text == t2.text && t1.id == t2.id && t1.audioUrl == t2.audioUrl
    ensures Transcribe(t1, s1, l1).value.transcription == Transcribe(t2, s2, l2).value.transcription
  {
  }

  /** The output keys, exactly. */
  lemma OutputKeysExact(t: Transcript, summarization: Option<bool>, speakerLabels: Option<bool>)
    requires Transcribe(t, summarization, speakerLabels).Success?
    ensures OutputKeys(Transcribe(t, summarization, speakerLabels).value)
            == {"transcript_object", "transcription"}
               + (if IsTrue(summarization) then {"summarization"} else {})
               + (if IsTrue(speakerLabels) then {"speaker_labels"} else {})
  {
  }

  /** A flag that is None behaves as False: only `is True` switches a branch on. */
  lemma NoneFlagIsFalse(t: Transcript, summarization: Option<bool>, speakerLabels: Option<bool>)
    ensures Transcribe(t, None, speakerLabels) == Transcribe(t, Some(false), speakerLabels)
    ensures Transcribe(t, summarization, None) == Transcribe(t, summarization, Some(false))
  {
  }

  /** A response without the optional flags, reshaped. */
  lemma PlainTranscriptExample()
    ensures var json := map["id" := VStr("t1"), "text" := VStr("hello world"), "error" := VNull, "audio_url" := VStr("https://x/a.mp3")];
            var t := Transcript(None, "hello world", "t1", "https://x/a.mp3", "", [], json);
            Transcribe(t, Some(false), Some(false))
            == Success(Output(
                         map["transcription_id" := VStr("t1"), "transcription_text" := VStr("hello world"),
                             "error" := VNull, "audio_url" := VStr("https://x/a.mp3")],
                         [Document("hello world", map["transcript_id" := VStr("t1"), "audio_url" := VStr("https://x/a.mp3")])],
                         None,
                         None))
  {
    var json := map["id" := VStr("t1"), "text" := VStr("hello world"), "error" := VNull, "audio_url" := VStr("https://x/a.mp3")];
    var obj := TranscriptObject(json, false, false).value;
    assert obj == map["transcription_id" := VStr("t1"), "transcription_text" := VStr("hello world"),
                      "error" := VNull, "audio_url" := VStr("https://x/a.mp3")];
  }

  /** Reads the utterances back from speaker-label Documents. */
  function UtterancesOf(docs: seq<Document>): Option<seq<Utterance>>
  {
    if docs == [] then Some([])
    else if "speaker" in docs[0].meta && docs[0].meta["speaker"].VStr? then
      match UtterancesOf(docs[1..])
      case None => None
      case Some(rest) => Some([Utterance(docs[0].content, docs[0].meta["speaker"].s)] + rest)
    else None
  }

  /** No utterance is lost, altered or reordered by the speaker-label Documents. */
  lemma {:induction false} SpeakerDocumentsRoundTrip(us: seq<Utterance>)
    ensures UtterancesOf(SpeakerDocuments(us)) == Some(us)
  {
    if us != [] {
      SpeakerDocumentsRoundTrip(us[1..]);
      assert SpeakerDocuments(us)[1..] == SpeakerDocuments(us[1..]);
      assert [us[0]] + us[1..] == us;
    }
  }
}
