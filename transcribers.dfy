// Transcription (audio2sub/transcribers/base.py): the per-segment loop every
// transcriber inherits, and the AI transcriber that sends the clips to a
// provider chunk by chunk, decodes the indexed texts it returns and keeps a
// running token count.
module Transcribers {
  import opened Common
  import opened Text
  import opened Entries
  import opened AI

  const NoAudioMessage: string := "Segment has no audio path set"

  /** `Base.batch_transcribe`: transcribe each segment's clip in order,
      storing the text and yielding the segment. A segment without an audio
      path, or a failing call, ends the loop; the segments yielded before it
      keep their new text. `transcribe(audio, lang)` is the subclass's
      single-clip transcription. */
  method BatchTranscribe(segments: seq<Segment>, lang: Option<string>, transcribe: (string, Option<string>) -> Result<string>)
    returns (yielded: seq<Segment>, err: Option<Error>)
    modifies segments
    ensures |yielded| <= |segments| && yielded == segments[..|yielded|]
    ensures err.None? <==> |yielded| == |segments|
    ensures err.Some? ==>
      var s := segments[|yielded|];
      if old(s.audio).None? then err.value == FileNotFound(NoAudioMessage)
      else transcribe(old(s.audio).value, lang).Failure? && err.value == transcribe(old(s.audio).value, lang).error
    ensures forall i :: 0 <= i < |segments| ==> SameButText(segments[i].Value(), old(segments[i].Value()))
    ensures forall i :: 0 <= i < |segments| && segments[i] in yielded ==>
      old(segments[i].audio).Some? && transcribe(old(segments[i].audio).value, lang).Success?
      && segments[i].text == transcribe(old(segments[i].audio).value, lang).value
    ensures forall i :: 0 <= i < |segments| && segments[i] !in yielded ==> segments[i].text == old(segments[i].text)
  {
    yielded := [];
    var k := 0;
    while k < |segments|
      invariant 0 <= k <= |segments| && yielded == segments[..k]
      invariant forall i :: 0 <= i < |segments| ==> SameButText(segments[i].Value(), old(segments[i].Value()))
      invariant forall i :: 0 <= i < |segments| && segments[i] in yielded ==>
        old(segments[i].audio).Some? && transcribe(old(segments[i].audio).value, lang).Success?
        && segments[i].text == transcribe(old(segments[i].audio).value, lang).value
      invariant forall i :: 0 <= i < |segments| && segments[i] !in yielded ==> segments[i].text == old(segments[i].text)
    {
      var seg := segments[k];
      if seg.audio.None? {
        return yielded, Some(FileNotFound(NoAudioMessage));
      }
      var text := transcribe(seg.audio.value, lang);
      if text.Failure? {
        return yielded, Some(text.error);
      }
      seg.text := text.value;
      assert segments[..k + 1] == yielded + [seg];
      yielded := yielded + [seg];
      k := k + 1;
    }
    assert segments[..k] == segments;
    return yielded, None;
  }

  // ---------------------------------------------------------------------
  // The AI transcriber

  /** `AIAPITranscriber.default_chunk`: clips per request. */
  const TranscriberChunk: int := 40

  /** The fixed sentences of the transcriber's prompt: the class attribute
      `base_prompt`, the two halves of the language sentence, the response
      rules and the lead-in of the outline block. */
  datatype Wording = Wording(base: string, languageLead: string, languageTail: string, rules: string, outlineLead: string)

  const TranscriberWording: Wording := Wording(
    "You will receive multiple audio clips. Return a JSON array of objects with `index` and `text` fields in the same order. Transcribe each clip verbatim (no paraphrasing). Omit non-speech clips or return empty text.",
    " Primary language is ",
    ", but audio may include other languages.",
    " Each object's `text` must be the transcription of that specific clip, with no labels or formatting. Respond as plain JSON text only; do not include markdown or code fences such as ``` or other wrappers.\nRespond with JSON array of objects: [{\"index\": <clip index>, \"text\": <transcription>}, ...].",
    "Outline to guide transcription (context only). *Use the outline only to make minor corrections to what you hear in the audio (for example: fix homophones, obvious mis-hearings, or minor punctuation). Do NOT use the outline or any external knowledge to create or add words that are not present in the audio*:\n")

  /** The instruction text of `_build_prompt`, with the language sentence
      only when `lang` is truthy. */
  function InstructionText(w: Wording, lang: Option<string>): string {
    w.base + (if Truthy(lang) then w.languageLead + lang.value + w.languageTail else "") + w.rules
  }

  /** `_build_prompt`: the instruction text, then the outline block and the
      caller's instructions, each only when truthy. */
  function BuildPrompt(w: Wording, lang: Option<string>, outline: Option<string>, prompt: Option<string>): (r: seq<string>)
    ensures |r| == 1 + (if Truthy(outline) then 1 else 0) + (if Truthy(prompt) then 1 else 0)
    ensures r[0] == InstructionText(w, lang)
    ensures Truthy(outline) ==> r[1] == w.outlineLead + outline.value
    ensures Truthy(prompt) ==> r[|r| - 1] == AdditionalInstructions + prompt.value
  {
    [InstructionText(w, lang)] + (if Truthy(outline) then [w.outlineLead + outline.value] else [])
    + (if Truthy(prompt) then [AdditionalInstructions + prompt.value] else [])
  }

  /** The instruction text starts with the base prompt and ends with the
      response rules; without a language it is just those two, and with one
      it names the language right after the sentence's lead-in. */
  lemma InstructionTextSpec(w: Wording, lang: Option<string>)
    ensures var t := InstructionText(w, lang);
      && |w.base| + |w.rules| <= |t|
      && t[..|w.base|] == w.base
      && t[|t| - |w.rules|..] == w.rules
      && (!Truthy(lang) ==> t == w.base + w.rules)
      && (Truthy(lang) ==>
            var at := |w.base| + |w.languageLead|;
            at + |lang.value| <= |t| && t[at..at + |lang.value|] == lang.value)
  {
    var hint := if Truthy(lang) then w.languageLead + lang.value + w.languageTail else "";
    var t := InstructionText(w, lang);
    assert t == w.base + (hint + w.rules);
    assert t[..|w.base|] == w.base;
    assert t == (w.base + hint) + w.rules;
    assert t[|t| - |w.rules|..] == w.rules;
    if Truthy(lang) {
      var at := |w.base| + |w.languageLead|;
      assert t == (w.base + w.languageLead) + (lang.value + (w.languageTail + w.rules));
      assert t[at..at + |lang.value|] == lang.value;
    }
  }

  /** What one provider request of the transcriber carries: the prompt list,
      the chunk's segments as they were when it was sent, and the retry count
      passed down to the request. */
  datatype TranscriptionRequest = TranscriptionRequest(prompt: seq<string>, clips: seq<SegmentValue>, retries: Option<int>)

  /** The requests for a run of chunks, one per chunk, in order. */
  function TranscriptionRequests(prompt: seq<string>, chunks: seq<seq<SegmentValue>>, retries: Option<int>)
    : (r: seq<TranscriptionRequest>)
    ensures |r| == |chunks|
    ensures forall j :: 0 <= j < |chunks| ==> r[j] == TranscriptionRequest(prompt, chunks[j], retries)
  {
    if chunks == [] then []
    else [TranscriptionRequest(prompt, chunks[0], retries)] + TranscriptionRequests(prompt, chunks[1..], retries)
  }

  class AIAPITranscriber {
    const backend: AIBackend
    const wording: Wording

    ghost predicate Valid() {
      backend.defaultChunk == TranscriberChunk
    }

    constructor (name: string, apiKey: Option<string>, apiKeyEnvVar: Option<string>)
      ensures Valid() && fresh(backend)
      ensures backend.name == name && backend.apiKey == apiKey && backend.apiKeyEnvVar == apiKeyEnvVar
      ensures backend.client == None && wording == TranscriberWording
    {
      backend := new AIBackend(name, apiKey, apiKeyEnvVar, TranscriberChunk);
      wording := TranscriberWording;
    }

    /** `AIAPITranscriber.batch_transcribe`: build the prompt, obtain the
        client (its creation, when needed, ends as `created`), then send the
        segments chunk by chunk with a fresh Usage tracker. Reply `j` is the
        provider's answer to chunk `j`; a failing request or an undecodable
        body ends the loop with that exception. After each decoded chunk its
        matched segments get their stripped texts, a present Usage is added
        to the running totals and exported into `stats`, and the chunk's
        segments are yielded, so `yielded` is the completed chunks in order
        (see AI.YieldedChunks). `done` counts the completed chunks. */
    method BatchTranscribe(segments: seq<Segment>, lang: Option<string>, stats: Stats?, chunk: Option<int>,
                           outline: Option<string>, prompt: Option<string>, retries: Option<int>,
                           created: Result<Option<Client>>, replies: nat -> Reply)
      returns (yielded: seq<Segment>, err: Option<Error>, requests: seq<TranscriptionRequest>, done: nat)
      requires Valid() && Distinct(segments)
      modifies segments, stats, backend
      ensures Valid()
      ensures backend.creations == old(backend.creations) + (if old(backend.client).None? then 1 else 0)
      ensures old(backend.client).Some? ==> backend.client == old(backend.client)
      ensures old(backend.client).None? && created.Success? ==> backend.client == created.value
      ensures old(backend.client).None? && created.Failure? ==>
        && err == Some(created.error) && yielded == [] && requests == [] && done == 0
        && backend.client == old(backend.client)
        && Values(segments) == old(Values(segments))
        && (stats != null ==> stats.entries == old(stats.entries))
      ensures old(backend.client).Some? || created.Success? ==>
        var size := ChunkSize(chunk, TranscriberChunk);
        var count := ChunkCount(|segments|, size);
        && done == DoneChunks(replies, count)
        && yielded == segments[..Min(Offset(done, size), |segments|)]
        && (err.None? <==> done == count)
        && (err.None? ==> yielded == segments)
        && (err.Some? ==> err.value == ReplyError(replies(done)))
        && requests == TranscriptionRequests(BuildPrompt(wording, lang, outline, prompt),
                                             Chunks(old(Values(segments)), size)[..if done < count then done + 1 else done],
                                             retries)
        && Values(segments) == Chunked(old(Values(segments)), size, replies, RuleOf(TextUpdate), done)
        && (stats != null ==> stats.entries == ExportAll(old(stats.entries), RunningTotals(UsageScript(replies, done))))
    {
      ghost var olds := Values(segments);
      ghost var entries := if stats != null then stats.entries else map[];
      var size := ChunkSize(chunk, backend.defaultChunk);
      var prompts := BuildPrompt(wording, lang, outline, prompt);
      var client := backend.EnsureClient(created);
      if client.Failure? {
        return [], Some(client.error), [], 0;
      }
      assert Values(segments) == olds && (stats != null ==> stats.entries == entries);
      var sent;
      yielded, err, sent, done := RunChunks(segments, size, TextUpdate, RuleOf(TextUpdate), stats, replies);
      requests := TranscriptionRequests(prompts, sent, retries);
    }

    /** `AIAPITranscriber.transcribe`: a one-segment batch (index 1, times 0,
        the clip's path) with the default chunk and no outline, prompt or
        retry count; the result is that segment's text after parsing, hence
        "" when the response has no entry with index 1. */
    method Transcribe(audioPath: string, lang: Option<string>, stats: Stats?,
                      created: Result<Option<Client>>, replies: nat -> Reply)
      returns (r: Result<string>, requests: seq<TranscriptionRequest>)
      requires Valid()
      modifies stats, backend
      ensures Valid()
      ensures backend.creations == old(backend.creations) + (if old(backend.client).None? then 1 else 0)
      ensures old(backend.client).Some? ==> backend.client == old(backend.client)
      ensures old(backend.client).None? ==> backend.client == if created.Success? then created.value else None
      ensures old(backend.client).None? && created.Failure? ==> r == Failure(created.error) && requests == []
      ensures stats != null && ((old(backend.client).None? && created.Failure?) || !Succeeds(replies(0))) ==>
        stats.entries == old(stats.entries)
      ensures old(backend.client).Some? || created.Success? ==>
        var clip := SegmentValue(1, 0.0, 0.0, "", Some(audioPath));
        && requests == [TranscriptionRequest(BuildPrompt(wording, lang, None, None), [clip], None)]
        && (Succeeds(replies(0)) ==> r == Success(ApplyText(clip, EntriesOf(replies(0))).text))
        && (!Succeeds(replies(0)) ==> r == Failure(ReplyError(replies(0))))
        && (stats != null && Succeeds(replies(0)) ==>
              stats.entries == ExportAll(old(stats.entries), RunningTotals([replies(0).usage])))
    {
      var seg := new Segment(1, 0.0, 0.0, "", Some(audioPath));
      ghost var clip := seg.Value();
      assert Values([seg]) == [clip];
      OneClip(clip, replies);
      var yielded, err, done;
      yielded, err, requests, done := BatchTranscribe([seg], lang, stats, None, None, None, None, created, replies);
      if err.Some? {
        return Failure(err.value), requests;
      }
      assert yielded == [seg] && Values([seg])[0] == seg.Value();
      r := Success(if yielded != [] then yielded[0].text else "");
    }
  }

  /** A one-clip batch: one chunk, and its only segment takes the text rule
      with reply 0. */
  lemma OneClip(clip: SegmentValue, replies: nat -> Reply)
    ensures ChunkCount(1, TranscriberChunk) == 1
    ensures Chunks([clip], TranscriberChunk) == [[clip]]
    ensures DoneChunks(replies, 1) == (if Succeeds(replies(0)) then 1 else 0)
    ensures Succeeds(replies(0)) ==> UsageScript(replies, 1) == [replies(0).usage]
    ensures Chunked([clip], TranscriberChunk, replies, RuleOf(TextUpdate), 1) == [ApplyText(clip, EntriesOf(replies(0)))]
  {
    SliceSpec([clip], 0, TranscriberChunk);
    assert Chunks([clip], TranscriberChunk)[0] == Slice([clip], 0, TranscriberChunk);
  }
}
