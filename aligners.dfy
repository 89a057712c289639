// Alignment (audio2sub/aligners/base.py): the AI aligner sends the segments
// chunk by chunk, each time together with the whole reference list, and
// copies the timings (and a text, when given) the provider returns into
// the segments.
module Aligners {
  import opened Common
  import opened Entries
  import opened AI

  /** `_iter_alignment_chunks` on the segment side (every chunk is paired
      with the whole reference): one chunk holding everything when the size
      is not positive or covers the list, the empty list included;
      otherwise the chunks of `_iter_chunks`. */
  function AlignmentChunks<T>(items: seq<T>, size: int): seq<seq<T>> {
    if size <= 0 || size >= |items| then [items] else Chunks(items, size)
  }

  /** The chunks give back the list in order; a size that covers the list
      gives exactly one chunk; for a non-empty list and a positive size they
      are the ordinary chunks, each of at most `size` items. */
  lemma AlignmentChunksSpec<T>(items: seq<T>, size: int)
    ensures Flatten(AlignmentChunks(items, size)) == items
    ensures size <= 0 || size >= |items| ==> AlignmentChunks(items, size) == [items]
    ensures size > 0 && |items| > 0 ==> AlignmentChunks(items, size) == Chunks(items, size)
    ensures size > 0 && |items| > 0 ==>
      forall k :: 0 <= k < |AlignmentChunks(items, size)| ==> 0 < |AlignmentChunks(items, size)[k]| <= size
  {
    if size <= 0 || size >= |items| {
      assert Flatten([items]) == items + Flatten([]);
      if size > 0 && |items| > 0 {
        SliceSpec(items, 0, size);
        assert Chunks(items, size)[0] == Slice(items, 0, size);
      }
    } else {
      ChunksPartition(items, size);
    }
    if size > 0 && |items| > 0 {
      ChunkLengths(items, size);
    }
  }

  /** The fixed parts of the aligner's prompt: the class attribute
      `base_prompt`, the lead-ins of the two language sentences and the
      stop ending each, and the response rules. */
  datatype Wording = Wording(base: string, srcLead: string, refLead: string, stop: string, rules: string)

  const AlignerWording: Wording := Wording(
    "You are a professional subtitle alignment tool. You will receive two sets of subtitles as JSON:\n1. \"segments\": Subtitles whose timing needs to be corrected.\n2. \"reference\": Reference subtitles with correct timing.\n\nThe two sets correspond to the same content but may be in different languages. Your task is to assign correct timing from the reference subtitles to the segments.\n\nReturn a JSON array of objects with `index`, `start`, `end`, and `text` fields:\n- `index`: the index from the segments to align\n- `text`: the text from the segments to align (unchanged)\n- `start` and `end`: aligned timing in seconds (as float numbers)\n",
    "The segments to align are in ",
    "The reference subtitles are in ",
    ". ",
    "Respond as plain JSON text only; do not include markdown or code fences such as ``` or other wrappers.\nRespond with JSON array: [{\"index\": <index>, \"start\": <seconds>, \"end\": <seconds>, \"text\": <original text>}, ...].")

  /** One optional language sentence. */
  function Sentence(lead: string, lang: Option<string>, stop: string): string {
    if Truthy(lang) then lead + lang.value + stop else ""
  }

  /** The instruction text of `_build_prompt`: each language sentence only
      when its language is truthy. */
  function InstructionText(w: Wording, src: Option<string>, ref: Option<string>): string {
    w.base + Sentence(w.srcLead, src, w.stop) + Sentence(w.refLead, ref, w.stop) + w.rules
  }

  /** `_build_prompt`: the instruction text, then the caller's instructions
      only when truthy. */
  function BuildPrompt(w: Wording, src: Option<string>, ref: Option<string>, prompt: Option<string>): (r: seq<string>)
    ensures |r| == 1 + (if Truthy(prompt) then 1 else 0)
    ensures r[0] == InstructionText(w, src, ref)
    ensures Truthy(prompt) ==> r[1] == AdditionalInstructions + prompt.value
  {
    [InstructionText(w, src, ref)] + (if Truthy(prompt) then [AdditionalInstructions + prompt.value] else [])
  }

  /** The instruction text starts with the base prompt and ends with the
      rules, and with neither language it is just those two. */
  lemma InstructionTextEnds(w: Wording, src: Option<string>, ref: Option<string>)
    ensures var t := InstructionText(w, src, ref);
      && |w.base| + |w.rules| <= |t|
      && t[..|w.base|] == w.base
      && t[|t| - |w.rules|..] == w.rules
      && (!Truthy(src) && !Truthy(ref) ==> t == w.base + w.rules)
  {
    var s, r := Sentence(w.srcLead, src, w.stop), Sentence(w.refLead, ref, w.stop);
    var t := InstructionText(w, src, ref);
    assert t == w.base + (s + r + w.rules);
    assert t[..|w.base|] == w.base;
    assert t[|t| - |w.rules|..] == w.rules;
  }

  /** A truthy source language follows its lead-in right after the base prompt. */
  lemma InstructionTextSource(w: Wording, src: Option<string>, ref: Option<string>)
    requires Truthy(src)
    ensures var t := InstructionText(w, src, ref);
      var at := |w.base| + |w.srcLead|;
      && at + |src.value| <= |t| && t[..at] == w.base + w.srcLead && t[at..at + |src.value|] == src.value
  {
    var r := Sentence(w.refLead, ref, w.stop);
    var t := InstructionText(w, src, ref);
    var at := |w.base| + |w.srcLead|;
    assert t == (w.base + w.srcLead) + (src.value + (w.stop + r + w.rules));
    assert t[at..] == src.value + (w.stop + r + w.rules);
  }

  /** A truthy reference language follows its lead-in and ends right
      before the stop that precedes the rules. */
  lemma InstructionTextReference(w: Wording, src: Option<string>, ref: Option<string>)
    requires Truthy(ref)
    ensures var t := InstructionText(w, src, ref);
      var at := |t| - |w.rules| - |w.stop| - |ref.value|;
      && |w.refLead| <= at && t[at - |w.refLead|..at] == w.refLead && t[at..at + |ref.value|] == ref.value
  {
    var s := Sentence(w.srcLead, src, w.stop);
    var t := InstructionText(w, src, ref);
    var at := |t| - |w.rules| - |w.stop| - |ref.value|;
    assert t == (w.base + s) + (w.refLead + (ref.value + (w.stop + w.rules)));
    assert t[at - |w.refLead|..] == w.refLead + (ref.value + (w.stop + w.rules));
  }

  /** One `{"index", "start", "end", "text"}` object of the reference payload. */
  datatype TimedText = TimedText(index: int, start: real, end: real, text: string)

  /** The reference payload: every reference segment's index, times and text. */
  function ReferencePayload(vs: seq<SegmentValue>): (r: seq<TimedText>)
    ensures |r| == |vs|
    ensures forall i :: 0 <= i < |vs| ==> r[i] == TimedText(vs[i].index, vs[i].start, vs[i].end, vs[i].text)
  {
    if vs == [] then [] else [TimedText(vs[0].index, vs[0].start, vs[0].end, vs[0].text)] + ReferencePayload(vs[1..])
  }

  /** What one provider request of the aligner carries: the prompt list, the
      chunk's `{index, text}` objects as sent, and the whole reference. */
  datatype AlignmentRequest = AlignmentRequest(prompt: seq<string>, segments: seq<IndexedText>, reference: seq<TimedText>)

  /** The requests for a run of chunks, one per chunk, in order, each with
      the same reference payload. */
  function AlignmentRequests(prompt: seq<string>, chunks: seq<seq<SegmentValue>>, reference: seq<TimedText>)
    : (r: seq<AlignmentRequest>)
    ensures |r| == |chunks|
    ensures forall j :: 0 <= j < |chunks| ==> r[j] == AlignmentRequest(prompt, TextPayload(chunks[j]), reference)
  {
    if chunks == [] then []
    else [AlignmentRequest(prompt, TextPayload(chunks[0]), reference)] + AlignmentRequests(prompt, chunks[1..], reference)
  }

  /** No object of `reference` is one of `segments`. */
  predicate Apart(segments: seq<Segment>, reference: seq<Segment>) {
    forall r :: r in reference ==> r !in segments
  }

  class AIAligner {
    const backend: AIBackend
    const wording: Wording

    ghost predicate Valid() {
      backend.defaultChunk == DefaultChunk
    }

    constructor (name: string, apiKey: Option<string>, apiKeyEnvVar: Option<string>)
      ensures Valid() && fresh(backend)
      ensures backend.name == name && backend.apiKey == apiKey && backend.apiKeyEnvVar == apiKeyEnvVar
      ensures backend.client == None && wording == AlignerWording
    {
      backend := new AIBackend(name, apiKey, apiKeyEnvVar, DefaultChunk);
      wording := AlignerWording;
    }

    /** `AIAligner.align`: build the prompt, obtain the client (its
        creation, when needed, ends as `created`), then send the alignment
        chunks, each with the whole reference, with the outcome AlignOutcome
        describes; a present Usage is added and exported into `stats` after
        each decoded chunk. The reference is only read. */
    method Align(segments: seq<Segment>, reference: seq<Segment>, src: Option<string>, ref: Option<string>,
                 stats: Stats?, chunk: Option<int>, prompt: Option<string>,
                 created: Result<Option<Client>>, replies: nat -> Reply)
      returns (result: seq<Segment>, err: Option<Error>, requests: seq<AlignmentRequest>, done: nat)
      requires Valid() && Distinct(segments) && Apart(segments, reference)
      modifies segments, stats, backend
      ensures Valid()
      ensures backend.creations == old(backend.creations) + (if old(backend.client).None? then 1 else 0)
      ensures old(backend.client).Some? ==> backend.client == old(backend.client)
      ensures old(backend.client).None? && created.Success? ==> backend.client == created.value
      ensures old(backend.client).None? && created.Failure? ==>
        && err == Some(created.error) && result == [] && requests == [] && done == 0
        && backend.client == old(backend.client)
        && Values(segments) == old(Values(segments))
        && (stats != null ==> stats.entries == old(stats.entries))
      ensures old(backend.client).Some? || created.Success? ==>
        && AlignOutcome(segments, old(Values(segments)), Values(segments), ChunkSize(chunk, DefaultChunk), replies,
                        BuildPrompt(wording, src, ref, prompt), ReferencePayload(old(Values(reference))),
                        result, err, requests, done)
        && (stats != null ==> stats.entries == ExportAll(old(stats.entries), RunningTotals(UsageScript(replies, done))))
      ensures Values(reference) == old(Values(reference))
    {
      ghost var olds := Values(segments);
      ghost var refs := Values(reference);
      ghost var entries := if stats != null then stats.entries else map[];
      var prompts := BuildPrompt(wording, src, ref, prompt);
      var client := backend.EnsureClient(created);
      var size := ChunkSize(chunk, backend.defaultChunk);
      if client.Failure? {
        return [], Some(client.error), [], 0;
      }
      assert Values(segments) == olds && Values(reference) == refs && (stats != null ==> stats.entries == entries);
      result, err, requests, done := AlignChunks(segments, reference, prompts, size, stats, replies);
    }
  }

  /** The outcome of sending the alignment chunks of a list whose values go
      from `olds` to `news`, each request carrying `prompts` and the
      reference payload `refData`. Reply `j` answers chunk `j`; `done`
      chunks complete before the first failing request or undecodable body,
      whose exception ends the call. Each decoded chunk's matched segments
      take the returned start and end (kept when absent) and the returned
      text when present; the chunk then joins `result`, which is the input
      list itself once every chunk completes. An empty list is still sent
      once, as one empty chunk. */
  ghost predicate AlignOutcome(segments: seq<Segment>, olds: seq<SegmentValue>, news: seq<SegmentValue>, size: int,
                               replies: nat -> Reply, prompts: seq<string>, refData: seq<TimedText>,
                               result: seq<Segment>, err: Option<Error>, requests: seq<AlignmentRequest>, done: nat)
  {
    && size > 0
    && var chunks := AlignmentChunks(olds, size);
    && done == DoneChunks(replies, |chunks|)
    && result == segments[..Min(Offset(done, size), |segments|)]
    && (err.None? <==> done == |chunks|)
    && (err.None? ==> result == segments)
    && (err.Some? ==> err.value == ReplyError(replies(done)))
    && requests == AlignmentRequests(prompts, chunks[..if done < |chunks| then done + 1 else done], refData)
    && news == Chunked(olds, size, replies, RuleOf(TimingUpdate), done)
  }

  /** The part of `align` after the client is obtained. `align` builds
      `ref_data` anew for each chunk; no reference object is one of the
      segments the chunks update, so every chunk gets the same payload. */
  method AlignChunks(segments: seq<Segment>, reference: seq<Segment>, prompts: seq<string>, size: int, stats: Stats?,
                     replies: nat -> Reply)
    returns (result: seq<Segment>, err: Option<Error>, requests: seq<AlignmentRequest>, done: nat)
    requires size > 0 && Distinct(segments) && Apart(segments, reference)
    modifies segments, stats
    ensures AlignOutcome(segments, old(Values(segments)), Values(segments), size, replies, prompts,
                         ReferencePayload(old(Values(reference))), result, err, requests, done)
    ensures stats != null ==> stats.entries == ExportAll(old(stats.entries), RunningTotals(UsageScript(replies, done)))
    ensures Values(reference) == old(Values(reference))
  {
    ghost var refs := Values(reference);
    var refData := ReferencePayload(Values(reference));
    if |segments| == 0 {
      result, err, requests, done := AlignEmpty(segments, prompts, refData, size, stats, replies);
    } else {
      result, err, requests, done := AlignRun(segments, prompts, refData, size, stats, replies);
    }
    forall i | 0 <= i < |reference| ensures reference[i].Value() == refs[i] {
      assert reference[i] !in segments;
    }
  }

  /** A non-empty list: the alignment chunks are the ordinary ones, so this
      is the shared chunk run with the timing rule. */
  method AlignRun(segments: seq<Segment>, prompts: seq<string>, refData: seq<TimedText>, size: int, stats: Stats?,
                  replies: nat -> Reply)
    returns (result: seq<Segment>, err: Option<Error>, requests: seq<AlignmentRequest>, done: nat)
    requires size > 0 && |segments| > 0 && Distinct(segments)
    modifies segments, stats
    ensures AlignOutcome(segments, old(Values(segments)), Values(segments), size, replies, prompts, refData, result, err, requests, done)
    ensures stats != null ==> stats.entries == ExportAll(old(stats.entries), RunningTotals(UsageScript(replies, done)))
  {
    AlignmentChunksSpec(Values(segments), size);
    var sent;
    result, err, sent, done := RunChunks(segments, size, TimingUpdate, RuleOf(TimingUpdate), stats, replies);
    requests := AlignmentRequests(prompts, sent, refData);
  }

  /** An empty segment list: `_iter_alignment_chunks` still yields it once,
      so one request is sent and its reply still has to decode. */
  method AlignEmpty(segments: seq<Segment>, prompts: seq<string>, refData: seq<TimedText>, size: int, stats: Stats?,
                    replies: nat -> Reply)
    returns (result: seq<Segment>, err: Option<Error>, requests: seq<AlignmentRequest>, done: nat)
    requires size > 0 && |segments| == 0
    modifies stats
    ensures requests == [AlignmentRequest(prompts, [], refData)]
    ensures AlignOutcome(segments, Values(segments), Values(segments), size, replies, prompts, refData, result, err, requests, done)
    ensures stats != null ==> stats.entries == ExportAll(old(stats.entries), RunningTotals(UsageScript(replies, done)))
  {
    ghost var entries := if stats != null then stats.entries else map[];
    var tracker := new Usage();
    requests := [AlignmentRequest(prompts, [], refData)];
    result := [];
    var reply := replies(0);
    assert AlignmentChunks(Values(segments), size) == [[]];
    if !Succeeds(reply) {
      return result, Some(ReplyError(reply)), requests, 0;
    }
    AddUsage(tracker, reply.usage, stats, entries, []);
    assert UsageScript(replies, 1) == [] + [reply.usage];
    return result, None, requests, 1;
  }
}
