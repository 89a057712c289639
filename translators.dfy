// Translation (audio2sub/translators/base.py): the AI translator sends the
// segments' indexed texts chunk by chunk with a prompt naming both
// languages, writes the stripped translations back into the segments and
// keeps a running token count.
module Translators {
  import opened Common
  import opened Entries
  import opened AI

  /** The fixed parts of the translator's prompt: the class attribute
      `base_prompt` cut at its two placeholders `{src_lang}` and
      `{dst_lang}`, and the response rules `_build_prompt` appends. */
  datatype Wording = Wording(head: string, mid: string, tail: string, rules: string)

  const TranslatorWording: Wording := Wording(
    "You are a professional subtitle translator. You will receive subtitle segments as a JSON array of objects with `index` and `text` fields. Translate each segment's text from ",
    " to ",
    ". Return a JSON array of objects with `index` and `text` fields in the same order. Preserve the meaning, tone, and natural expression. Do not add, remove, or merge segments.",
    " Each object's `text` must be the translation of the corresponding input segment. Respond as plain JSON text only; do not include markdown or code fences such as ``` or other wrappers.\nRespond with JSON array of objects: [{\"index\": <segment index>, \"text\": <translated text>}, ...].")

  /** `base_prompt.format(src_lang=..., dst_lang=...)` followed by the rules.
      `str.format` inserts the values as they are, so braces in a language
      name are not interpreted. */
  function InstructionText(w: Wording, src: string, dst: string): string {
    w.head + src + w.mid + dst + w.tail + w.rules
  }

  /** `_build_prompt`: the instruction text, then the caller's instructions
      only when truthy. */
  function BuildPrompt(w: Wording, src: string, dst: string, prompt: Option<string>): (r: seq<string>)
    ensures |r| == 1 + (if Truthy(prompt) then 1 else 0)
    ensures r[0] == InstructionText(w, src, dst)
    ensures Truthy(prompt) ==> r[1] == AdditionalInstructions + prompt.value
  {
    [InstructionText(w, src, dst)] + (if Truthy(prompt) then [AdditionalInstructions + prompt.value] else [])
  }

  /** The instruction text starts with the base prompt's lead-in and ends
      with the rules; the source language sits right after the lead-in and
      the target language right after the word between them. */
  lemma InstructionTextSpec(w: Wording, src: string, dst: string)
    ensures var t := InstructionText(w, src, dst);
      var at := |w.head| + |src| + |w.mid|;
      && at + |dst| + |w.tail| + |w.rules| == |t|
      && t[..|w.head|] == w.head
      && t[|w.head|..|w.head| + |src|] == src
      && t[|w.head| + |src|..at] == w.mid
      && t[at..at + |dst|] == dst
      && t[|t| - |w.rules|..] == w.rules
  {
    var t := InstructionText(w, src, dst);
    var at := |w.head| + |src| + |w.mid|;
    assert t == w.head + (src + (w.mid + (dst + (w.tail + w.rules))));
    assert t[|w.head|..] == src + (w.mid + (dst + (w.tail + w.rules)));
    assert t[|w.head| + |src|..] == w.mid + (dst + (w.tail + w.rules));
    assert t[at..] == dst + (w.tail + w.rules);
    assert t == (w.head + src + w.mid + dst + w.tail) + w.rules;
  }

  /** What one provider request of the translator carries: the prompt list
      and the chunk's `{index, text}` objects as they were when it was sent. */
  datatype TranslationRequest = TranslationRequest(prompt: seq<string>, input: seq<IndexedText>)

  /** The requests for a run of chunks, one per chunk, in order. */
  function TranslationRequests(prompt: seq<string>, chunks: seq<seq<SegmentValue>>): (r: seq<TranslationRequest>)
    ensures |r| == |chunks|
    ensures forall j :: 0 <= j < |chunks| ==> r[j] == TranslationRequest(prompt, TextPayload(chunks[j]))
  {
    if chunks == [] then []
    else [TranslationRequest(prompt, TextPayload(chunks[0]))] + TranslationRequests(prompt, chunks[1..])
  }

  class AITranslator {
    const backend: AIBackend
    const wording: Wording

    ghost predicate Valid() {
      backend.defaultChunk == DefaultChunk
    }

    constructor (name: string, apiKey: Option<string>, apiKeyEnvVar: Option<string>)
      ensures Valid() && fresh(backend)
      ensures backend.name == name && backend.apiKey == apiKey && backend.apiKeyEnvVar == apiKeyEnvVar
      ensures backend.client == None && wording == TranslatorWording
    {
      backend := new AIBackend(name, apiKey, apiKeyEnvVar, DefaultChunk);
      wording := TranslatorWording;
    }

    /** `AITranslator.translate`: build the prompt, obtain the client (its
        creation, when needed, ends as `created`), then send the segments
        chunk by chunk. Reply `j` answers chunk `j`; a failing request or an
        undecodable body ends the call with that exception. Each decoded
        chunk's matched segments get the stripped translated text, a present
        Usage is added and exported into `stats`, and the chunk joins the
        result, which is the input list itself once every chunk completes.
        No input means no request at all. */
    method Translate(segments: seq<Segment>, src: string, dst: string, stats: Stats?, chunk: Option<int>,
                     prompt: Option<string>, created: Result<Option<Client>>, replies: nat -> Reply)
      returns (result: seq<Segment>, err: Option<Error>, requests: seq<TranslationRequest>, done: nat)
      requires Valid() && Distinct(segments)
      modifies segments, stats, backend
      ensures Valid()
      ensures backend.creations == old(backend.creations) + (if old(backend.client).None? then 1 else 0)
      ensures old(backend.client).Some? ==> backend.client == old(backend.client)
      ensures old(backend.client).None? && created.Success? ==> backend.client == created.value
      ensures old(backend.client).None? && created.Failure? ==>
        && err == Some(created.error) && result == [] && requests == [] && done == 0
        && backend.client == old(backend.client)
        && Values(segments) == old(Values(segments))
        && (stats != null ==> stats.entries == old(stats.entries))
      ensures old(backend.client).Some? || created.Success? ==>
        var size := ChunkSize(chunk, DefaultChunk);
        var count := ChunkCount(|segments|, size);
        && done == DoneChunks(replies, count)
        && result == segments[..Min(Offset(done, size), |segments|)]
        && (err.None? <==> done == count)
        && (err.None? ==> result == segments)
        && (err.Some? ==> err.value == ReplyError(replies(done)))
        && (|segments| == 0 ==> err.None? && requests == [])
        && requests == TranslationRequests(BuildPrompt(wording, src, dst, prompt),
                                           Chunks(old(Values(segments)), size)[..if done < count then done + 1 else done])
        && Values(segments) == Chunked(old(Values(segments)), size, replies, RuleOf(TextUpdate), done)
        && (stats != null ==> stats.entries == ExportAll(old(stats.entries), RunningTotals(UsageScript(replies, done))))
    {
      ghost var olds := Values(segments);
      ghost var entries := if stats != null then stats.entries else map[];
      var size := ChunkSize(chunk, backend.defaultChunk);
      var prompts := BuildPrompt(wording, src, dst, prompt);
      var client := backend.EnsureClient(created);
      if client.Failure? {
        return [], Some(client.error), [], 0;
      }
      assert Values(segments) == olds && (stats != null ==> stats.entries == entries);
      var sent;
      result, err, sent, done := RunChunks(segments, size, TextUpdate, RuleOf(TextUpdate), stats, replies);
      requests := TranslationRequests(prompts, sent);
    }
  }
}
