// The transcription pipeline (audio2sub/transcribe.py): check the input,
// convert it, detect speech, renumber the segments and cut one clip per
// segment, run the batch transcription, report progress as segments come
// back and keep those with non-blank text. The conversion, the detector and
// the cutter are foreign calls: the model records each call in a trace and
// takes the detector's segments as a parameter.
module Pipeline {
  import opened Common
  import opened Text
  import opened Entries
  import opened AI
  import opened Transcribers

  const NotFoundPrefix: string := "Input media not found: "
  const NoSpeechMessage: string := "No speech detected by VAD"
  const NoLinesMessage: string := "Transcription produced no subtitle lines."

  const ConvertingStatus: string := "Converting audio..."
  const DetectingStatus: string := "Running voice activity detection (VAD)..."
  const CuttingStatus: string := "Cutting audio into clips..."
  const StartingStatus: string := "Starting transcription..."
  const CompletedStatus: string := "Transcription completed."

  const ProgressName: string := "transcription"
  const ProgressUnit: string := "seg"

  function DetectedStatus(n: nat): string {
    "Detected " + NatToString(n) + " speech segment(s)."
  }

  /** A reporter callback: `reporter("status", message=...)` or
      `reporter("progress", name=..., current=..., total=..., unit=...)`. */
  datatype Event = Status(message: string) | Progress(name: string, current: nat, total: nat, unit: string)

  /** What the pipeline does that can be observed, in order. */
  datatype Step =
    | Report(event: Event)
    | Convert(media: string, wav: string)
    | Detect(wav: string)
    | Cut(wav: string, start: real, end: real, clip: string)
    | BatchTranscription(segments: nat)

  // ---------------------------------------------------------------------
  // Paths

  /** `Path(tmpdir) / "audio.wav"`. */
  function WavPath(dir: string): string {
    dir + "/audio.wav"
  }

  /** `Path(tmpdir) / f"segment_{idx}.wav"`. */
  function ClipPath(dir: string, i: nat): string {
    dir + "/segment_" + NatToString(i) + ".wav"
  }

  /** Different segment numbers give different clip files. */
  lemma ClipPathInjective(dir: string, i: nat, j: nat)
    requires ClipPath(dir, i) == ClipPath(dir, j)
    ensures i == j
  {
    var p := dir + "/segment_";
    var a, b := ClipPath(dir, i), ClipPath(dir, j);
    assert a == p + NatToString(i) + ".wav" && b == p + NatToString(j) + ".wav";
    assert a[|p|..|a| - 4] == NatToString(i);
    assert b[|p|..|b| - 4] == NatToString(j);
    NatToStringInjective(i, j);
  }

  // ---------------------------------------------------------------------
  // Reporting

  /** `_output(message)`: a status callback only when there is a reporter. */
  function Say(reporting: bool, message: string): seq<Step> {
    if reporting then [Report(Status(message))] else []
  }

  /** `_progress("transcription", k, n, unit="seg")`. */
  function Tick(reporting: bool, k: nat, n: nat): seq<Step> {
    if reporting then [Report(Progress(ProgressName, k, n, ProgressUnit))] else []
  }

  /** The progress callbacks after the first `k` yielded segments. */
  function Ticks(reporting: bool, k: nat, n: nat): seq<Step> {
    if !reporting || k == 0 then [] else Ticks(reporting, k - 1, n) + Tick(reporting, k, n)
  }

  /** With a reporter, the `j`-th callback after the start reports `j`
      segments done out of `n`; without one there is none. */
  lemma {:induction false} TicksSpec(reporting: bool, k: nat, n: nat)
    ensures !reporting ==> Ticks(reporting, k, n) == []
    ensures reporting ==> |Ticks(reporting, k, n)| == k
    ensures reporting ==> forall j :: 0 <= j < k ==> Ticks(reporting, k, n)[j] == Report(Progress(ProgressName, j + 1, n, ProgressUnit))
  {
    if reporting && k > 0 {
      TicksSpec(reporting, k - 1, n);
    }
  }

  /** Conversion and detection, each announced first. */
  function Prelude(reporting: bool, media: string, wav: string): seq<Step> {
    Say(reporting, ConvertingStatus) + [Convert(media, wav)] + Say(reporting, DetectingStatus) + [Detect(wav)]
  }

  // ---------------------------------------------------------------------
  // Renumbering and cutting

  /** Segment `i` after the cut loop: number `i + 1` and its clip file. */
  function ClipAt(vs: seq<SegmentValue>, dir: string, i: int): SegmentValue {
    if 0 <= i < |vs| then vs[i].(index := i + 1, audio := Some(ClipPath(dir, i + 1)))
    else SegmentValue(0, 0.0, 0.0, "", None)
  }

  function Clipped(vs: seq<SegmentValue>, dir: string): (r: seq<SegmentValue>)
    ensures |r| == |vs|
  {
    seq(|vs|, (i: int) => ClipAt(vs, dir, i))
  }

  /** After the cut loop the segments are numbered 1..N in list order, the
      detector's numbers are gone, times and texts are kept, and no two
      segments share a clip file. */
  lemma ClippedSpec(vs: seq<SegmentValue>, dir: string)
    ensures forall i :: 0 <= i < |vs| ==>
      && Clipped(vs, dir)[i].index == i + 1
      && Clipped(vs, dir)[i].audio == Some(ClipPath(dir, i + 1))
      && SameButText(Clipped(vs, dir)[i], vs[i].(index := i + 1, audio := Some(ClipPath(dir, i + 1))))
      && Clipped(vs, dir)[i].text == vs[i].text
    ensures forall i, j :: 0 <= i < j < |vs| ==> Clipped(vs, dir)[i].audio != Clipped(vs, dir)[j].audio
  {
    forall i, j | 0 <= i < j < |vs| ensures Clipped(vs, dir)[i].audio != Clipped(vs, dir)[j].audio {
      if ClipPath(dir, i + 1) == ClipPath(dir, j + 1) {
        ClipPathInjective(dir, i + 1, j + 1);
      }
    }
  }

  /** The cutter calls of the loop, one per segment in order, with the
      segment's times and its clip file. */
  function CutSteps(wav: string, vs: seq<SegmentValue>, dir: string): (r: seq<Step>)
    ensures |r| == |vs|
    ensures forall i :: 0 <= i < |vs| ==> r[i] == Cut(wav, vs[i].start, vs[i].end, ClipPath(dir, i + 1))
  {
    if vs == [] then []
    else CutSteps(wav, vs[..|vs| - 1], dir) + [Cut(wav, vs[|vs| - 1].start, vs[|vs| - 1].end, ClipPath(dir, |vs|))]
  }

  /** The cutter calls for one more segment: its own call appended. */
  lemma CutStepsSnoc(wav: string, vs: seq<SegmentValue>, dir: string, k: nat)
    requires k < |vs|
    ensures CutSteps(wav, vs[..k + 1], dir) == CutSteps(wav, vs[..k], dir) + [Cut(wav, vs[k].start, vs[k].end, ClipPath(dir, k + 1))]
  {
    assert vs[..k + 1][..k] == vs[..k];
  }

  /** One pass of the cut loop: number the segment, then attach its clip. */
  method Renumber(seg: Segment, idx: nat, dir: string)
    modifies seg
    ensures seg.Value() == old(seg.Value()).(index := idx, audio := Some(ClipPath(dir, idx)))
  {
    seg.index := idx;
    seg.audio := Some(ClipPath(dir, idx));
  }

  /** In a list without repeated objects, position `k` holds an object no
      other position holds. */
  lemma DistinctOthers(segments: seq<Segment>, k: nat)
    requires Distinct(segments) && k < |segments|
    ensures forall j :: 0 <= j < |segments| && j != k ==> segments[j] != segments[k]
  {
    forall j | 0 <= j < |segments| && j != k ensures segments[j] != segments[k] {
      if j < k { DistinctAt(segments, j, k); } else { DistinctAt(segments, k, j); }
    }
  }

  /** The loop `for idx, seg in enumerate(segments, start=1)`: attach the
      number, cut the clip from the segment's times, attach the clip path. */
  method AssignClips(segments: seq<Segment>, wav: string, dir: string) returns (cuts: seq<Step>)
    requires Distinct(segments)
    modifies segments
    ensures Values(segments) == Clipped(old(Values(segments)), dir)
    ensures cuts == CutSteps(wav, old(Values(segments)), dir)
  {
    ghost var olds := Values(segments);
    ghost var news := Clipped(olds, dir);
    cuts := [];
    var k := 0;
    while k < |segments|
      invariant 0 <= k <= |segments|
      invariant forall j :: 0 <= j < |segments| ==> segments[j].Value() == if j < k then news[j] else olds[j]
      invariant cuts == CutSteps(wav, olds[..k], dir)
    {
      cuts := ClipOne(segments, k, wav, dir, olds, news, cuts);
      k := k + 1;
    }
    assert olds[..k] == olds;
    ValuesAre(segments, news);
  }

  /** Pass `k` of the cut loop: cut segment `k`'s clip, then number it and
      attach the clip; no other segment changes. */
  method ClipOne(segments: seq<Segment>, k: nat, wav: string, dir: string,
                 ghost olds: seq<SegmentValue>, ghost news: seq<SegmentValue>, cuts: seq<Step>)
    returns (cuts': seq<Step>)
    requires Distinct(segments) && k < |segments| == |olds| && news == Clipped(olds, dir)
    requires forall j :: 0 <= j < |segments| ==> segments[j].Value() == if j < k then news[j] else olds[j]
    requires cuts == CutSteps(wav, olds[..k], dir)
    modifies segments[k]
    ensures forall j :: 0 <= j < |segments| ==> segments[j].Value() == if j < k + 1 then news[j] else olds[j]
    ensures cuts' == CutSteps(wav, olds[..k + 1], dir)
  {
    var seg := segments[k];
    assert seg.Value() == olds[k];
    CutStepsSnoc(wav, olds, dir, k);
    cuts' := cuts + [Cut(wav, seg.start, seg.end, ClipPath(dir, k + 1))];
    DistinctOthers(segments, k);
    Renumber(seg, k + 1, dir);
    assert seg.Value() == news[k];
  }

  // ---------------------------------------------------------------------
  // The transcription stage

  /** The backend `transcribe` is given: the per-clip base class, whose
      `transcribe(audio, lang)` is a function of the clip, or the AI
      transcriber with its options and the outcomes of its client creation
      and its provider requests. */
  datatype Transcriber =
    | PerClip(transcribe: (string, Option<string>) -> Result<string>)
    | Api(api: AIAPITranscriber, chunk: Option<int>, outline: Option<string>, prompt: Option<string>,
          retries: Option<int>, created: Result<Option<Client>>, replies: nat -> Reply)

  /** A positive number of chunks stops short of the list only by stopping
      inside it. */
  lemma PartialYield(n: nat, size: int, done: nat)
    requires size > 0 && done < ChunkCount(n, size)
    ensures Min(Offset(done, size), n) < n
  {
    ChunkStart(n, size, done);
  }

  /** The text rule changes nothing but texts, however many chunks it reached. */
  lemma ChunkedTextOnly(olds: seq<SegmentValue>, size: int, replies: nat -> Reply, done: nat)
    requires size > 0
    ensures TextOnly(Chunked(olds, size, replies, RuleOf(TextUpdate), done), olds)
  {
    forall i | 0 <= i < |olds| ensures SameButText(Chunked(olds, size, replies, RuleOf(TextUpdate), done)[i], olds[i]) {
      if i < Offset(done, size) {
        ApplyTextSpec(olds[i], EntriesOf(replies(ChunkOf(i, size))));
      }
    }
  }

  /** Position by position, `news` differs from `olds` at most in the texts. */
  ghost predicate TextOnly(news: seq<SegmentValue>, olds: seq<SegmentValue>) {
    |news| == |olds| && forall i :: 0 <= i < |olds| ==> SameButText(news[i], olds[i])
  }

  /** What the batch transcription makes of the segment values `olds`:
      `news` are the values after it, the first `k` segments were yielded,
      `err` is its exception, `before` the stats map it started from and
      `hadClient` whether the AI transcriber's client was already cached.
      The per-clip loop gives each yielded segment its clip's transcription,
      stops at the first segment without a clip or with a failing call, and
      leaves the stats alone. The AI transcriber raises the client's
      creation error before touching anything; otherwise it applies the
      text rule to the completed chunks, yields exactly those, and exports
      its running totals. */
  ghost predicate BatchOutcome(t: Transcriber, lang: Option<string>, olds: seq<SegmentValue>, news: seq<SegmentValue>,
                               k: nat, err: Option<Error>, hadClient: bool, stats: Stats?, before: map<string, int>)
    reads stats
  {
    && |news| == |olds| && k <= |olds|
    && (err.None? <==> k == |olds|)
    && match t
       case PerClip(transcribe) =>
         && (stats != null ==> stats.entries == before)
         && (forall i :: 0 <= i < |olds| ==> SameButText(news[i], olds[i]))
         && (forall i :: 0 <= i < k ==>
               olds[i].audio.Some? && transcribe(olds[i].audio.value, lang).Success?
               && news[i].text == transcribe(olds[i].audio.value, lang).value)
         && (forall i :: k <= i < |olds| ==> news[i].text == olds[i].text)
         && (err.Some? ==>
               if olds[k].audio.None? then err.value == FileNotFound(NoAudioMessage)
               else transcribe(olds[k].audio.value, lang).Failure? && err.value == transcribe(olds[k].audio.value, lang).error)
       case Api(_, chunk, _, _, _, created, replies) =>
         if !hadClient && created.Failure? then
           && err == Some(created.error) && k == 0 && news == olds
           && (stats != null ==> stats.entries == before)
         else
           var size := ChunkSize(chunk, TranscriberChunk);
           var count := ChunkCount(|olds|, size);
           var done := DoneChunks(replies, count);
           && k == Min(Offset(done, size), |olds|)
           && (err.None? <==> done == count)
           && (err.Some? ==> err.value == ReplyError(replies(done)))
           && news == Chunked(olds, size, replies, RuleOf(TextUpdate), done)
           && (stats != null ==> stats.entries == ExportAll(before, RunningTotals(UsageScript(replies, done))))
  }

  /** `transcriber.batch_transcribe(segments, ...)` run to its end: it
      yields a prefix of the segments, all of them unless it raises, changes
      no field but `text`, and leaves texts and stats as the transcriber's
      own loop does (BatchOutcome). */
  method RunBatch(segments: seq<Segment>, lang: Option<string>, stats: Stats?, t: Transcriber)
    returns (yielded: seq<Segment>, err: Option<Error>)
    requires |segments| > 0 && Distinct(segments) && (t.Api? ==> t.api.Valid())
    modifies segments, stats, if t.Api? then {t.api.backend} else {}
    ensures |yielded| <= |segments| && yielded == segments[..|yielded|]
    ensures err.None? <==> |yielded| == |segments|
    ensures TextOnly(Values(segments), old(Values(segments)))
    ensures BatchOutcome(t, lang, old(Values(segments)), Values(segments), |yielded|, err,
                         t.Api? && old(t.api.backend.client).Some?, stats, if stats != null then old(stats.entries) else map[])
    ensures t.Api? ==> t.api.Valid()
  {
    match t
    case PerClip(transcribe) =>
      yielded, err := RunPerClip(segments, lang, stats, transcribe);
    case Api(api, chunk, outline, prompt, retries, created, replies) =>
      yielded, err := RunApi(segments, lang, stats, t);
  }

  /** The per-clip loop of RunBatch. */
  method RunPerClip(segments: seq<Segment>, lang: Option<string>, stats: Stats?, transcribe: (string, Option<string>) -> Result<string>)
    returns (yielded: seq<Segment>, err: Option<Error>)
    requires Distinct(segments)
    modifies segments
    ensures |yielded| <= |segments| && yielded == segments[..|yielded|]
    ensures err.None? <==> |yielded| == |segments|
    ensures TextOnly(Values(segments), old(Values(segments)))
    ensures BatchOutcome(PerClip(transcribe), lang, old(Values(segments)), Values(segments), |yielded|, err,
                         false, stats, if stats != null then stats.entries else map[])
  {
    yielded, err := BatchTranscribe(segments, lang, transcribe);
    forall i | |yielded| <= i < |segments| ensures segments[i] !in yielded {
      forall j | 0 <= j < |yielded| ensures yielded[j] != segments[i] {
        DistinctAt(segments, j, i);
      }
    }
  }

  /** The AI transcriber's chunk loop of RunBatch. */
  method RunApi(segments: seq<Segment>, lang: Option<string>, stats: Stats?, t: Transcriber)
    returns (yielded: seq<Segment>, err: Option<Error>)
    requires t.Api? && |segments| > 0 && Distinct(segments) && t.api.Valid()
    modifies segments, stats, t.api.backend
    ensures |yielded| <= |segments| && yielded == segments[..|yielded|]
    ensures err.None? <==> |yielded| == |segments|
    ensures TextOnly(Values(segments), old(Values(segments)))
    ensures BatchOutcome(t, lang, old(Values(segments)), Values(segments), |yielded|, err,
                         old(t.api.backend.client).Some?, stats, if stats != null then old(stats.entries) else map[])
    ensures t.api.Valid()
  {
    ghost var olds := Values(segments);
    var requests, done;
    yielded, err, requests, done := t.api.BatchTranscribe(segments, lang, stats, t.chunk, t.outline, t.prompt, t.retries, t.created, t.replies);
    var size := ChunkSize(t.chunk, TranscriberChunk);
    if err.Some? && (old(t.api.backend.client).Some? || t.created.Success?) {
      PartialYield(|segments|, size, done);
    }
    ChunkedTextOnly(olds, size, t.replies, done);
  }

  /** The segments of `segs` whose text strips to something, in order. */
  function Kept(segs: seq<Segment>): seq<Segment>
    reads segs
  {
    if segs == [] then []
    else Kept(segs[..|segs| - 1]) + (if Strip(segs[|segs| - 1].text) != "" then [segs[|segs| - 1]] else [])
  }

  /** Every kept segment is one of the listed ones, with non-blank text. */
  lemma {:induction false} KeptSound(segs: seq<Segment>)
    ensures |Kept(segs)| <= |segs|
    ensures forall k :: 0 <= k < |Kept(segs)| ==> Kept(segs)[k] in segs && Strip(Kept(segs)[k].text) != ""
    decreases |segs|
  {
    if segs != [] {
      var init := segs[..|segs| - 1];
      KeptSound(init);
      var last := segs[|segs| - 1];
      var tail := if Strip(last.text) != "" then [last] else [];
      assert Kept(segs) == Kept(init) + tail;
      forall k | 0 <= k < |Kept(segs)| ensures Kept(segs)[k] in segs && Strip(Kept(segs)[k].text) != "" {
        if k < |Kept(init)| {
          assert Kept(segs)[k] == Kept(init)[k];
        } else {
          assert Kept(segs)[k] == last;
        }
      }
    }
  }

  /** Every listed segment with non-blank text is kept. */
  lemma KeptComplete(segs: seq<Segment>)
    ensures forall i :: 0 <= i < |segs| && Strip(segs[i].text) != "" ==> segs[i] in Kept(segs)
  {
    forall i | 0 <= i < |segs| && Strip(segs[i].text) != "" ensures segs[i] in Kept(segs) {
      KeptHas(segs, i);
    }
  }

  lemma {:induction false} KeptHas(segs: seq<Segment>, i: nat)
    requires i < |segs| && Strip(segs[i].text) != ""
    ensures segs[i] in Kept(segs)
    decreases |segs|
  {
    var init := segs[..|segs| - 1];
    if i < |init| {
      assert init[i] == segs[i];
      KeptHas(init, i);
      assert Kept(init) <= Kept(segs);
    } else {
      assert Kept(segs) == Kept(init) + [segs[i]];
    }
  }

  /** Filtering keeps the order: the kept part of a concatenation is the
      kept part of each half, one after the other. */
  lemma {:induction false} KeptConcat(a: seq<Segment>, b: seq<Segment>)
    ensures Kept(a + b) == Kept(a) + Kept(b)
    decreases |b|
  {
    if b == [] {
      assert a + b == a;
    } else {
      var b' := b[..|b| - 1];
      assert (a + b)[..|a + b| - 1] == a + b';
      KeptConcat(a, b');
    }
  }

  /** Nothing is kept exactly when every text is whitespace only. */
  lemma {:induction false} KeptEmptyIff(segs: seq<Segment>)
    ensures Kept(segs) == [] <==> forall i :: 0 <= i < |segs| ==> Strip(segs[i].text) == ""
    decreases |segs|
  {
    if segs != [] {
      var init := segs[..|segs| - 1];
      var last := segs[|segs| - 1];
      KeptEmptyIff(init);
      assert Kept(segs) == Kept(init) + (if Strip(last.text) != "" then [last] else []);
      if Kept(segs) == [] {
        forall i | 0 <= i < |segs| ensures Strip(segs[i].text) == "" {
          if i < |init| {
            assert init[i] == segs[i];
          }
        }
      } else if Strip(last.text) == "" {
        var i :| 0 <= i < |init| && Strip(init[i].text) != "";
        assert segs[i] == init[i];
      }
    }
  }

  /** The consuming loop over the generator: keep a segment when its text
      strips to something, and report progress after each one. */
  method Collect(yielded: seq<Segment>, total: nat, reporting: bool) returns (kept: seq<Segment>, ticks: seq<Step>)
    ensures kept == Kept(yielded)
    ensures ticks == Ticks(reporting, |yielded|, total)
  {
    kept, ticks := [], [];
    var completed := 0;
    while completed < |yielded|
      invariant completed <= |yielded|
      invariant kept == Kept(yielded[..completed])
      invariant ticks == Ticks(reporting, completed, total)
    {
      var seg := yielded[completed];
      assert yielded[..completed + 1][..completed] == yielded[..completed];
      if Strip(seg.text) != "" {
        kept := kept + [seg];
      }
      completed := completed + 1;
      ticks := ticks + Tick(reporting, completed, total);
    }
    assert yielded[..completed] == yielded;
  }

  // ---------------------------------------------------------------------
  // The pipeline

  /** `transcribe(input_media, detector, transcriber, lang, reporter, stats,
      transcriber_opts)`. `found` says whether the input path exists,
      `dir` is the temporary directory, `detected` is what the detector
      returns, and `reporting` says whether a reporter was passed. `trace`
      records every reporter callback, conversion, detection, cut and the
      batch transcription, in order; `yielded` are the segments the batch
      yields and `batchErr` the exception it raises, if any. */
  method Transcribe(media: string, found: bool, dir: string, detected: seq<Segment>, lang: Option<string>,
                    reporting: bool, stats: Stats?, t: Transcriber)
    returns (r: Result<seq<Segment>>, trace: seq<Step>, ghost yielded: seq<Segment>, ghost batchErr: Option<Error>)
    requires Distinct(detected) && (t.Api? ==> t.api.Valid())
    modifies detected, stats, if t.Api? then {t.api.backend} else {}
    ensures !found ==> r == Failure(FileNotFound(NotFoundPrefix + media)) && trace == []
    ensures found && |detected| == 0 ==> r == Failure(Runtime(NoSpeechMessage)) && trace == Prelude(reporting, media, WavPath(dir))
    ensures !found || |detected| == 0 ==>
      && Values(detected) == old(Values(detected))
      && (stats != null ==> stats.entries == old(stats.entries))
      && (t.Api? ==> t.api.backend.client == old(t.api.backend.client))
    ensures found && |detected| > 0 ==>
      TranscribeOutcome(dir, media, detected, old(Values(detected)), reporting, r, trace, yielded, batchErr,
                        t, lang, t.Api? && old(t.api.backend.client).Some?, stats, if stats != null then old(stats.entries) else map[])
    ensures !reporting ==> forall s :: s in trace ==> !s.Report?
  {
    if !found {
      return Failure(FileNotFound(NotFoundPrefix + media)), [], [], None;
    }
    var wav := WavPath(dir);
    trace := Prelude(reporting, media, wav);
    if |detected| == 0 {
      return Failure(Runtime(NoSpeechMessage)), trace, [], None;
    }
    r, trace, yielded, batchErr := TranscribeClips(media, dir, detected, lang, reporting, stats, t);
  }

  /** What the pipeline promises once speech was detected: every segment
      ends numbered by its position with its own clip file and its times,
      and only its text may have changed; the texts and the stats are what
      the chosen transcriber's batch makes of the numbered clips
      (BatchOutcome); the calls and callbacks come in the documented order;
      the batch yields a prefix of the segments; its exception is raised
      again; otherwise the non-blank segments are returned, or an error
      when there are none. */
  ghost predicate TranscribeOutcome(dir: string, media: string, detected: seq<Segment>, olds: seq<SegmentValue>, reporting: bool,
                                    r: Result<seq<Segment>>, trace: seq<Step>, yielded: seq<Segment>, batchErr: Option<Error>,
                                    t: Transcriber, lang: Option<string>, hadClient: bool, stats: Stats?, before: map<string, int>)
    reads detected, stats
  {
    var n := |detected|;
    && ClipsTranscribed(dir, detected, olds, yielded, batchErr, t, lang, hadClient, stats, before)
    && trace == Trace(reporting, media, dir, n, CutSteps(WavPath(dir), olds, dir), Ticks(reporting, |yielded|, n), r.Success?)
    && (batchErr.Some? ==> r == Failure(batchErr.value))
    && (batchErr.None? && Kept(yielded) == [] ==> r == Failure(Runtime(NoLinesMessage)))
    && (batchErr.None? && Kept(yielded) != [] ==> r == Success(Kept(yielded)))
  }

  /** The segments after the cut loop and the batch: numbered by position
      with their own clips and times, only texts changed, as the batch
      leaves them, and a prefix of them yielded. */
  ghost predicate ClipsTranscribed(dir: string, detected: seq<Segment>, olds: seq<SegmentValue>, yielded: seq<Segment>, batchErr: Option<Error>,
                                   t: Transcriber, lang: Option<string>, hadClient: bool, stats: Stats?, before: map<string, int>)
    reads detected, stats
  {
    var n := |detected|;
    && |olds| == n
    && |yielded| <= n && yielded == detected[..|yielded|]
    && (batchErr.None? <==> |yielded| == n)
    && TextOnly(Values(detected), Clipped(olds, dir))
    && BatchOutcome(t, lang, Clipped(olds, dir), Values(detected), |yielded|, batchErr, hadClient, stats, before)
  }

  /** The calls and callbacks of a run that found `n` segments, in order:
      conversion and detection, the count, the cuts, the start, the batch,
      one progress callback per yielded segment and the completion. */
  function Trace(reporting: bool, media: string, dir: string, n: nat, cuts: seq<Step>, ticks: seq<Step>, success: bool): seq<Step> {
    Prelude(reporting, media, WavPath(dir)) + Say(reporting, DetectedStatus(n)) + Say(reporting, CuttingStatus)
    + cuts + Say(reporting, StartingStatus) + Tick(reporting, 0, n) + [BatchTranscription(n)]
    + ticks + (if success then Say(reporting, CompletedStatus) else [])
  }

  /** Without a reporter the trace holds no callback at all. */
  lemma TraceQuiet(media: string, dir: string, olds: seq<SegmentValue>, k: nat, success: bool)
    ensures forall s :: s in Trace(false, media, dir, |olds|, CutSteps(WavPath(dir), olds, dir), Ticks(false, k, |olds|), success) ==> !s.Report?
  {
    var wav := WavPath(dir);
    var cuts := CutSteps(wav, olds, dir);
    TicksSpec(false, k, |olds|);
    forall s | s in Trace(false, media, dir, |olds|, cuts, Ticks(false, k, |olds|), success) ensures !s.Report? {
      assert s in cuts || s in [Convert(media, wav), Detect(wav), BatchTranscription(|olds|)];
    }
  }

  /** The cut loop, then the batch transcription of the numbered clips. */
  method CutAndRun(detected: seq<Segment>, dir: string, lang: Option<string>, stats: Stats?, t: Transcriber)
    returns (cuts: seq<Step>, yielded: seq<Segment>, err: Option<Error>)
    requires |detected| > 0 && Distinct(detected) && (t.Api? ==> t.api.Valid())
    modifies detected, stats, if t.Api? then {t.api.backend} else {}
    ensures cuts == CutSteps(WavPath(dir), old(Values(detected)), dir)
    ensures |yielded| <= |detected|
    ensures ClipsTranscribed(dir, detected, old(Values(detected)), yielded, err,
                             t, lang, t.Api? && old(t.api.backend.client).Some?, stats, if stats != null then old(stats.entries) else map[])
  {
    cuts := AssignClips(detected, WavPath(dir), dir);
    yielded, err := RunBatch(detected, lang, stats, t);
  }

  /** The pipeline after detection found speech. */
  method TranscribeClips(media: string, dir: string, detected: seq<Segment>, lang: Option<string>,
                         reporting: bool, stats: Stats?, t: Transcriber)
    returns (r: Result<seq<Segment>>, trace: seq<Step>, ghost yielded: seq<Segment>, ghost batchErr: Option<Error>)
    requires |detected| > 0 && Distinct(detected) && (t.Api? ==> t.api.Valid())
    modifies detected, stats, if t.Api? then {t.api.backend} else {}
    ensures TranscribeOutcome(dir, media, detected, old(Values(detected)), reporting, r, trace, yielded, batchErr,
                              t, lang, t.Api? && old(t.api.backend.client).Some?, stats, if stats != null then old(stats.entries) else map[])
    ensures !reporting ==> forall s :: s in trace ==> !s.Report?
  {
    ghost var olds := Values(detected);
    var n := |detected|;
    var cuts, y, e := CutAndRun(detected, dir, lang, stats, t);
    yielded, batchErr := y, e;
    var kept, ticks := Collect(y, n, reporting);
    if e.Some? {
      r := Failure(e.value);
    } else if kept == [] {
      r := Failure(Runtime(NoLinesMessage));
    } else {
      r := Success(kept);
    }
    trace := Trace(reporting, media, dir, n, cuts, ticks, r.Success?);
    if !reporting {
      TraceQuiet(media, dir, olds, |y|, r.Success?);
    }
  }
}
