# audio2sub core in Dafny

This project models the core of audio2sub. That core is the pipeline that turns a media file into subtitle segments (convert, detect speech, cut one clip per segment, batch-transcribe, drop blank lines). It is also the batch-request protocol that the three AI capabilities share:

- transcription of clips;
- translation of segment texts;
- alignment of segment timings to a reference.

The protocol chunks the segments, builds a prompt and sends one provider request per chunk. It decodes each reply and writes it back into the segments by index, and after each chunk it exports the running token totals into the caller's stats map. Around the protocol sit the backend plumbing: the memoised client, API-key resolution and the constant-delay retry loop.

Modules follow the repository's files:

- `Common` (common.py): the mutable `Segment` class and its `SegmentValue` snapshot, the `Usage` tracker and its export into a `Stats` map, the error kinds, and the missing-dependency message.
- `Text`: Python's `str.strip()` and `str(n)`, which the core relies on.
- `Entries`: the parsed provider response, shared by the three `_parse_response_text` methods. It covers the lookup by index, the text rule and the timing rule, and the in-place parse loop.
- `AI` (ai.py), which holds:
  - `_iter_chunks`;
  - the provider reply and the number of chunks that complete;
  - the running token totals;
  - the chunk loop shared by the three capabilities;
  - `_retry`;
  - the `AIBackend` object, with `_ensure_client` and `_resolve_api_key`.
- `Transcribers` (transcribers/base.py): the per-clip `Base.batch_transcribe` loop and the `AIAPITranscriber`.
- `Translators` (translators/base.py): the `AITranslator`.
- `Aligners` (aligners/base.py): the `AIAligner` and `_iter_alignment_chunks`.
- `Pipeline` (transcribe.py): the `transcribe` function. It records every reporter callback and every call into the converter, the detector, the cutter and the batch transcription as a trace of steps.

A provider's behaviour is a parameter, `replies: nat -> Reply`, where reply `j` answers the request for chunk `j`. A reply is either the decoded body with an optional `Usage`, or the exception the request raised.

The outcome of `_create_client` is likewise a parameter, `created`. A retried function is `fn: nat -> Attempt<T>`, where call `j` behaves as `fn(j)`.

The main results:

- The chunks of a list concatenate back to the list (`AI.ChunksPartition`). They are non-empty, at most `size` long, and all but the last are exactly `size` long (`AI.ChunkLengths`). Their number is the ceiling of `n / size` (`AI.ChunkCountIsCeil`).
- A chunk loop stops at the first failing reply and re-raises its exception. Its segments then hold exactly the replies applied to the completed chunks, position by position (`AI.Chunked`). It has yielded or collected exactly those chunks' segments, in order (`AI.YieldedChunks`), and its stats hold exactly the totals exported so far (`AI.ChunkLoop`, `AI.RunChunks`).
- Parsing changes only the fields the capability's rule names. It is idempotent, so a second application of the same response changes nothing. It is also correct when the same object occurs twice in a batch (`Entries.ParseResponse`).
- The pipeline numbers its segments `1..N` in list order and gives each its own clip and its original times. It changes no other field but `text`, and returns exactly the non-blank yielded segments in order (`Pipeline.TranscribeOutcome`). The texts and the stats are those the chosen transcriber's own loop produces on the numbered clips (`Pipeline.BatchOutcome`).

## Model

| member | source | states |
|---|---|---|
| Common.Segment.constructor | audio2sub/common.py:10-16 | a new segment holds the given index and times, text "" and no audio unless given |
| Common.Usage.constructor | audio2sub/common.py:19-22 | a new tracker counts zero tokens in and zero out |
| Common.Exported | audio2sub/common.py:27-28 | after an export both token keys hold the tracker's counts; the keys are the old keys plus exactly those two; every other key keeps its value |
| Common.Usage.Export | audio2sub/common.py:24-28 | with no stats map nothing changes; otherwise the map becomes `Exported` of the old map and the counters; the counters themselves are unchanged |
| Common.ExportOverwrites | audio2sub/common.py:27-28 | a later export replaces an earlier one; nothing is added up in the map |
| Common.ExportIdempotent | audio2sub/common.py:27-28 | exporting the same totals twice gives the map exporting once gives |
| Common.ExportAllLast | audio2sub/common.py:24-28 | after a run of exports the map is the original with only the last export applied, and untouched after none |
| Common.MissingDependencyMessage | audio2sub/common.py:31-38 | the message starts with `Backend '`, then names the backend, and ends with the `pip install audio2sub[<name>]` hint for the same name |
| Text.TrimStartSpec | audio2sub/transcribers/base.py:189 | what the leading trim removes is a run of whitespace at the front; what it keeps is a suffix that does not start with whitespace |
| Text.TrimEndSpec | audio2sub/transcribers/base.py:189 | what the trailing trim removes is a run of whitespace at the back; what it keeps is a prefix that does not end with whitespace |
| Text.StripSpec | audio2sub/translators/base.py:129 | `strip()` never lengthens a string, and its result neither starts nor ends with whitespace |
| Text.StripBlankIff | audio2sub/transcribe.py:67 | a text strips to "" if and only if every character is whitespace |
| Text.StripIdempotent | audio2sub/translators/base.py:129 | stripping a stripped text changes nothing |
| Text.NatToString | audio2sub/transcribe.py:48 | the decimal rendering is never empty and is one digit exactly for numbers below ten |
| Text.NatToStringInjective | audio2sub/transcribe.py:54 | different numbers render differently |
| Entries.LookupIndex | audio2sub/transcribers/base.py:180-187 | what `by_index.get(seg.index)` finds is an object carrying that index |
| Entries.LookupIndexSpec | audio2sub/transcribers/base.py:180-187 | the lookup finds nothing if and only if no object carries the index; otherwise it finds the last object that does, as the dict comprehension keeps the last key |
| Entries.ApplyTextSpec | audio2sub/transcribers/base.py:186-189 | only `text` changes; a segment no object matches keeps its value; a matched one takes the stripped `text` of the last object with its index, or "" when that object has none |
| Entries.ApplyTextIdempotent | audio2sub/translators/base.py:126-129 | applying the same response twice leaves the segment as applying it once does |
| Entries.ApplyTimingSpec | audio2sub/aligners/base.py:166-172 | `index` and `audio` never change; an unmatched segment keeps its value; the last object with the index supplies `start`, `end` and an unstripped `text` where it carries them, and the old values stay otherwise |
| Entries.ApplyTimingIdempotent | audio2sub/aligners/base.py:166-172 | applying the same alignment response twice leaves the segment as applying it once does |
| Entries.RuleIdempotent | audio2sub/aligners/base.py:166-172 | both capability rules are idempotent |
| Entries.ApplyTo | audio2sub/aligners/base.py:166-172 | one pass of the parse loop leaves the segment's value as the capability's rule applied to its old value |
| Entries.ParseResponse | audio2sub/transcribers/base.py:176-189 | a malformed body raises the JSON decode error with that body's decoder message, and a scalar body the TypeError of iterating over it; either leaves every segment of the batch as it was; a decoded one raises nothing and leaves every segment as its rule applied to its old value, even when an object occurs twice in the batch |
| Entries.ParseSlice | audio2sub/transcribers/base.py:120 | parsing into one chunk of a list without repeated objects updates exactly the chunk's positions, by the rule, and no other position |
| AI.ChunkSize | audio2sub/transcribers/base.py:111 | a positive requested chunk size is used; an absent, zero or negative one falls back to the class default |
| AI.OffsetIsProduct | audio2sub/ai.py:96 | step `k` of `range(0, n, size)` starts at `k * size` |
| AI.ChunkOfIsQuotient | audio2sub/ai.py:96-97 | position `i` lies in chunk `i / size` |
| AI.InChunk | audio2sub/ai.py:96-97 | every position of chunk `k`'s span belongs to chunk `k` |
| AI.ChunkCountSpec | audio2sub/ai.py:96 | the steps of the range cover all `n` positions, and the last of them starts inside the list |
| AI.ChunkCountIsCeil | audio2sub/ai.py:96 | the number of chunks is `ceil(n / size)` |
| AI.SliceSpec | audio2sub/ai.py:97 | Python slicing clamps both bounds to the length: an in-range slice is the subsequence, one starting past the end is empty |
| AI.ChunkIs | audio2sub/ai.py:96-97 | chunk `k` starts inside the list at `k * size` and runs `size` items or to the end |
| AI.ChunkLengths | audio2sub/ai.py:93-97 | every chunk is non-empty and at most `size` long, and every chunk but the last is exactly `size` long |
| AI.ChunksTail | audio2sub/ai.py:96-97 | past the first full chunk, the chunks are those of the rest of the list |
| AI.ChunksPartition | audio2sub/ai.py:93-97 | the chunks, concatenated in order, give back the list |
| AI.YieldedChunks | audio2sub/transcribers/base.py:116-126 | the first `d` chunks, concatenated, are the list up to where chunk `d` starts |
| AI.IterChunks | audio2sub/ai.py:93-97 | a positive size gives the chunks; a non-positive size gives the whole list as one chunk, or the `range()` ValueError when the list is empty; any result concatenates back to the list and has no empty chunk |
| AI.DoneChunks | audio2sub/transcribers/base.py:116-120 | at most every chunk completes, and a loop that stops short stops at a failing reply |
| AI.DoneChunksSucceed | audio2sub/transcribers/base.py:116-120 | every chunk before the stopping one got a reply that decoded |
| AI.RunningTotalsSpec | audio2sub/transcribers/base.py:121-124 | the number of exports equals the number of present Usages; the last export is the sum of all of them; nothing is exported if and only if no reply carried a Usage |
| AI.RunningTotalsSnoc | audio2sub/transcribers/base.py:121-124 | one more chunk adds its Usage to the tracker's sum when present, and then appends exactly one export of the new sum; an absent Usage changes neither |
| AI.RunningTotalsMonotone | audio2sub/transcribers/base.py:121-124 | the exported totals never decrease from one export to the next |
| AI.ChunkedStep | audio2sub/transcribers/base.py:116-120 | handling chunk `done` updates exactly that chunk's positions, with the rule and that chunk's reply; every other position keeps its value |
| AI.PendingChunk | audio2sub/translators/base.py:73-74 | the chunk about to be sent still holds its original values; earlier chunks never touch it |
| AI.ChunkedUntouched | audio2sub/transcribers/base.py:116-120 | the positions from where chunk `done` starts still hold their old values after `done` chunks |
| AI.SentChunk | audio2sub/translators/base.py:73-74 | the segments of chunk `k` are the list's positions of that chunk, and they are sent with their original values |
| AI.AddUsage | audio2sub/transcribers/base.py:121-124 | after a chunk the tracker holds the sum of the Usages so far, and the stats map has the new total exported only when the chunk carried a Usage |
| AI.Round | audio2sub/transcribers/base.py:117-124 | a completed round applies reply `k` to chunk `k` and adds its Usage |
| AI.ChunkStep | audio2sub/transcribers/base.py:116-124 | one pass sends chunk `k` with its original values; it fails exactly when reply `k` does not decode, and then changes nothing else |
| AI.ChunkLoop | audio2sub/transcribers/base.py:116-126 | the loop completes `DoneChunks` chunks; it raises no error exactly when all complete, and otherwise the failing reply's exception; it requested every completed chunk plus the failing one; the segments, the tracker and the stats equal the completed chunks' effect |
| AI.RunChunks | audio2sub/translators/base.py:70-82 | the same as ChunkLoop from a fresh tracker; in addition the collected segments are those of the completed chunks in order, and all segments when nothing fails |
| AI.Completed | audio2sub/translators/base.py:81-82 | the segments collected after `done` chunks are the list up to where chunk `done` starts, and the whole list once every chunk is done |
| AI.TextPayload | audio2sub/translators/base.py:74 | the payload holds one `{index, text}` object per segment of the chunk, in order |
| AI.RetrySteps | audio2sub/ai.py:119-133 | the attempts start with attempt 0 and end with the last one made; zero attempts make no step |
| AI.RetryStepsSleeps | audio2sub/ai.py:124-133 | `calls` attempts sleep exactly `calls - 1` times |
| AI.AIBackend.constructor | audio2sub/ai.py:29-31 | a new backend keeps its name, key and key variable, and has no client yet |
| AI.AIBackend.EnsureClient | audio2sub/ai.py:83-87 | a cached truthy client is returned without creating one; otherwise `_create_client` runs once, and its client is stored and returned, or its exception is raised with the cache untouched |
| AI.AIBackend.ResolveApiKey | audio2sub/ai.py:99-106 | a truthy explicit key wins; next comes a non-empty value of the named environment variable; it fails if and only if neither exists, with a RuntimeError naming the variable (or "API key") and the backend |
| AI.AIBackend.Retry | audio2sub/ai.py:110-134 | `fn` is called at most `max_retries + 1` times, and every call but the last threw; the result is the first returned value; the failure is the last call's own exception after all attempts; one sleep of 0.5 s comes between consecutive attempts; a negative count makes no call and ends in `raise None` |
| Transcribers.BatchTranscribe | audio2sub/transcribers/base.py:43-55 | the segments yielded are a prefix of the input, and all of them unless it raises; it raises FileNotFoundError for a segment without audio, or the single-clip call's own exception; each yielded segment holds its clip's transcription; every other segment keeps its text; no field but `text` changes |
| Transcribers.BuildPrompt | audio2sub/transcribers/base.py:138-174 | the prompt list has the instruction text first, then the outline block only when the outline is truthy, then the additional instructions only when the prompt is truthy |
| Transcribers.InstructionTextSpec | audio2sub/transcribers/base.py:144-159 | the instruction text starts with the base prompt and ends with the response rules; it names a truthy language right after the language sentence's lead-in, and is just those two parts otherwise |
| Transcribers.TranscriptionRequests | audio2sub/transcribers/base.py:116-119 | there is one request per chunk, in order, each with the same prompt list and retry count |
| Transcribers.AIAPITranscriber.constructor | audio2sub/transcribers/base.py:58-68 | a new transcriber has the transcription wording and a chunk default of 40 |
| Transcribers.AIAPITranscriber.BatchTranscribe | audio2sub/transcribers/base.py:100-126 | if client creation fails it raises before any request or change, the cache still empty; otherwise it is the shared chunk loop with the text rule and the transcriber's chunk size: the yielded segments are the completed chunks in order, the requests are the chunks sent with their original values, and the stats hold the totals exported so far |
| Transcribers.AIAPITranscriber.Transcribe | audio2sub/transcribers/base.py:86-98 | one request carries a one-clip batch (index 1, times 0, the given path, no outline, prompt or retry count); the result is the stripped text of the last reply object with index 1, "" when there is none, or the request's exception; stats hold the exported total after a decoded reply and are unchanged when client creation or the request fails; the client is cached as `_ensure_client` leaves it |
| Transcribers.OneClip | audio2sub/transcribers/base.py:92-98 | a one-clip batch is one chunk, and its segment takes the text rule with reply 0 |
| Translators.BuildPrompt | audio2sub/translators/base.py:93-114 | the prompt list has the instruction text first, and the additional instructions only when the prompt is truthy |
| Translators.InstructionTextSpec | audio2sub/translators/base.py:99-109 | the instruction text starts with the base prompt's lead-in, then names the source language, the word between them and the target language, and ends with the response rules |
| Translators.TranslationRequests | audio2sub/translators/base.py:73-75 | there is one request per chunk, in order, each holding the prompt list and the chunk's `{index, text}` payload |
| Translators.AITranslator.constructor | audio2sub/translators/base.py:43-53 | a new translator has the translation wording and the inherited chunk default of 2000 |
| Translators.AITranslator.Translate | audio2sub/translators/base.py:55-82 | if client creation fails it raises before any request or change, the cache still empty; otherwise the result is the completed chunks' segments, the whole input when nothing fails, and nothing with no request when the input is empty; the translations are written by the text rule; stats hold the totals exported so far |
| Aligners.AlignmentChunksSpec | audio2sub/aligners/base.py:116-128 | the alignment chunks concatenate back to the list; a size that is not positive or covers the list gives exactly one chunk, for an empty list too; otherwise they are the ordinary chunks |
| Aligners.BuildPrompt | audio2sub/aligners/base.py:130-154 | the prompt list has the instruction text first, and the additional instructions only when the prompt is truthy |
| Aligners.InstructionTextEnds | audio2sub/aligners/base.py:136-149 | the instruction text starts with the base prompt and ends with the response rules; with neither language it is just those two |
| Aligners.InstructionTextSource | audio2sub/aligners/base.py:137-138 | a truthy source language follows its lead-in right after the base prompt |
| Aligners.InstructionTextReference | audio2sub/aligners/base.py:139-140 | a truthy reference language follows its lead-in and ends right before the last stop before the rules |
| Aligners.ReferencePayload | audio2sub/aligners/base.py:85-93 | the reference payload holds every reference segment's index, start, end and text, in order |
| Aligners.AlignmentRequests | audio2sub/aligners/base.py:81-98 | there is one request per chunk, in order, each holding the prompt list, the chunk's `{index, text}` payload and the same reference payload |
| Aligners.AIAligner.constructor | audio2sub/aligners/base.py:44-60 | a new aligner has the alignment wording and the inherited chunk default of 2000 |
| Aligners.AIAligner.Align | audio2sub/aligners/base.py:62-105 | if client creation fails it raises before any request or change, the cache still empty; otherwise AlignOutcome holds: the completed chunks' segments are returned, the timing rule was applied to them, and each request carried the whole reference; stats hold the totals; the reference is unchanged |
| Aligners.AlignChunks | audio2sub/aligners/base.py:81-105 | the chunk stage of `align` meets AlignOutcome, with one reference payload for every chunk, and leaves the reference unchanged |
| Aligners.AlignRun | audio2sub/aligners/base.py:126-128 | a non-empty list goes through the shared chunk loop with the timing rule |
| Aligners.AlignEmpty | audio2sub/aligners/base.py:123-125 | an empty list is still sent once, as one empty chunk, and fails if that reply does not decode |
| Pipeline.ClipPathInjective | audio2sub/transcribe.py:54 | different segment numbers give different clip files |
| Pipeline.TicksSpec | audio2sub/transcribe.py:63-70 | with a reporter, callback `j` after the start reports `j + 1` segments done out of the total; without one there is none |
| Pipeline.ClippedSpec | audio2sub/transcribe.py:52-56 | after the cut loop segment `i` is numbered `i + 1` with its own clip file; times and texts are kept; no two segments share a clip file |
| Pipeline.CutSteps | audio2sub/transcribe.py:52-56 | there is one cutter call per segment, in order, with the segment's own times and the clip file of its number |
| Pipeline.Renumber | audio2sub/transcribe.py:53-56 | one pass numbers the segment and attaches its clip path, changing nothing else |
| Pipeline.CutStepsSnoc | audio2sub/transcribe.py:52-55 | one more pass of the loop appends exactly that segment's cutter call |
| Pipeline.ClipOne | audio2sub/transcribe.py:52-56 | pass `k` numbers segment `k` and attaches its clip, changes no other segment, and appends its cutter call |
| Pipeline.AssignClips | audio2sub/transcribe.py:52-56 | the loop leaves the segments as ClippedSpec describes and makes exactly the CutSteps calls |
| Pipeline.ChunkedTextOnly | audio2sub/transcribers/base.py:186-189 | the transcriber's parse changes nothing but texts, however many chunks completed |
| Pipeline.RunBatch | audio2sub/transcribe.py:64-66 | either transcriber yields a prefix of the segments, all of them unless it raises, and changes no field but `text`; BatchOutcome holds: the per-clip loop gives each yielded segment its clip's transcription, keeps the other texts, raises FileNotFoundError or the call's exception at the first failure, and leaves stats alone; the AI transcriber raises the client's creation error with nothing changed, or else leaves the values `Chunked` by the text rule over the completed chunks and stats holding its exported running totals |
| Pipeline.RunPerClip | audio2sub/transcribers/base.py:43-55 | the per-clip loop run on distinct segments meets BatchOutcome: yielded segments hold their clips' transcriptions, the rest keep their texts |
| Pipeline.RunApi | audio2sub/transcribers/base.py:100-126 | the AI transcriber run as the pipeline's batch meets BatchOutcome: client failure changes nothing; otherwise values, yielded prefix, error and stats follow the completed chunks |
| Pipeline.CutAndRun | audio2sub/transcribe.py:52-66 | after the cut loop and the batch, the cutter calls are CutSteps and ClipsTranscribed holds: numbered clips, only texts changed, BatchOutcome over the numbered values, a yielded prefix |
| Pipeline.KeptSound | audio2sub/transcribe.py:67-68 | every kept segment is one of the yielded ones and has non-blank text |
| Pipeline.KeptComplete | audio2sub/transcribe.py:67-68 | every yielded segment with non-blank text is kept |
| Pipeline.KeptConcat | audio2sub/transcribe.py:64-68 | filtering keeps the order: the kept part of a concatenation is the kept parts of the halves, one after the other |
| Pipeline.KeptEmptyIff | audio2sub/transcribe.py:72-73 | nothing is kept if and only if every yielded text is whitespace only |
| Pipeline.Collect | audio2sub/transcribe.py:62-70 | the consuming loop keeps exactly the non-blank yielded segments in order and reports one progress callback per yielded segment |
| Pipeline.TraceQuiet | audio2sub/transcribe.py:29-36 | without a reporter no callback is made at all |
| Pipeline.TranscribeClips | audio2sub/transcribe.py:38-76 | once speech is detected TranscribeOutcome holds: segments numbered 1..N with their own clips and times, only texts changed, texts and stats as the chosen transcriber's BatchOutcome over the numbered clips, the calls and callbacks in their documented order, the batch's exception re-raised, and otherwise the non-blank segments returned or the no-lines error |
| Pipeline.Transcribe | audio2sub/transcribe.py:14-76 | a missing input fails with FileNotFoundError before any call; no detected speech fails with the VAD error after conversion and detection; both early exits leave the segments, the stats and the cached client unchanged; otherwise TranscribeOutcome holds, texts and stats included; without a reporter no callback is made |

## Left out

- I/O and foreign calls become parameters or trace steps. These cover the provider SDK requests (`_request`, `_request_transcription`), `_create_client`, media conversion, voice activity detection and clip cutting. The model records each such call (the requests as request lists, the rest as pipeline steps) and takes its outcome as a parameter.
- The JSON text of a reply is taken as already decoded into `Entry` records, or as `Malformed` together with the message `json.loads` raises for it. That message (what was expected, and the line, column and character offset) is a parameter: the model carries it into the raised `JSONDecodeError` unchanged but does not compute it from the text. `raw_text.strip()` before `json.loads` is part of that decoding. Also left out:
  - indices that are not integers, and Python's `True == 1` and `1.0 == 1` key matching;
  - unhashable indices;
  - a `text` field that is not a string;
  - which iterable JSON values other than arrays are walked, and how. An object walks as its keys and a string as its characters; neither is a JSON object, so both are `Entries` of `NonRecord`. A scalar (`null`, a number, a boolean) is the `NotIterable` body. Parsing it raises Python's TypeError "'<type>' object is not iterable" before any segment changes.
  - the `float()` conversion of the aligner's `start` and `end`, together with its errors.
- Floating point: times are `real`, and nothing in the core computes with them.
- Aliasing: the chunk loops require no Segment object to occur twice in the list. So do the pipeline's cut loop and batch stage (`Pipeline.AssignClips`, `Pipeline.RunBatch`, `Pipeline.TranscribeClips`, `Pipeline.Transcribe`). The Silero detector builds a fresh `Segment` for each interval (audio2sub/detectors/silero.py:146), so its lists meet this. The aligner also requires no reference object to be one of the segments. `_parse_response_text` alone is modelled for repeated objects as well.
- Generators are run eagerly. The batch runs until it ends or raises, and the pipeline then consumes what it yielded. The trace therefore does not interleave progress callbacks with provider requests, and it records the batch transcription as one step.
- `time.sleep` and `logger.warning` in `_retry` are the `Sleep` steps; the warning text is left out. The provider exception kinds are not distinguished beyond the error value they carry.
- `os.getenv` is an environment map passed to `ResolveApiKey`.
- The detector's own reporter callbacks, the temporary directory's creation and removal, and path normalisation (`Path(input_media)` in the error message) are not modelled.
- Failures of conversion and cutting are not modelled: those calls are assumed to return.
- Pipeline.RunBatch: the per-clip backend's `transcribe(audio, lang, stats)` is a function of the clip and language only. The model leaves `stats` untouched, as the local-model backends do: they accept it and never write it (audio2sub/transcribers/whisper.py:14-30).
- Pipeline.Transcribe: `transcriber_opts` is the options carried by the `Api` transcriber value. A `Usage` object passed as `stats` is left out; only a dict or None is modelled.
- `segments_to_srt`, `srt_to_segments`, the SRT files and the command-line interface are left out, because they are wrappers over external libraries.
- The concrete provider classes are not modelled; `AIBackend.Retry` models `_retry` itself. Their handling of `retries` is uneven:
  - The Gemini and OpenAI mixins' `_call` wrap the SDK request in `_retry` with the `retries` they are given.
  - The Gemini translator and aligner `_request` accept `retries` and pass it on. `translate` and `align` never pass it, so those requests always get the default of 3.
  - The OpenAI translator's `_request` (and Grok's, inherited) neither takes nor forwards `retries`.
  - The Gemini transcriber's `_request_transcription` takes no `retries` parameter and calls the SDK without `_retry`. The `retries=retries` keyword that `AIAPITranscriber.batch_transcribe` passes it would make Python raise a TypeError.
  - The model records the `retries` value that `AIAPITranscriber.batch_transcribe` passes in each request (`TranscriptionRequest.retries`). It does not model what a concrete class does with it.
- The chunk-size default for the translator and the aligner follows the code: the inherited 2000, not the whole input.
- Segment numbering follows the code: the cut loop numbers segments in the detector's list order and does not sort them by start time.
- An empty list: `_iter_chunks` gives no chunk and `_iter_alignment_chunks` gives one empty chunk. `_iter_chunks` with a non-positive size and an empty list raises ValueError.
