// The skeleton shared by every AI backend (audio2sub/ai.py, AIBackendBase):
// list chunking, API-key resolution, the memoised client, the constant-delay
// retry loop, and the pieces of the batch-request protocol the three
// capability loops have in common (the provider's reply, how many chunks
// complete, and the running token totals they export).
module AI {
  import opened Common
  import opened Entries

  /** `AIBackendBase.default_chunk`, inherited by the translator and the aligner. */
  const DefaultChunk: int := 2000
  /** `AIBackendBase.default_retries`. */
  const DefaultRetries: int := 3
  /** `AIBackendBase._retry_delay`, in seconds. */
  const RetryDelay: real := 0.5

  /** The header of the caller's free-text block, last in every prompt list. */
  const AdditionalInstructions: string := "Additional instructions:\n"

  /** `chunk if chunk and chunk > 0 else default`. */
  function ChunkSize(chunk: Option<int>, default: int): (size: int)
    ensures chunk.Some? && chunk.value > 0 ==> size == chunk.value
    ensures !(chunk.Some? && chunk.value > 0) ==> size == default
  {
    if chunk.Some? && chunk.value > 0 then chunk.value else default
  }

  // ---------------------------------------------------------------------
  // Chunking

  function Flatten<T>(chunks: seq<seq<T>>): seq<T> {
    if chunks == [] then [] else chunks[0] + Flatten(chunks[1..])
  }

  function Min(a: int, b: int): int {
    if a <= b then a else b
  }

  /** Python's `items[lo:hi]` for non-negative bounds: both are clamped to
      the length, and a reversed range is empty. */
  function Slice<T>(items: seq<T>, lo: nat, hi: nat): seq<T> {
    var a, b := Min(lo, |items|), Min(hi, |items|);
    if a <= b then items[a..b] else []
  }

  /** In range, the slice is the subsequence; past the end it is empty; a
      bound past the end stops at the end. */
  lemma SliceSpec<T>(items: seq<T>, lo: nat, hi: nat)
    ensures lo <= hi <= |items| ==> Slice(items, lo, hi) == items[lo..hi]
    ensures |items| <= lo ==> Slice(items, lo, hi) == []
    ensures lo <= |items| <= hi ==> Slice(items, lo, hi) == items[lo..]
  {
  }

  /** Slicing after dropping `d` items is slicing `d` further on. */
  lemma SliceShift<T>(items: seq<T>, d: nat, lo: nat, hi: nat)
    requires d <= |items|
    ensures Slice(items[d..], lo, hi) == Slice(items, lo + d, hi + d)
  {
  }

  lemma MulMono(a: int, b: int, d: int)
    requires d > 0 && a >= b
    ensures a * d >= b * d
  {
  }

  lemma MulSucc(a: int, b: int)
    ensures (a + 1) * b == a * b + b
  {
  }

  lemma DivUnique(a: int, d: int, q: int, m: int)
    requires d > 0 && 0 <= m < d && a == q * d + m
    ensures a / d == q
  {
    var q0 := a / d;
    if q0 > q {
      MulMono(q0, q + 1, d);
      assert false;
    } else if q0 < q {
      MulMono(q, q0 + 1, d);
      assert false;
    }
  }

  /** Where step `k` of `range(0, n, size)` starts, built by repeated
      addition (see OffsetIsProduct). */
  function Offset(k: nat, size: nat): nat {
    if k == 0 then 0 else Offset(k - 1, size) + size
  }

  lemma {:induction false} OffsetIsProduct(k: nat, size: nat)
    ensures Offset(k, size) == k * size
  {
    if k > 0 {
      OffsetIsProduct(k - 1, size);
      MulSucc(k - 1, size);
    }
  }

  /** Later steps start at least one chunk further on. */
  lemma {:induction false} OffsetGrows(j: nat, k: nat, size: nat)
    requires j < k
    ensures Offset(j, size) + size <= Offset(k, size)
  {
    if j < k - 1 {
      OffsetGrows(j, k - 1, size);
    }
  }

  /** The step of the range whose chunk holds position `i`, by repeated
      subtraction (see ChunkOfIsQuotient). */
  function ChunkOf(i: nat, size: int): nat
    requires size > 0
    decreases i
  {
    if i < size then 0 else ChunkOf(i - size, size) + 1
  }

  lemma {:induction false} ChunkOfIsQuotient(i: nat, size: int)
    requires size > 0
    ensures ChunkOf(i, size) == i / size
    decreases i
  {
    if i < size {
      DivUnique(i, size, 0, i);
    } else {
      ChunkOfIsQuotient(i - size, size);
      var q, m := (i - size) / size, (i - size) % size;
      assert i == (q + 1) * size + m;
      DivUnique(i, size, q + 1, m);
    }
  }

  /** Position `i` of step `k`'s chunk belongs to step `k`. */
  lemma {:induction false} InChunk(size: int, k: nat, i: nat)
    requires size > 0 && Offset(k, size) <= i < Offset(k, size) + size
    ensures ChunkOf(i, size) == k
    decreases k
  {
    if k > 0 {
      InChunk(size, k - 1, i - size);
    }
  }

  /** The number of steps of `range(0, n, size)` (see ChunkCountSpec). */
  function ChunkCount(n: nat, size: int): nat
    requires size > 0
    decreases n
  {
    if n == 0 then 0 else if n <= size then 1 else ChunkCount(n - size, size) + 1
  }

  /** The steps cover all `n` positions, and the last one starts inside them. */
  lemma {:induction false} ChunkCountSpec(n: nat, size: int)
    requires size > 0
    ensures Offset(ChunkCount(n, size), size) >= n
    ensures ChunkCount(n, size) > 0 ==> Offset(ChunkCount(n, size) - 1, size) < n
    decreases n
  {
    if n > size {
      ChunkCountSpec(n - size, size);
      var c := ChunkCount(n - size, size);
      assert Offset(c + 1, size) == Offset(c, size) + size;
    }
  }

  /** One more full chunk adds one to the ceiling quotient. */
  lemma CeilStep(n: nat, size: int)
    requires size > 0 && n > size
    ensures (n + size - 1) / size == (n - size + size - 1) / size + 1
  {
    var x := n - 1;
    var q, m := x / size, x % size;
    assert x + size == (q + 1) * size + m;
    DivUnique(x + size, size, q + 1, m);
  }

  /** The count is ceil(n / size). */
  lemma {:induction false} ChunkCountIsCeil(n: nat, size: int)
    requires size > 0
    ensures ChunkCount(n, size) == (n + size - 1) / size
    decreases n
  {
    if n == 0 {
      DivUnique(size - 1, size, 0, size - 1);
    } else if n <= size {
      DivUnique(n + size - 1, size, 1, n - 1);
    } else {
      ChunkCountIsCeil(n - size, size);
      CeilStep(n, size);
    }
  }

  /** Every step of the range starts inside the list. */
  lemma ChunkStart(n: nat, size: int, k: nat)
    requires size > 0 && k < ChunkCount(n, size)
    ensures Offset(k, size) < n
  {
    var c := ChunkCount(n, size);
    ChunkCountSpec(n, size);
    if k < c - 1 {
      OffsetGrows(k, c - 1, size);
    }
  }

  /** The slice `items[i:i + size]` taken at step `k` of the range. */
  function Chunk<T>(items: seq<T>, size: int, k: int): seq<T>
    requires size > 0
  {
    if k < 0 then [] else Slice(items, Offset(k, size), Offset(k, size) + size)
  }

  /** `_iter_chunks` for a positive size: the slice at each step of
      `range(0, len(items), size)`. */
  function Chunks<T>(items: seq<T>, size: int): seq<seq<T>>
    requires size > 0
  {
    seq(ChunkCount(|items|, size), (k: int) => Chunk(items, size, k))
  }

  /** Chunk `k` starts at Offset(k) and runs `size` items or to the end. */
  lemma ChunkIs<T>(items: seq<T>, size: int, k: nat)
    requires size > 0 && k < |Chunks(items, size)|
    ensures var lo := Offset(k, size);
      lo < |items| && Chunks(items, size)[k] == items[lo..Min(lo + size, |items|)]
  {
    var lo := Offset(k, size);
    ChunkStart(|items|, size, k);
    var c := Chunks(items, size)[k];
    SliceSpec(items, lo, lo + size);
    assert c == Chunk(items, size, k) == Slice(items, lo, lo + size);
    if lo + size <= |items| {
      assert c == items[lo..lo + size];
    } else {
      assert c == items[lo..];
    }
  }

  /** Every chunk is non-empty and at most `size` long, and all but the
      last are exactly `size` long. */
  lemma ChunkLengths<T>(items: seq<T>, size: int)
    requires size > 0
    ensures forall k :: 0 <= k < |Chunks(items, size)| ==> 0 < |Chunks(items, size)[k]| <= size
    ensures forall k :: 0 <= k < |Chunks(items, size)| - 1 ==> |Chunks(items, size)[k]| == size
  {
    var c := Chunks(items, size);
    forall k | 0 <= k < |c| ensures 0 < |c[k]| <= size && (k < |c| - 1 ==> |c[k]| == size) {
      ChunkIs(items, size, k);
      if k < |c| - 1 {
        ChunkIs(items, size, k + 1);
        assert Offset(k + 1, size) == Offset(k, size) + size;
      }
    }
  }

  lemma ChunksTailAt<T>(items: seq<T>, size: int, k: nat)
    requires size > 0 && |items| > size && k < |Chunks(items[size..], size)|
    ensures k + 1 < |Chunks(items, size)| && Chunks(items, size)[k + 1] == Chunks(items[size..], size)[k]
  {
    var lo := Offset(k, size);
    var rest := items[size..];
    assert |rest| == |items| - size;
    assert ChunkCount(|items|, size) == ChunkCount(|rest|, size) + 1;
    assert Offset(k + 1, size) == lo + size;
    calc {
      Chunks(rest, size)[k];
      Chunk(rest, size, k);
      Slice(rest, lo, lo + size);
      { SliceShift(items, size, lo, lo + size); }
      Slice(items, lo + size, lo + size + size);
      Chunk(items, size, k + 1);
      Chunks(items, size)[k + 1];
    }
  }

  /** Past the first full chunk, the chunks are those of the rest. */
  lemma ChunksTail<T>(items: seq<T>, size: int)
    requires size > 0 && |items| > size
    ensures Chunks(items, size) == [items[..size]] + Chunks(items[size..], size)
  {
    var c, d := Chunks(items, size), Chunks(items[size..], size);
    assert |c| == |d| + 1 by {
      assert ChunkCount(|items|, size) == ChunkCount(|items| - size, size) + 1;
    }
    assert c[0] == items[..size] by {
      ChunkIs(items, size, 0);
      assert Offset(0, size) == 0 && Min(size, |items|) == size;
    }
    forall k | 0 <= k < |d| ensures c[k + 1] == d[k] {
      ChunksTailAt(items, size, k);
    }
    forall k | 0 <= k < |c| ensures c[k] == ([items[..size]] + d)[k] {
      if k > 0 {
        assert ([items[..size]] + d)[k] == d[k - 1];
      }
    }
  }

  /** The chunks, concatenated in order, give back the list. */
  lemma {:induction false} ChunksPartition<T>(items: seq<T>, size: int)
    requires size > 0
    ensures Flatten(Chunks(items, size)) == items
    decreases |items|
  {
    var c := Chunks(items, size);
    if |items| == 0 {
      assert c == [];
    } else if |items| <= size {
      SliceSpec(items, 0, size);
      assert c == [items];
      assert Flatten(c) == items + Flatten([]);
    } else {
      ChunksTail(items, size);
      ChunksPartition(items[size..], size);
      assert c[1..] == Chunks(items[size..], size);
      assert items == items[..size] + items[size..];
    }
  }

  lemma {:induction false} FlattenSnoc<T>(chunks: seq<seq<T>>, last: seq<T>)
    ensures Flatten(chunks + [last]) == Flatten(chunks) + last
    decreases |chunks|
  {
    if chunks == [] {
      assert [] + [last] == [last];
      assert Flatten([last]) == last + Flatten([]);
    } else {
      assert (chunks + [last])[1..] == chunks[1..] + [last];
      FlattenSnoc(chunks[1..], last);
    }
  }

  lemma PrefixJoin<T>(items: seq<T>, lo: nat, hi: nat)
    requires lo <= hi <= |items|
    ensures items[..lo] + items[lo..hi] == items[..hi]
  {
  }

  /** The first `d` chunks, concatenated, are the list up to where chunk
      `d` starts: a chunk loop that yields each chunk after it completes
      has yielded exactly that prefix. */
  lemma {:induction false} YieldedChunks<T>(items: seq<T>, size: int, d: nat)
    requires size > 0 && d <= ChunkCount(|items|, size)
    ensures Flatten(Chunks(items, size)[..d]) == items[..Min(Offset(d, size), |items|)]
    decreases d
  {
    var c := Chunks(items, size);
    if d == 0 {
      assert c[..0] == [];
    } else {
      var lo := Offset(d - 1, size);
      var hi := Min(lo + size, |items|);
      YieldedChunks(items, size, d - 1);
      ChunkBounds(items, size, d - 1, lo, hi);
      FlattenPrefixStep(items, c, d, lo, hi);
      assert Min(Offset(d, size), |items|) == hi;
    }
  }

  /** `ChunkIs` with the bounds of chunk `k` named by the caller. */
  lemma ChunkBounds<T>(items: seq<T>, size: int, k: nat, lo: nat, hi: nat)
    requires size > 0 && k < |Chunks(items, size)|
    requires lo == Offset(k, size) && hi == Min(lo + size, |items|)
    ensures lo <= hi <= |items| && Chunks(items, size)[k] == items[lo..hi]
  {
    ChunkIs(items, size, k);
  }

  /** If the first `d - 1` parts flatten to the prefix up to `lo` and part
      `d - 1` is the slice from `lo` to `hi`, the first `d` parts flatten
      to the prefix up to `hi`. */
  lemma FlattenPrefixStep<T>(items: seq<T>, parts: seq<seq<T>>, d: nat, lo: nat, hi: nat)
    requires 0 < d <= |parts| && lo <= hi <= |items|
    requires Flatten(parts[..d - 1]) == items[..lo] && parts[d - 1] == items[lo..hi]
    ensures Flatten(parts[..d]) == items[..hi]
  {
    assert parts[..d] == parts[..d - 1] + [parts[d - 1]];
    FlattenSnoc(parts[..d - 1], parts[d - 1]);
    PrefixJoin(items, lo, hi);
  }

  /** `_iter_chunks(items, size)`: a non-positive size means one chunk of
      everything; with no items as well, `range` gets step 0 and raises. */
  function IterChunks<T>(items: seq<T>, size: int): (r: Result<seq<seq<T>>>)
    ensures size > 0 ==> r == Success(Chunks(items, size))
    ensures size <= 0 && |items| > 0 ==> r == Success([items])
    ensures size <= 0 && |items| == 0 ==> r.Failure? && r.error.ValueErr?
    ensures r.Success? ==> Flatten(r.value) == items && forall j :: 0 <= j < |r.value| ==> |r.value[j]| > 0
  {
    if size > 0 then
      ChunksPartition(items, size);
      ChunkLengths(items, size);
      Success(Chunks(items, size))
    else if |items| == 0 then Failure(ValueErr("range() arg 3 must not be zero"))
    else
      assert Flatten([items]) == items + Flatten([]);
      Success([items])
  }

  // ---------------------------------------------------------------------
  // The provider's replies and what a chunk loop makes of them

  /** What one provider request gives back: the decoded response body and
      its optional Usage, or the exception the request raised. */
  datatype Reply = Reply(body: Body, usage: Option<TokenCount>) | RequestFailed(error: Error)

  /** The chunk's request returned and its response decoded. */
  predicate Succeeds(rep: Reply) {
    rep.Reply? && rep.body.Entries?
  }

  /** The exception a failing chunk ends the loop with. */
  function ReplyError(rep: Reply): Error
    requires !Succeeds(rep)
  {
    if rep.RequestFailed? then rep.error else DecodeError(rep.body)
  }

  /** How many of `count` chunks complete before the first failing one. */
  function DoneChunks(replies: nat -> Reply, count: nat): (d: nat)
    ensures d <= count
    ensures d < count ==> !Succeeds(replies(d))
  {
    if count == 0 then 0
    else
      var d := DoneChunks(replies, count - 1);
      if d == count - 1 && Succeeds(replies(count - 1)) then count else d
  }

  /** Every chunk before the stopping one completed. */
  lemma {:induction false} DoneChunksSucceed(replies: nat -> Reply, count: nat, j: nat)
    requires j < DoneChunks(replies, count)
    ensures Succeeds(replies(j))
    decreases count
  {
    if j < DoneChunks(replies, count - 1) {
      DoneChunksSucceed(replies, count - 1, j);
    }
  }

  /** The chunk loop that stopped at `k` stopped where DoneChunks says. */
  lemma {:induction false} DoneChunksAt(replies: nat -> Reply, count: nat, k: nat)
    requires k <= count && DoneChunks(replies, k) == k
    requires k < count ==> !Succeeds(replies(k))
    ensures DoneChunks(replies, count) == k
    decreases count
  {
    if k < count {
      DoneChunksAt(replies, count - 1, k);
    }
  }

  /** The Usage of each of the first `k` replies, None for a failed one. */
  function UsageScript(replies: nat -> Reply, k: nat): (us: seq<Option<TokenCount>>)
    ensures |us| == k
  {
    if k == 0 then [] else UsageScript(replies, k - 1) + [if replies(k - 1).Reply? then replies(k - 1).usage else None]
  }

  /** Entry `j` of the script is the Usage reply `j` reports, if any. */
  lemma {:induction false} UsageScriptAt(replies: nat -> Reply, k: nat, j: nat)
    requires j < k
    ensures UsageScript(replies, k)[j] == if replies(j).Reply? then replies(j).usage else None
    decreases k
  {
    if j < k - 1 {
      UsageScriptAt(replies, k - 1, j);
    }
  }

  function Plus(a: TokenCount, b: TokenCount): TokenCount {
    TokenCount(a.tokensIn + b.tokensIn, a.tokensOut + b.tokensOut)
  }

  /** The tracker's value after adding every present Usage, from zero. */
  function Sum(us: seq<Option<TokenCount>>): TokenCount {
    if us == [] then TokenCount(0, 0)
    else
      var s := Sum(us[..|us| - 1]);
      if us[|us| - 1].Some? then Plus(s, us[|us| - 1].value) else s
  }

  /** The totals exported, in order: one after each chunk whose Usage is present. */
  function RunningTotals(us: seq<Option<TokenCount>>): seq<TokenCount> {
    if us == [] then []
    else
      var r := RunningTotals(us[..|us| - 1]);
      if us[|us| - 1].Some? then r + [Sum(us)] else r
  }

  /** How many of the Usages are present. */
  function PresentCount(us: seq<Option<TokenCount>>): nat {
    if us == [] then 0
    else PresentCount(us[..|us| - 1]) + (if us[|us| - 1].Some? then 1 else 0)
  }

  /** One total per present Usage, the last being the overall sum; nothing
      is exported exactly when no reply carried a Usage. */
  lemma {:induction false} RunningTotalsSpec(us: seq<Option<TokenCount>>)
    ensures |RunningTotals(us)| == PresentCount(us) <= |us|
    ensures RunningTotals(us) != [] ==> RunningTotals(us)[|RunningTotals(us)| - 1] == Sum(us)
    ensures (forall j :: 0 <= j < |us| ==> us[j].None?) <==> RunningTotals(us) == []
    decreases |us|
  {
    if us != [] {
      var init := us[..|us| - 1];
      RunningTotalsSpec(init);
      assert forall j :: 0 <= j < |init| ==> init[j] == us[j];
    }
  }

  predicate AtMost(a: TokenCount, b: TokenCount) {
    a.tokensIn <= b.tokensIn && a.tokensOut <= b.tokensOut
  }

  lemma {:induction false} SumGrows(us: seq<Option<TokenCount>>, k: nat)
    requires k <= |us|
    ensures AtMost(Sum(us[..k]), Sum(us))
    decreases |us|
  {
    if k < |us| {
      var init := us[..|us| - 1];
      assert us[..k] == init[..k];
      SumGrows(init, k);
    } else {
      assert us[..k] == us;
    }
  }

  /** Exported totals never decrease from one chunk to the next. */
  lemma {:induction false} RunningTotalsMonotone(us: seq<Option<TokenCount>>)
    ensures forall i, j :: 0 <= i < j < |RunningTotals(us)| ==> AtMost(RunningTotals(us)[i], RunningTotals(us)[j])
    decreases |us|
  {
    if us != [] {
      var init := us[..|us| - 1];
      RunningTotalsMonotone(init);
      var r := RunningTotals(init);
      if us[|us| - 1].Some? && r != [] {
        SumGrows(us, |us| - 1);
        RunningTotalsSpec(init);
        assert us[..|us| - 1] == init;
        forall i | 0 <= i < |r| ensures AtMost(r[i], Sum(us)) {
          assert AtMost(r[i], r[|r| - 1]);
        }
      }
    }
  }

  /** Appending one reply's Usage extends the totals by at most one entry. */
  lemma RunningTotalsSnoc(us: seq<Option<TokenCount>>, u: Option<TokenCount>)
    ensures Sum(us + [u]) == (if u.Some? then Plus(Sum(us), u.value) else Sum(us))
    ensures RunningTotals(us + [u]) == RunningTotals(us) + (if u.Some? then [Sum(us + [u])] else [])
  {
    assert (us + [u])[..|us|] == us;
  }

  /** The entries a reply decodes to; none for a failing one. */
  function EntriesOf(rep: Reply): seq<Entry> {
    if Succeeds(rep) then rep.body.entries else []
  }

  /** Position `i` after a chunk loop has applied `rule` to the first `done`
      chunks of `size`: a position of chunk `j < done` (that is, below
      `Offset(done)`) has the rule applied with the entries of reply `j`;
      every later position keeps its value. */
  function ChunkedAt(olds: seq<SegmentValue>, size: int, replies: nat -> Reply, rule: Rule, done: nat, i: int): SegmentValue
    requires size > 0
  {
    if !(0 <= i < |olds|) then SegmentValue(0, 0.0, 0.0, "", None)
    else if i < Offset(done, size) then rule(olds[i], EntriesOf(replies(ChunkOf(i, size))))
    else olds[i]
  }

  /** The values of a list after a chunk loop has applied `rule` to its
      first `done` chunks. */
  function Chunked(olds: seq<SegmentValue>, size: int, replies: nat -> Reply, rule: Rule, done: nat): (r: seq<SegmentValue>)
    requires size > 0
    ensures |r| == |olds|
  {
    seq(|olds|, (i: int) => ChunkedAt(olds, size, replies, rule, done, i))
  }

  /** Before the loop nothing has changed. */
  lemma ChunkedNone(olds: seq<SegmentValue>, size: int, replies: nat -> Reply, rule: Rule)
    requires size > 0
    ensures Chunked(olds, size, replies, rule, 0) == olds
  {
  }

  /** Chunk `done` starts inside the list: handling it updates exactly its
      positions `lo..hi`, with the entries `e` of reply `done`. */
  lemma {:induction false} ChunkedStep(olds: seq<SegmentValue>, size: int, replies: nat -> Reply, rule: Rule, done: nat,
                                       lo: nat, hi: nat, e: seq<Entry>)
    requires size > 0 && lo == Offset(done, size) < |olds| && hi == Min(lo + size, |olds|)
    requires e == EntriesOf(replies(done))
    ensures var cur := Chunked(olds, size, replies, rule, done);
      Chunked(olds, size, replies, rule, done + 1) == cur[..lo] + ApplyAll(cur[lo..hi], rule, e) + cur[hi..]
  {
    var cur := Chunked(olds, size, replies, rule, done);
    var next := cur[..lo] + ApplyAll(cur[lo..hi], rule, e) + cur[hi..];
    forall i | 0 <= i < |olds| ensures Chunked(olds, size, replies, rule, done + 1)[i] == next[i] {
      ChunkedStepAt(olds, size, replies, rule, done, lo, hi, e, cur, i);
      UpdateAt(cur, rule, e, lo, hi, i);
    }
  }

  /** One position across one step: inside chunk `done` the rule applies
      with that chunk's reply, elsewhere nothing changes. */
  lemma ChunkedStepAt(olds: seq<SegmentValue>, size: int, replies: nat -> Reply, rule: Rule, done: nat,
                      lo: nat, hi: nat, e: seq<Entry>, cur: seq<SegmentValue>, i: nat)
    requires size > 0 && lo == Offset(done, size) < |olds| && hi == Min(lo + size, |olds|) && i < |olds|
    requires e == EntriesOf(replies(done)) && cur == Chunked(olds, size, replies, rule, done)
    ensures ChunkedAt(olds, size, replies, rule, done + 1, i) == if lo <= i < hi then rule(cur[i], e) else cur[i]
  {
    assert Offset(done + 1, size) == lo + size;
    assert cur[i] == ChunkedAt(olds, size, replies, rule, done, i);
    if lo <= i < hi {
      InChunk(size, done, i);
    }
  }

  /** The chunk about to be sent, `lo..hi`, still holds its original values. */
  lemma PendingChunk(olds: seq<SegmentValue>, size: int, replies: nat -> Reply, rule: Rule, done: nat, lo: nat, hi: nat)
    requires size > 0 && done < ChunkCount(|olds|, size)
    requires lo == Offset(done, size) && hi == Min(lo + size, |olds|)
    ensures lo < |olds| && Chunks(olds, size)[done] == Chunked(olds, size, replies, rule, done)[lo..hi]
  {
    ChunkIs(olds, size, done);
    ChunkedUntouched(olds, size, replies, rule, done, hi);
  }

  /** Positions from where chunk `done` starts still hold their old values. */
  lemma ChunkedUntouched(olds: seq<SegmentValue>, size: int, replies: nat -> Reply, rule: Rule, done: nat, hi: nat)
    requires size > 0 && Offset(done, size) <= hi <= |olds|
    ensures Chunked(olds, size, replies, rule, done)[Offset(done, size)..hi] == olds[Offset(done, size)..hi]
  {
    var lo := Offset(done, size);
    var cur := Chunked(olds, size, replies, rule, done);
    forall i | lo <= i < hi ensures cur[i] == olds[i] {
      assert cur[i] == ChunkedAt(olds, size, replies, rule, done, i);
    }
    forall i | 0 <= i < hi - lo ensures cur[lo..hi][i] == olds[lo..hi][i] {
      assert cur[lo..hi][i] == cur[lo + i];
    }
  }

  /** One position of a chunk update. */
  lemma UpdateAt(cur: seq<SegmentValue>, rule: Rule, e: seq<Entry>, lo: nat, hi: nat, i: nat)
    requires lo <= hi <= |cur| && i < |cur|
    ensures (cur[..lo] + ApplyAll(cur[lo..hi], rule, e) + cur[hi..])[i] == if lo <= i < hi then rule(cur[i], e) else cur[i]
  {
    var mid := ApplyAll(cur[lo..hi], rule, e);
    SpliceIndex(cur[..lo], mid, cur[hi..], i);
    if lo <= i < hi {
      assert cur[lo..hi][i - lo] == cur[i];
    }
  }

  /** Indexing into a three-part concatenation. */
  lemma SpliceIndex<T>(a: seq<T>, b: seq<T>, c: seq<T>, i: nat)
    requires i < |a| + |b| + |c|
    ensures (a + b + c)[i] == if i < |a| then a[i] else if i < |a| + |b| then b[i - |a|] else c[i - |a| - |b|]
  {
  }

  /** The tracker step after a chunk: add the chunk's Usage, if any, and
      export the new totals into `stats`. */
  method AddUsage(tracker: Usage, usage: Option<TokenCount>, stats: Stats?,
                  ghost before: map<string, int>, ghost us: seq<Option<TokenCount>>)
    requires tracker.Value() == Sum(us)
    requires stats != null ==> stats.entries == ExportAll(before, RunningTotals(us))
    modifies tracker, stats
    ensures tracker.Value() == Sum(us + [usage])
    ensures stats != null ==> stats.entries == ExportAll(before, RunningTotals(us + [usage]))
  {
    RunningTotalsSnoc(us, usage);
    if usage.Some? {
      tracker.tokensIn := tracker.tokensIn + usage.value.tokensIn;
      tracker.tokensOut := tracker.tokensOut + usage.value.tokensOut;
      tracker.Export(stats);
      ghost var exports := RunningTotals(us + [usage]);
      assert exports[..|exports| - 1] == RunningTotals(us);
    }
  }

  /** The decoding half of a round: the reply's entries update the chunk
      `segments[lo..hi]`, which takes the list from `k` to `k + 1` handled chunks. */
  method ApplyRound(segments: seq<Segment>, ghost olds: seq<SegmentValue>, size: int, kind: Kind, ghost rule: Rule, rep: Reply,
                    ghost replies: nat -> Reply, ghost k: nat, lo: nat, hi: nat)
    requires size > 0 && Distinct(segments) && |olds| == |segments| && rule == RuleOf(kind)
    requires rep == replies(k) && Succeeds(rep)
    requires lo == Offset(k, size) < |segments| && hi == Min(lo + size, |segments|)
    requires Values(segments) == Chunked(olds, size, replies, rule, k)
    modifies segments
    ensures Values(segments) == Chunked(olds, size, replies, rule, k + 1)
  {
    ghost var cur := Chunked(olds, size, replies, rule, k);
    var _ := ParseSlice(rep.body, segments, lo, hi, kind, cur);
    ChunkedStep(olds, size, replies, rule, k, lo, hi, rep.body.entries);
  }

  /** One completed round of a chunk loop: apply the decoded reply to the
      chunk `segments[lo..hi]`, then add its Usage to the tracker and export
      the totals. */
  method Round(segments: seq<Segment>, ghost olds: seq<SegmentValue>, size: int, kind: Kind, ghost rule: Rule, rep: Reply,
               ghost replies: nat -> Reply, ghost k: nat, lo: nat, hi: nat, tracker: Usage, stats: Stats?,
               ghost before: map<string, int>)
    requires size > 0 && Distinct(segments) && |olds| == |segments| && rule == RuleOf(kind)
    requires rep == replies(k) && Succeeds(rep)
    requires lo == Offset(k, size) < |segments| && hi == Min(lo + size, |segments|)
    requires Values(segments) == Chunked(olds, size, replies, rule, k)
    requires tracker.Value() == Sum(UsageScript(replies, k))
    requires stats != null ==> stats.entries == ExportAll(before, RunningTotals(UsageScript(replies, k)))
    modifies segments, tracker, stats
    ensures Values(segments) == Chunked(olds, size, replies, rule, k + 1)
    ensures tracker.Value() == Sum(UsageScript(replies, k + 1))
    ensures stats != null ==> stats.entries == ExportAll(before, RunningTotals(UsageScript(replies, k + 1)))
  {
    ApplyRound(segments, olds, size, kind, rule, rep, replies, k, lo, hi);
    ghost var applied := Values(segments);
    AddUsage(tracker, rep.usage, stats, before, UsageScript(replies, k));
    assert Values(segments) == applied;
  }

  /** The chunk loop of the three capabilities, after the prompt and the
      client are ready: for each chunk of `size` segments, record the values
      it is sent with, take reply `j`, stop at the first failing one,
      otherwise decode it into the chunk by the capability's rule, count its
      Usage and export the totals into `stats`. `done` counts the completed
      chunks, which are the ones yielded or collected; `sent` lists the
      chunks requested, the failing one included. */
  method ChunkLoop(segments: seq<Segment>, size: int, kind: Kind, ghost rule: Rule, replies: nat -> Reply, tracker: Usage, stats: Stats?,
                   ghost before: map<string, int>)
    returns (err: Option<Error>, sent: seq<seq<SegmentValue>>, done: nat)
    requires size > 0 && Distinct(segments) && rule == RuleOf(kind)
    requires tracker.Value() == TokenCount(0, 0)
    requires stats != null ==> stats.entries == before
    modifies segments, tracker, stats
    ensures var count := ChunkCount(|segments|, size);
      && done == DoneChunks(replies, count)
      && (err.None? <==> done == count)
      && (err.Some? ==> err.value == ReplyError(replies(done)))
      && sent == Chunks(old(Values(segments)), size)[..if done < count then done + 1 else done]
    ensures Reached(old(Values(segments)), size, replies, rule, before, Values(segments), tracker.Value(), stats, done)
  {
    ghost var olds := Values(segments);
    var count := ChunkCount(|segments|, size);
    ChunkedNone(olds, size, replies, rule);
    err, sent, done := None, [], 0;
    while done < count
      invariant done <= count
      invariant DoneChunks(replies, done) == done
      invariant sent == Chunks(olds, size)[..done]
      invariant Reached(olds, size, replies, rule, before, Values(segments), tracker.Value(), stats, done)
    {
      var failed;
      sent, failed := ChunkStep(segments, olds, size, kind, rule, replies, done, tracker, stats, before, sent);
      if failed {
        DoneChunksAt(replies, count, done);
        return Some(ReplyError(replies(done))), sent, done;
      }
      done := done + 1;
    }
    DoneChunksAt(replies, count, done);
  }

  /** The state of a chunk loop that has handled its first `k` chunks: the
      values hold the replies applied to those chunks, the tracker holds
      their Usage added up, and `stats` holds the totals exported so far. */
  ghost predicate Reached(olds: seq<SegmentValue>, size: int, replies: nat -> Reply, rule: Rule, before: map<string, int>,
                         values: seq<SegmentValue>, usage: TokenCount, stats: Stats?, k: nat)
    requires size > 0
    reads stats
  {
    && values == Chunked(olds, size, replies, rule, k)
    && usage == Sum(UsageScript(replies, k))
    && (stats != null ==> stats.entries == ExportAll(before, RunningTotals(UsageScript(replies, k))))
  }

  /** A whole chunk run after the client is obtained: a fresh Usage tracker,
      then the chunk loop. `collected` holds the segments of the completed
      chunks, in order (see YieldedChunks): all of them when no reply fails. */
  method RunChunks(segments: seq<Segment>, size: int, kind: Kind, ghost rule: Rule, stats: Stats?, replies: nat -> Reply)
    returns (collected: seq<Segment>, err: Option<Error>, sent: seq<seq<SegmentValue>>, done: nat)
    requires size > 0 && Distinct(segments) && rule == RuleOf(kind)
    modifies segments, stats
    ensures var count := ChunkCount(|segments|, size);
      && done == DoneChunks(replies, count)
      && collected == segments[..Min(Offset(done, size), |segments|)]
      && (err.None? <==> done == count)
      && (err.None? ==> collected == segments)
      && (err.Some? ==> err.value == ReplyError(replies(done)))
      && sent == Chunks(old(Values(segments)), size)[..if done < count then done + 1 else done]
      && Values(segments) == Chunked(old(Values(segments)), size, replies, rule, done)
      && (stats != null ==> stats.entries == ExportAll(old(stats.entries), RunningTotals(UsageScript(replies, done))))
  {
    ghost var olds := Values(segments);
    ghost var entries := if stats != null then stats.entries else map[];
    var tracker := new Usage();
    assert Values(segments) == olds && (stats != null ==> stats.entries == entries);
    err, sent, done := ChunkLoop(segments, size, kind, rule, replies, tracker, stats, entries);
    collected := Completed(segments, size, done);
  }

  /** The segments of the first `done` chunks, in order: all of them once
      every chunk is done. */
  method Completed(segments: seq<Segment>, size: int, done: nat) returns (collected: seq<Segment>)
    requires size > 0
    ensures collected == segments[..Min(Offset(done, size), |segments|)]
    ensures done >= ChunkCount(|segments|, size) ==> collected == segments
  {
    ChunkCountSpec(|segments|, size);
    if done > ChunkCount(|segments|, size) {
      OffsetGrows(ChunkCount(|segments|, size), done, size);
    }
    collected := segments[..Min(Offset(done, size), |segments|)];
  }

  /** One pass of the chunk loop at chunk `k`: send the chunk, and unless
      its reply fails, decode the reply into it and count its Usage. A
      failing reply leaves everything but `sent` as it was. */
  method ChunkStep(segments: seq<Segment>, ghost olds: seq<SegmentValue>, size: int, kind: Kind, ghost rule: Rule, replies: nat -> Reply,
                   k: nat, tracker: Usage, stats: Stats?, ghost before: map<string, int>, sent: seq<seq<SegmentValue>>)
    returns (sent': seq<seq<SegmentValue>>, failed: bool)
    requires size > 0 && Distinct(segments) && |olds| == |segments| && rule == RuleOf(kind) && k < ChunkCount(|segments|, size)
    requires sent == Chunks(olds, size)[..k]
    requires Reached(olds, size, replies, rule, before, Values(segments), tracker.Value(), stats, k)
    modifies segments, tracker, stats
    ensures sent' == Chunks(olds, size)[..k + 1]
    ensures failed <==> !Succeeds(replies(k))
    ensures Reached(olds, size, replies, rule, before, Values(segments), tracker.Value(), stats, if failed then k else k + 1)
  {
    var lo := Offset(k, size);
    var hi := Min(lo + size, |segments|);
    var batch := Chunks(segments, size)[k];
    SentChunk(segments, olds, size, rule, replies, k);
    sent' := SentStep(sent, Chunks(olds, size), k, Values(batch));
    var reply := replies(k);
    failed := !Succeeds(reply);
    if failed {
      return;
    }
    Round(segments, olds, size, kind, rule, reply, replies, k, lo, hi, tracker, stats, before);
  }

  /** One `{"index": ..., "text": ...}` object of a request payload. */
  datatype IndexedText = IndexedText(index: int, text: string)

  /** The payload the translator and the aligner build from a chunk: each
      segment's index and text, in the chunk's order. */
  function TextPayload(vs: seq<SegmentValue>): (r: seq<IndexedText>)
    ensures |r| == |vs|
    ensures forall i :: 0 <= i < |vs| ==> r[i] == IndexedText(vs[i].index, vs[i].text)
  {
    if vs == [] then [] else [IndexedText(vs[0].index, vs[0].text)] + TextPayload(vs[1..])
  }

  /** The values chunk `k` is sent with are its original ones. */
  lemma SentChunk(segments: seq<Segment>, olds: seq<SegmentValue>, size: int, rule: Rule, replies: nat -> Reply, k: nat)
    requires size > 0 && |olds| == |segments| && k < ChunkCount(|olds|, size)
    requires Values(segments) == Chunked(olds, size, replies, rule, k)
    ensures var lo := Offset(k, size);
      lo < |segments| && Chunks(segments, size)[k] == segments[lo..Min(lo + size, |segments|)]
      && Values(Chunks(segments, size)[k]) == Chunks(olds, size)[k]
  {
    var lo := Offset(k, size);
    ChunkIs(segments, size, k);
    PendingChunk(olds, size, replies, rule, k, lo, Min(lo + size, |segments|));
    SliceValues(segments, Chunks(segments, size)[k], Chunked(olds, size, replies, rule, k), Chunks(olds, size)[k], lo, Min(lo + size, |segments|));
  }

  /** The values of a slice of the segments are the slice of their values. */
  lemma SliceValues(segments: seq<Segment>, part: seq<Segment>, cur: seq<SegmentValue>, partValues: seq<SegmentValue>, lo: nat, hi: nat)
    requires lo <= hi <= |segments| && part == segments[lo..hi]
    requires Values(segments) == cur && partValues == cur[lo..hi]
    ensures Values(part) == partValues
  {
    ValuesSlice(segments, lo, hi);
  }

  /** The requests list after chunk `k` is sent. */
  function SentStep(sent: seq<seq<SegmentValue>>, ghost chunks: seq<seq<SegmentValue>>, ghost k: nat, v: seq<SegmentValue>): (r: seq<seq<SegmentValue>>)
    requires k < |chunks| && sent == chunks[..k] && v == chunks[k]
    ensures r == chunks[..k + 1]
  {
    sent + [v]
  }

  // ---------------------------------------------------------------------
  // Retry

  /** What one call of the retried function does. */
  datatype Attempt<T> = Returned(value: T) | Threw(error: Error)

  /** The observable steps of the retry loop. */
  datatype RetryStep = Call(attempt: nat) | Sleep(seconds: real)

  /** `retries if retries is not None else self.default_retries`. */
  function MaxRetries(retries: Option<int>): int {
    if retries.Some? then retries.value else DefaultRetries
  }

  /** The steps of `calls` attempts: one sleep of the fixed delay between
      consecutive attempts, none before the first or after the last. */
  function RetrySteps(calls: nat): (s: seq<RetryStep>)
    ensures calls == 0 <==> s == []
    ensures calls > 0 ==> s[0] == Call(0) && s[|s| - 1] == Call(calls - 1)
  {
    if calls <= 1 then (if calls == 0 then [] else [Call(0)])
    else RetrySteps(calls - 1) + [Sleep(RetryDelay), Call(calls - 1)]
  }

  /** The steps of one more attempt: the sleep after the previous one, if
      any, then the call. */
  lemma RetryStepsNext(a: nat)
    ensures RetrySteps(a + 1) == RetrySteps(a) + (if a > 0 then [Sleep(RetryDelay)] else []) + [Call(a)]
  {
  }

  function SleepCount(s: seq<RetryStep>): nat {
    if s == [] then 0 else SleepCount(s[..|s| - 1]) + (if s[|s| - 1].Sleep? then 1 else 0)
  }

  lemma SleepCountConcat(a: seq<RetryStep>, b: seq<RetryStep>)
    ensures SleepCount(a + b) == SleepCount(a) + SleepCount(b)
    decreases |b|
  {
    if b != [] {
      assert (a + b)[..|a + b| - 1] == a + b[..|b| - 1];
      SleepCountConcat(a, b[..|b| - 1]);
    } else {
      assert a + b == a;
    }
  }

  /** `calls` attempts sleep exactly `calls - 1` times. */
  lemma {:induction false} RetryStepsSleeps(calls: nat)
    requires calls > 0
    ensures SleepCount(RetrySteps(calls)) == calls - 1
  {
    if calls > 1 {
      RetryStepsSleeps(calls - 1);
      var tail := [Sleep(RetryDelay), Call(calls - 1)];
      SleepCountConcat(RetrySteps(calls - 1), tail);
      assert tail[..|tail| - 1] == [Sleep(RetryDelay)];
      assert [Sleep(RetryDelay)][..0] == [];
      assert SleepCount([Sleep(RetryDelay)]) == 1;
      assert SleepCount(tail) == 1;
    } else {
      assert [Call(0)][..0] == [];
    }
  }

  const RaiseNoneMessage: string := "exceptions must derive from BaseException"

  // ---------------------------------------------------------------------
  // The backend object

  /** The provider client a backend creates; only its identity matters. */
  class Client {
  }

  /** State of one AIBackendBase instance. */
  class AIBackend {
    const name: string
    const apiKey: Option<string>
    const apiKeyEnvVar: Option<string>
    const defaultChunk: int
    /** The cached `_client` (None until a truthy client is stored). */
    var client: Option<Client>
    /** How many times `_create_client` has run. */
    ghost var creations: nat

    constructor (name: string, apiKey: Option<string>, apiKeyEnvVar: Option<string>, defaultChunk: int)
      ensures this.name == name && this.apiKey == apiKey && this.apiKeyEnvVar == apiKeyEnvVar
      ensures this.defaultChunk == defaultChunk
      ensures client == None && creations == 0
    {
      this.name := name;
      this.apiKey := apiKey;
      this.apiKeyEnvVar := apiKeyEnvVar;
      this.defaultChunk := defaultChunk;
      client := None;
      creations := 0;
    }

    /** `_ensure_client`: a cached truthy client is returned as it is;
        otherwise `_create_client` runs (its outcome is `created`) and, if
        it returns, its client is cached and returned. */
    method EnsureClient(created: Result<Option<Client>>) returns (r: Result<Option<Client>>)
      modifies this
      ensures old(client).Some? ==> r == Success(old(client)) && client == old(client) && creations == old(creations)
      ensures old(client).None? ==> creations == old(creations) + 1 && r == created
      ensures old(client).None? && created.Success? ==> client == created.value
      ensures old(client).None? && created.Failure? ==> client == old(client)
    {
      if client.Some? {
        return Success(client);
      }
      creations := creations + 1;
      if created.Failure? {
        return created;
      }
      client := created.value;
      return Success(client);
    }

    /** `_resolve_api_key`: a truthy explicit key wins, then the value of the
        environment variable the backend names; with neither, a RuntimeError
        naming the variable (or "API key") and the backend. */
    function ResolveApiKey(env: map<string, string>): (r: Result<string>)
      ensures Truthy(apiKey) ==> r == Success(apiKey.value)
      ensures !Truthy(apiKey) && Truthy(apiKeyEnvVar) && apiKeyEnvVar.value in env && env[apiKeyEnvVar.value] != "" ==>
        r == Success(env[apiKeyEnvVar.value])
      ensures r.Failure? <==> !Truthy(apiKey) && !(Truthy(apiKeyEnvVar) && apiKeyEnvVar.value in env && env[apiKeyEnvVar.value] != "")
      ensures r.Failure? ==>
        r.error == Runtime((if Truthy(apiKeyEnvVar) then apiKeyEnvVar.value else "API key") + " is required for " + name + " backend.")
    {
      var key := if !Truthy(apiKey) && Truthy(apiKeyEnvVar) then
                   (if apiKeyEnvVar.value in env then Some(env[apiKeyEnvVar.value]) else None)
                 else apiKey;
      if !Truthy(key) then
        var hint := if Truthy(apiKeyEnvVar) then apiKeyEnvVar.value else "API key";
        Failure(Runtime(hint + " is required for " + name + " backend."))
      else Success(key.value)
    }

    /** `_retry`: call `fn` up to `max_retries + 1` times, sleeping the fixed
        delay after every failed attempt but the last; return the first
        result, or re-raise the last exception itself. A negative count runs
        no attempt and ends in `raise None`. Call `j` of `fn` behaves as `fn(j)`. */
    method Retry<T>(fn: nat -> Attempt<T>, retries: Option<int>) returns (r: Result<T>, calls: nat, steps: seq<RetryStep>)
      ensures steps == RetrySteps(calls)
      ensures MaxRetries(retries) < 0 ==> calls == 0 && r == Failure(TypeErr(RaiseNoneMessage))
      ensures MaxRetries(retries) >= 0 ==> 1 <= calls <= MaxRetries(retries) + 1
      ensures forall j :: 0 <= j < calls - 1 ==> fn(j).Threw?
      ensures r.Success? <==> calls > 0 && fn(calls - 1).Returned?
      ensures r.Success? ==> r.value == fn(calls - 1).value
      ensures r.Failure? && calls > 0 ==> calls == MaxRetries(retries) + 1 && r.error == fn(calls - 1).error
    {
      var maxRetries := MaxRetries(retries);
      var lastExc: Option<Error> := None;
      calls, steps := 0, [];
      var attempt := 0;
      while attempt < maxRetries + 1
        invariant maxRetries >= 0 ==> 0 <= attempt <= maxRetries + 1
        invariant maxRetries < 0 ==> attempt == 0
        invariant calls == attempt
        invariant steps == RetrySteps(attempt) + (if 0 < attempt <= maxRetries then [Sleep(RetryDelay)] else [])
        invariant forall j :: 0 <= j < attempt ==> fn(j).Threw?
        invariant attempt == 0 <==> lastExc.None?
        invariant attempt > 0 ==> lastExc == Some(fn(attempt - 1).error)
      {
        RetryStepsNext(attempt);
        steps := steps + [Call(attempt)];
        calls := calls + 1;
        var outcome := fn(attempt);
        if outcome.Returned? {
          return Success(outcome.value), calls, steps;
        }
        lastExc := Some(outcome.error);
        if attempt < maxRetries {
          steps := steps + [Sleep(RetryDelay)];
        }
        attempt := attempt + 1;
      }
      if lastExc.None? {
        return Failure(TypeErr(RaiseNoneMessage)), calls, steps;
      }
      return Failure(lastExc.value), calls, steps;
    }
  }
}
