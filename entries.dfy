// The parsed provider response shared by the three AI capabilities: the
// list `json.loads` returns, the lookup it is turned into (keyed by each
// entry's `index`), and the two rules by which a matched entry overwrites a
// segment (the text rule of the transcriber and translator, the timing rule
// of the aligner).
module Entries {
  import opened Common
  import opened Text

  /** One element of the parsed JSON array: an object with the fields the
      core reads (each possibly absent), or any non-object value. */
  datatype Entry =
    | Record(index: Option<int>, text: Option<string>, start: Option<real>, end: Option<real>)
    | NonRecord

  /** The result of `json.loads` on the stripped response text: a value
      that `for entry in parsed` can walk (an array; an object or a string
      walks as non-object entries), text that is not JSON together with the
      message `json.loads` raises for it (what was expected, and the line,
      column and character offset where decoding stopped), or a scalar
      (`null`, a number, a boolean) of the named Python type, which the walk
      rejects. */
  datatype Body = Entries(entries: seq<Entry>) | Malformed(message: string) | NotIterable(typeName: string)

  /** The exception a body that yields no entries raises: the JSON decode
      error, or the TypeError of iterating over a scalar. */
  function DecodeError(body: Body): Error
    requires !body.Entries?
  {
    if body.Malformed? then JsonDecode(body.message)
    else TypeErr("'" + body.typeName + "' object is not iterable")
  }

  /** The entry is an object whose `index` field equals `idx`. */
  predicate HasIndex(e: Entry, idx: int) {
    e.Record? && e.index == Some(idx)
  }

  /** `by_index.get(idx)`: the dict comprehension keeps, for each index,
      the last object carrying it; non-objects and objects without `index`
      never enter it. */
  function LookupIndex(entries: seq<Entry>, idx: int): (r: Option<Entry>)
    ensures r.Some? ==> HasIndex(r.value, idx)
    decreases |entries|
  {
    if |entries| == 0 then None
    else if HasIndex(entries[|entries| - 1], idx) then Some(entries[|entries| - 1])
    else LookupIndex(entries[..|entries| - 1], idx)
  }

  /** The lookup finds nothing exactly when no object carries the index,
      and otherwise the last object that does. */
  lemma {:induction false} LookupIndexSpec(entries: seq<Entry>, idx: int)
    ensures LookupIndex(entries, idx).None? <==> forall j :: 0 <= j < |entries| ==> !HasIndex(entries[j], idx)
    ensures LookupIndex(entries, idx).Some? ==>
      exists j :: 0 <= j < |entries| && entries[j] == LookupIndex(entries, idx).value && HasIndex(entries[j], idx)
        && forall j' :: j < j' < |entries| ==> !HasIndex(entries[j'], idx)
    decreases |entries|
  {
    if |entries| > 0 {
      var last := |entries| - 1;
      if HasIndex(entries[last], idx) {
        assert entries[last] == LookupIndex(entries, idx).value;
      } else {
        var init := entries[..last];
        LookupIndexSpec(init, idx);
        assert forall j :: 0 <= j < last ==> init[j] == entries[j];
      }
    }
  }

  /** The transcriber's and translator's update of one segment: a matched
      entry sets `text` to its stripped `text` field, or to "" when the
      field is absent; an unmatched segment keeps its value. */
  function ApplyText(v: SegmentValue, entries: seq<Entry>): SegmentValue {
    match LookupIndex(entries, v.index)
    case None => v
    case Some(e) => v.(text := Strip(if e.text.Some? then e.text.value else ""))
  }

  /** Only `text` changes; an unmatched segment keeps its value, a matched
      one takes the stripped text of the last entry with its index. */
  lemma ApplyTextSpec(v: SegmentValue, entries: seq<Entry>)
    ensures SameButText(ApplyText(v, entries), v)
    ensures (forall j :: 0 <= j < |entries| ==> !HasIndex(entries[j], v.index)) ==> ApplyText(v, entries) == v
    ensures forall j :: 0 <= j < |entries| && HasIndex(entries[j], v.index)
                        && (forall j' :: j < j' < |entries| ==> !HasIndex(entries[j'], v.index)) ==>
      ApplyText(v, entries).text == Strip(if entries[j].text.Some? then entries[j].text.value else "")
  {
    LookupIndexSpec(entries, v.index);
    forall j | 0 <= j < |entries| && HasIndex(entries[j], v.index)
               && (forall j' :: j < j' < |entries| ==> !HasIndex(entries[j'], v.index))
      ensures LookupIndex(entries, v.index) == Some(entries[j])
    {
      var k :| 0 <= k < |entries| && entries[k] == LookupIndex(entries, v.index).value && HasIndex(entries[k], v.index)
               && forall j' :: k < j' < |entries| ==> !HasIndex(entries[j'], v.index);
      assert k == j;
    }
  }

  /** Applying the same response twice leaves the state applying it once leaves. */
  lemma ApplyTextIdempotent(v: SegmentValue, entries: seq<Entry>)
    ensures ApplyText(ApplyText(v, entries), entries) == ApplyText(v, entries)
  {
  }

  /** The aligner's update of one segment: a matched entry replaces `start`
      and `end` where it carries them and `text` (unstripped) only where it
      carries that key; `index` and `audio` never change. */
  function ApplyTiming(v: SegmentValue, entries: seq<Entry>): SegmentValue {
    match LookupIndex(entries, v.index)
    case None => v
    case Some(e) =>
      v.(start := if e.start.Some? then e.start.value else v.start,
         end := if e.end.Some? then e.end.value else v.end,
         text := if e.text.Some? then e.text.value else v.text)
  }

  /** `index` and `audio` never change; an unmatched segment keeps its
      value; the last entry with the segment's index supplies each of
      `start`, `end` and `text` that it carries, the old value stays otherwise. */
  lemma ApplyTimingSpec(v: SegmentValue, entries: seq<Entry>)
    ensures ApplyTiming(v, entries).index == v.index && ApplyTiming(v, entries).audio == v.audio
    ensures (forall j :: 0 <= j < |entries| ==> !HasIndex(entries[j], v.index)) ==> ApplyTiming(v, entries) == v
    ensures forall j :: 0 <= j < |entries| && HasIndex(entries[j], v.index)
                        && (forall j' :: j < j' < |entries| ==> !HasIndex(entries[j'], v.index)) ==>
      var e, r := entries[j], ApplyTiming(v, entries);
      && r.start == (if e.start.Some? then e.start.value else v.start)
      && r.end == (if e.end.Some? then e.end.value else v.end)
      && r.text == (if e.text.Some? then e.text.value else v.text)
  {
    LookupIndexSpec(entries, v.index);
  }

  lemma ApplyTimingIdempotent(v: SegmentValue, entries: seq<Entry>)
    ensures ApplyTiming(ApplyTiming(v, entries), entries) == ApplyTiming(v, entries)
  {
  }

  /** A per-segment update: the text rule or the timing rule. */
  type Rule = (SegmentValue, seq<Entry>) -> SegmentValue

  /** Which `_parse_response_text` a capability has: the text update of the
      transcriber and the translator, or the timing update of the aligner. */
  datatype Kind = TextUpdate | TimingUpdate

  function RuleOf(kind: Kind): Rule {
    if kind.TextUpdate? then ApplyText else ApplyTiming
  }

  lemma RuleIdempotent(kind: Kind, v: SegmentValue, entries: seq<Entry>)
    ensures RuleOf(kind)(RuleOf(kind)(v, entries), entries) == RuleOf(kind)(v, entries)
  {
    if kind.TextUpdate? {
      ApplyTextIdempotent(v, entries);
    } else {
      ApplyTimingIdempotent(v, entries);
    }
  }

  /** One step of the parse loop keeps its invariant: writing the updated
      value into `batch[k]` affects every position holding that object, and
      idempotence makes a second visit harmless. */
  lemma StepApplied(batch: seq<Segment>, olds: seq<SegmentValue>, rule: Rule, entries: seq<Entry>, k: nat, before: SegmentValue)
    requires k < |batch| == |olds|
    requires before == (if batch[k] in batch[..k] then rule(olds[k], entries) else olds[k])
    requires batch[k].Value() == rule(before, entries)
    requires rule(rule(olds[k], entries), entries) == rule(olds[k], entries)
    requires forall i :: 0 <= i < |batch| && batch[i] == batch[k] ==> olds[i] == olds[k]
    ensures forall i :: 0 <= i < |batch| && batch[i] == batch[k] ==> batch[i].Value() == rule(olds[i], entries)
  {
  }

  /** The body of the parse loop for one segment: the matched entry, if
      any, updates the segment's fields as the capability's rule says. */
  method ApplyTo(seg: Segment, entries: seq<Entry>, kind: Kind)
    modifies seg
    ensures seg.Value() == RuleOf(kind)(old(seg.Value()), entries)
  {
    var entry := LookupIndex(entries, seg.index);
    if entry.None? {
      return;
    }
    var e := entry.value;
    match kind
    case TextUpdate =>
      seg.text := Strip(if e.text.Some? then e.text.value else "");
    case TimingUpdate =>
      seg.start := if e.start.Some? then e.start.value else seg.start;
      seg.end := if e.end.Some? then e.end.value else seg.end;
      if e.text.Some? {
        seg.text := e.text.value;
      }
  }

  /** `_parse_response_text`: decode, then update each matched segment of
      `batch` in order. A malformed or scalar body raises before any segment
      is touched. */
  method ParseResponse(body: Body, batch: seq<Segment>, kind: Kind) returns (err: Option<Error>)
    modifies batch
    ensures body.Malformed? ==> err == Some(JsonDecode(body.message))
    ensures body.NotIterable? ==> err == Some(TypeErr("'" + body.typeName + "' object is not iterable"))
    ensures !body.Entries? ==> forall i :: 0 <= i < |batch| ==> batch[i].Value() == old(batch[i].Value())
    ensures body.Entries? ==> err == None
    ensures body.Entries? ==>
      forall i :: 0 <= i < |batch| ==> batch[i].Value() == RuleOf(kind)(old(batch[i].Value()), body.entries)
  {
    if !body.Entries? {
      return Some(DecodeError(body));
    }
    var entries := body.entries;
    ghost var olds := Values(batch);
    ghost var rule := RuleOf(kind);
    var k := 0;
    while k < |batch|
      invariant 0 <= k <= |batch|
      invariant forall i, j :: 0 <= i < |batch| && 0 <= j < |batch| && batch[i] == batch[j] ==> olds[i] == olds[j]
      invariant forall i :: 0 <= i < |batch| ==>
        batch[i].Value() == if batch[i] in batch[..k] then rule(olds[i], entries) else olds[i]
    {
      var seg := batch[k];
      ghost var before := seg.Value();
      ApplyTo(seg, entries, kind);
      RuleIdempotent(kind, olds[k], entries);
      StepApplied(batch, olds, rule, entries, k, before);
      assert batch[..k + 1] == batch[..k] + [seg];
      forall i | 0 <= i < |batch| && batch[i] != seg
        ensures batch[i].Value() == if batch[i] in batch[..k + 1] then rule(olds[i], entries) else olds[i]
      {
        assert batch[i] in batch[..k + 1] <==> batch[i] in batch[..k];
      }
      k := k + 1;
    }
    assert batch[..k] == batch;
    return None;
  }

  /** A rule applied to every value of a chunk. */
  function ApplyAll(vs: seq<SegmentValue>, rule: Rule, entries: seq<Entry>): (r: seq<SegmentValue>)
    ensures |r| == |vs| && forall i :: 0 <= i < |vs| ==> r[i] == rule(vs[i], entries)
  {
    if vs == [] then [] else [rule(vs[0], entries)] + ApplyAll(vs[1..], rule, entries)
  }

  /** `_parse_response_text` on the chunk `segments[lo..hi]` of a list
      without repeated objects, stated on the values of the whole list. */
  method ParseSlice(body: Body, segments: seq<Segment>, lo: nat, hi: nat, kind: Kind, ghost cur: seq<SegmentValue>)
    returns (err: Option<Error>)
    requires Distinct(segments) && lo <= hi <= |segments| && Values(segments) == cur
    modifies segments
    ensures !body.Entries? ==> err == Some(DecodeError(body)) && Values(segments) == cur
    ensures body.Entries? ==> err == None
    ensures body.Entries? ==> Values(segments) == cur[..lo] + ApplyAll(cur[lo..hi], RuleOf(kind), body.entries) + cur[hi..]
  {
    DistinctSlice(segments, lo, hi);
    err := ParseResponse(body, segments[lo..hi], kind);
    assert forall i :: lo <= i < hi ==> segments[lo..hi][i - lo] == segments[i];
    if body.Entries? {
      Splice(cur, Values(segments), RuleOf(kind), body.entries, lo, hi);
    } else {
      assert Values(segments) == cur;
    }
  }

  /** Position-wise facts about a chunk update, as one sequence equation. */
  lemma Splice(before: seq<SegmentValue>, after: seq<SegmentValue>, rule: Rule, entries: seq<Entry>, lo: nat, hi: nat)
    requires lo <= hi <= |before| == |after|
    requires forall i :: lo <= i < hi ==> after[i] == rule(before[i], entries)
    requires forall i :: 0 <= i < |before| && !(lo <= i < hi) ==> after[i] == before[i]
    ensures after == before[..lo] + ApplyAll(before[lo..hi], rule, entries) + before[hi..]
  {
    var a, b, c := before[..lo], ApplyAll(before[lo..hi], rule, entries), before[hi..];
    forall i | 0 <= i < |after| ensures after[i] == (a + b + c)[i] {
      if i < lo {
        assert (a + b + c)[i] == a[i];
      } else if i < hi {
        assert (a + b + c)[i] == b[i - lo];
        assert before[lo..hi][i - lo] == before[i];
      } else {
        assert (a + b + c)[i] == c[i - hi];
      }
    }
  }
}
