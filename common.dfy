// The shared records of audio2sub (audio2sub/common.py): the mutable
// Segment, the Usage token tracker and the stats mapping it exports into,
// the error kinds the core raises, and the missing-dependency message.
module Common {

  datatype Option<+T> = None | Some(value: T)

  datatype Result<+T> = Success(value: T) | Failure(error: Error)

  /** The exception kinds the core raises or lets through. */
  datatype Error =
    | FileNotFound(message: string)
    | Runtime(message: string)
    | MissingDependency(message: string)
    | ValueErr(message: string)
    | JsonDecode(message: string)
    | TypeErr(message: string)
    | Provider(message: string)

  /** Python truthiness of an optional string: neither None nor "". */
  predicate Truthy(s: Option<string>) {
    s.Some? && s.value != ""
  }

  /** A snapshot of the fields of one Segment. */
  datatype SegmentValue = SegmentValue(index: int, start: real, end: real, text: string, audio: Option<string>)

  /** Two snapshots that differ at most in `text`. */
  predicate SameButText(a: SegmentValue, b: SegmentValue) {
    a.index == b.index && a.start == b.start && a.end == b.end && a.audio == b.audio
  }

  /** One subtitle unit; every stage updates its fields in place. */
  class Segment {
    var index: int
    var start: real
    var end: real
    var text: string
    var audio: Option<string>

    constructor (index: int, start: real, end: real, text: string := "", audio: Option<string> := None)
      ensures Value() == SegmentValue(index, start, end, text, audio)
    {
      this.index := index;
      this.start := start;
      this.end := end;
      this.text := text;
      this.audio := audio;
    }

    function Value(): SegmentValue
      reads this
    {
      SegmentValue(index, start, end, text, audio)
    }
  }

  /** The snapshots of a segment list, position by position. */
  function Values(segs: seq<Segment>): (r: seq<SegmentValue>)
    reads segs
    ensures |r| == |segs|
  {
    seq(|segs|, i reads segs => if 0 <= i < |segs| then segs[i].Value() else SegmentValue(0, 0.0, 0.0, "", None))
  }

  lemma ValuesSlice(segs: seq<Segment>, lo: nat, hi: nat)
    requires lo <= hi <= |segs|
    ensures Values(segs[lo..hi]) == Values(segs)[lo..hi]
  {
  }

  /** The values of a list, given position by position. */
  lemma ValuesAre(segs: seq<Segment>, vs: seq<SegmentValue>)
    requires |segs| == |vs| && forall j :: 0 <= j < |segs| ==> segs[j].Value() == vs[j]
    ensures Values(segs) == vs
  {
  }

  /** No Segment object occurs twice in the list. */
  predicate Distinct(segs: seq<Segment>) {
    segs == [] || (segs[0] !in segs[1..] && Distinct(segs[1..]))
  }

  /** In a list without repeated objects, two positions hold different objects. */
  lemma {:induction false} DistinctAt(segs: seq<Segment>, i: nat, j: nat)
    requires Distinct(segs) && i < j < |segs|
    ensures segs[i] != segs[j]
  {
    if i == 0 {
      assert segs[j] == segs[1..][j - 1];
    } else {
      assert segs[i] == segs[1..][i - 1] && segs[j] == segs[1..][j - 1];
      DistinctAt(segs[1..], i - 1, j - 1);
    }
  }

  /** In a list without repeated objects, an object of the slice
      `segs[lo..hi]` occurs at no position outside it. */
  lemma DistinctSlice(segs: seq<Segment>, lo: nat, hi: nat)
    requires Distinct(segs) && lo <= hi <= |segs|
    ensures forall i :: 0 <= i < |segs| && !(lo <= i < hi) ==> segs[i] !in segs[lo..hi]
  {
    forall i, j | 0 <= i < |segs| && !(lo <= i < hi) && lo <= j < hi ensures segs[i] != segs[j] {
      if i < j { DistinctAt(segs, i, j); } else { DistinctAt(segs, j, i); }
    }
  }

  datatype TokenCount = TokenCount(tokensIn: nat, tokensOut: nat)

  const TokensInKey: string := "tokens_in"
  const TokensOutKey: string := "tokens_out"

  /** The caller's stats dictionary. */
  class Stats {
    var entries: map<string, int>

    constructor (entries: map<string, int>)
      ensures this.entries == entries
    {
      this.entries := entries;
    }
  }

  /** `m` after the two token keys are written with the given counts. */
  function Exported(m: map<string, int>, t: TokenCount): (r: map<string, int>)
    ensures TokensInKey in r && r[TokensInKey] == t.tokensIn
    ensures TokensOutKey in r && r[TokensOutKey] == t.tokensOut
    ensures r.Keys == m.Keys + {TokensInKey, TokensOutKey}
    ensures forall k :: k in m && k != TokensInKey && k != TokensOutKey ==> r[k] == m[k]
  {
    m[TokensInKey := t.tokensIn][TokensOutKey := t.tokensOut]
  }

  /** A later export overwrites an earlier one: nothing is added up. */
  lemma ExportOverwrites(m: map<string, int>, a: TokenCount, b: TokenCount)
    ensures Exported(Exported(m, a), b) == Exported(m, b)
  {
    var l, r := Exported(Exported(m, a), b), Exported(m, b);
    assert l.Keys == r.Keys;
    forall k | k in l ensures l[k] == r[k] {
    }
  }

  /** Exporting twice leaves the map exporting once leaves. */
  lemma ExportIdempotent(m: map<string, int>, t: TokenCount)
    ensures Exported(Exported(m, t), t) == Exported(m, t)
  {
    ExportOverwrites(m, t, t);
  }

  /** `m` after a run of exports, in order. */
  function ExportAll(m: map<string, int>, ts: seq<TokenCount>): map<string, int> {
    if ts == [] then m else Exported(ExportAll(m, ts[..|ts| - 1]), ts[|ts| - 1])
  }

  /** After any run of exports only the last one shows. */
  lemma {:induction false} ExportAllLast(m: map<string, int>, ts: seq<TokenCount>)
    ensures ts == [] ==> ExportAll(m, ts) == m
    ensures ts != [] ==> ExportAll(m, ts) == Exported(m, ts[|ts| - 1])
    decreases |ts|
  {
    if |ts| > 1 {
      var init := ts[..|ts| - 1];
      ExportAllLast(m, init);
      assert init[|init| - 1] == ts[|ts| - 2];
      ExportOverwrites(m, init[|init| - 1], ts[|ts| - 1]);
    } else if |ts| == 1 {
      assert ts[..0] == [];
    }
  }

  /** A token tracker, created at zero and incremented in place. */
  class Usage {
    var tokensIn: nat
    var tokensOut: nat

    constructor ()
      ensures tokensIn == 0 && tokensOut == 0
    {
      tokensIn := 0;
      tokensOut := 0;
    }

    function Value(): TokenCount
      reads this
    {
      TokenCount(tokensIn, tokensOut)
    }

    /** Writes both counters into `stats`; does nothing without a map. */
    method Export(stats: Stats?)
      modifies stats
      ensures stats != null ==> stats.entries == Exported(old(stats.entries), Value())
      ensures tokensIn == old(tokensIn) && tokensOut == old(tokensOut)
    {
      if stats == null {
        return;
      }
      stats.entries := stats.entries[TokensInKey := tokensIn];
      stats.entries := stats.entries[TokensOutKey := tokensOut];
    }
  }

  const BackendPrefix: string := "Backend '"
  const InstallHintPrefix: string := "`pip install audio2sub["

  /** The install hint for the extra named `name`. */
  function InstallHint(name: string): string {
    InstallHintPrefix + name + "]`."
  }

  /** The message of the exception raised when a backend's library is missing. */
  function MissingDependencyMessage(name: string): (msg: string)
    ensures |msg| > |BackendPrefix| + |name|
    ensures msg[..|BackendPrefix|] == BackendPrefix
    ensures msg[|BackendPrefix|..|BackendPrefix| + |name|] == name
    ensures |InstallHint(name)| <= |msg| && msg[|msg| - |InstallHint(name)|..] == InstallHint(name)
  {
    var head := BackendPrefix + name;
    var m := head + "' is not installed. Install with " + InstallHint(name);
    assert m == head + ("' is not installed. Install with " + InstallHint(name));
    assert m[..|head|] == head;
    assert m[|m| - |InstallHint(name)|..] == InstallHint(name);
    m
  }
}
