/** Cutting a recording into windows, and assembling the utterances heard in them into chunks. */
module AudioWindows {
  import opened Common
  import opened Text

  const DEFAULT_SEGMENT_MS: int := 300_000

  // ---------------------------------------------------------------- windows

  datatype Window = Window(start: int, end: int)

  /** The limits after clamping, so that the walk always advances. */
  function Longest(maxMs: int): (m: int)
    ensures m > 0 && (maxMs > 0 ==> m == maxMs) && (maxMs <= 0 ==> m == 300_000)
  {
    if maxMs <= 0 then DEFAULT_SEGMENT_MS else maxMs
  }

  function Overlap(maxMs: int, overlapMs: int): (o: int)
    ensures 0 <= o < Longest(maxMs)
    ensures 0 <= overlapMs < Longest(maxMs) ==> o == overlapMs
    ensures overlapMs < 0 ==> o == 0
    ensures overlapMs >= Longest(maxMs) ==> 0 <= Longest(maxMs) - 2 * o <= 1
  {
    if overlapMs < 0 then 0 else if overlapMs >= Longest(maxMs) then Longest(maxMs) / 2 else overlapMs
  }

  /** Full windows from the start, each beginning an overlap before the last one's end, the final one cut at the end. */
  ghost predicate Covers(w: seq<Window>, duration: int, longest: int, overlap: int) {
    && w != [] && w[0].start == 0 && w[|w| - 1].end == duration
    && (forall k :: 0 <= k < |w| ==> w[k].start < w[k].end <= w[k].start + longest)
    && (forall k :: 0 <= k < |w| - 1 ==>
          w[k].end == w[k].start + longest && w[k].end < duration && w[k + 1].start == w[k].end - overlap)
  }

  /** The full windows walked so far, with start where the next begins. */
  ghost predicate Walked(w: seq<Window>, start: int, duration: int, longest: int, overlap: int) {
    && 0 <= start < duration
    && (forall k :: 0 <= k < |w| ==> w[k].start < w[k].end == w[k].start + longest < duration)
    && (forall k :: 0 <= k < |w| - 1 ==> w[k + 1].start == w[k].end - overlap)
    && (if w == [] then start == 0 else w[0].start == 0 && start == w[|w| - 1].end - overlap)
  }

  lemma WalkOn(w: seq<Window>, start: int, duration: int, longest: int, overlap: int)
    requires Walked(w, start, duration, longest, overlap) && 0 <= overlap < longest
    ensures start + longest < duration ==>
              Walked(w + [Window(start, start + longest)], start + longest - overlap, duration, longest, overlap)
    ensures start + longest >= duration ==> Covers(w + [Window(start, duration)], duration, longest, overlap)
  {
  }

  method SplitWindows(duration: int, maxMs: int, overlapMs: int) returns (w: seq<Window>)
    ensures duration <= 0 ==> w == []
    ensures duration > 0 ==> Covers(w, duration, Longest(maxMs), Overlap(maxMs, overlapMs))
  {
    w := [];
    if duration <= 0 { return; }
    var longest, overlap := Longest(maxMs), Overlap(maxMs, overlapMs);
    var start := 0;
    assert Walked(w, start, duration, longest, overlap);
    hide Walked;
    hide Covers;
    while start < duration
      invariant Walked(w, start, duration, longest, overlap)
      decreases duration - start
    {
      var end := start + longest;
      WalkOn(w, start, duration, longest, overlap);
      if end >= duration {
        w := w + [Window(start, duration)];
        return;
      }
      w := w + [Window(start, end)];
      start := end - overlap;
    }
    assert false by { NotPast(w, start, duration, longest, overlap); }
  }

  lemma NotPast(w: seq<Window>, start: int, duration: int, longest: int, overlap: int)
    requires Walked(w, start, duration, longest, overlap)
    ensures start < duration
  {
  }

  /** The shape leaves no choice: one duration and one pair of limits give one list of windows. */
  lemma {:induction false} WindowsUnique(v: seq<Window>, w: seq<Window>, duration: int, longest: int, overlap: int)
    requires Covers(v, duration, longest, overlap) && Covers(w, duration, longest, overlap) && longest > 0
             && 0 <= overlap < longest
    ensures v == w
  {
    var n := if |v| <= |w| then |v| else |w|;
    SameStarts(v, w, duration, longest, overlap, n);
    forall k | 0 <= k < n ensures v[k] == w[k] {}
  }

  lemma {:induction false} SameStarts(v: seq<Window>, w: seq<Window>, duration: int, longest: int, overlap: int, n: nat)
    requires Covers(v, duration, longest, overlap) && Covers(w, duration, longest, overlap) && n <= |v| && n <= |w|
    ensures forall k :: 0 <= k < n ==> v[k].start == w[k].start
  {
    if n > 1 {
      SameStarts(v, w, duration, longest, overlap, n - 1);
      assert v[n - 2].end == w[n - 2].end;
    }
  }

  lemma {:induction false} WalkToEnd(w: seq<Window>, start: int, duration: int, longest: int, overlap: int)
    returns (v: seq<Window>)
    requires Walked(w, start, duration, longest, overlap) && 0 <= overlap < longest
    ensures Covers(v, duration, longest, overlap)
    decreases duration - start
  {
    WalkOn(w, start, duration, longest, overlap);
    NotPast(w, start, duration, longest, overlap);
    hide Walked;
    hide Covers;
    if start + longest >= duration {
      v := w + [Window(start, duration)];
    } else {
      v := WalkToEnd(w + [Window(start, start + longest)], start + longest - overlap, duration, longest, overlap);
    }
  }

  /** Every recording has its list of windows. */
  lemma WindowsExist(duration: int, longest: int, overlap: int) returns (w: seq<Window>)
    requires duration > 0 && 0 <= overlap < longest
    ensures Covers(w, duration, longest, overlap)
  {
    assert Walked([], 0, duration, longest, overlap);
    w := WalkToEnd([], 0, duration, longest, overlap);
  }

  /** Every moment, and every utterance no longer than the overlap, lies whole inside one window. */
  lemma {:induction false} CaughtWhole(w: seq<Window>, duration: int, longest: int, overlap: int, a: int, b: int,
      from: nat)
    returns (k: nat)
    requires Covers(w, duration, longest, overlap) && 0 <= a <= b <= duration && b - a <= overlap
    requires from < |w| && w[from].start <= a
    ensures k < |w| && w[k].start <= a && b <= w[k].end
    decreases |w| - from
  {
    if b <= w[from].end {
      k := from;
    } else {
      assert w[from + 1].start == w[from].end - overlap;
      k := CaughtWhole(w, duration, longest, overlap, a, b, from + 1);
    }
  }

  // ---------------------------------------------------------------- utterances

  datatype Utterance = Utterance(start: int, end: int, text: string, isSpeech: bool)

  const TARGET_CHARS: nat := 4000
  const MIN_CHARS: nat := 200

  predicate Speaks(u: Utterance) {
    u.isSpeech && !Blank(u.text)
  }

  function Middle(u: Utterance): int {
    Quo(u.start + u.end, 2)
  }

  /** The latest end among the utterances, -1 for none. */
  function Reach(us: seq<Utterance>): (r: int)
    ensures forall u :: u in us ==> u.end <= r
  {
    if us == [] then -1
    else
      var r := Reach(us[..|us| - 1]);
      assert us == us[..|us| - 1] + [us[|us| - 1]];
      if us[|us| - 1].end > r then us[|us| - 1].end else r
  }

  /** What the de-overlap keeps: the spoken utterances whose middle is not inside what is kept before them. */
  function Kept(us: seq<Utterance>): seq<Utterance> {
    if us == [] then []
    else
      var before, u := Kept(us[..|us| - 1]), us[|us| - 1];
      if Speaks(u) && Middle(u) >= Reach(before) then before + [u] else before
  }

  /** Every spoken utterance is kept or has its middle before the end of one that is (times below zero aside). */
  lemma {:induction false} KeptOrCovered(us: seq<Utterance>, k: nat)
    requires k < |us| && Speaks(us[k])
    ensures us[k] in Kept(us) || Middle(us[k]) < -1 || exists v :: v in Kept(us) && Middle(us[k]) < v.end
    decreases |us|
  {
    var init := us[..|us| - 1];
    if k < |us| - 1 {
      KeptOrCovered(init, k);
      if us[k] !in Kept(us) && Middle(us[k]) >= -1 {
        var v :| v in Kept(init) && Middle(init[k]) < v.end;
        assert v in Kept(us);
      }
    } else if us[k] !in Kept(us) && Middle(us[k]) >= -1 {
      ReachIsOne(Kept(init), Middle(us[k]));
    }
  }

  lemma {:induction false} ReachIsOne(us: seq<Utterance>, x: int)
    requires x < Reach(us) && x >= -1
    ensures exists v :: v in us && x < v.end
    decreases |us|
  {
    if us != [] {
      var init, u := us[..|us| - 1], us[|us| - 1];
      assert us == init + [u];
      if u.end <= Reach(init) {
        ReachIsOne(init, x);
        var v :| v in init && x < v.end;
        assert v in us;
      } else {
        assert u in us;
      }
    }
  }

  /** The middle lies half way, to a millisecond. */
  lemma MiddleIsHalfWay(u: Utterance)
    ensures u.start + u.end >= 0 ==> 2 * Middle(u) <= u.start + u.end <= 2 * Middle(u) + 1
    ensures u.start + u.end < 0 ==> 2 * Middle(u) - 1 <= u.start + u.end <= 2 * Middle(u)
    ensures 0 <= u.start <= u.end ==> u.start <= Middle(u) <= u.end
  {
  }

  /**
   The utterances at picks are the ones to keep: each is speech with a text and has its middle at or after the end of
   every one picked before it, and whatever is left out is silent, blank, or has its middle before such an end.
   */
  ghost predicate Selected(us: seq<Utterance>, picks: seq<nat>) {
    && (forall l, m :: 0 <= l < m < |picks| ==> picks[l] < picks[m])
    && (forall m :: 0 <= m < |picks| ==> picks[m] < |us|)
    && (forall m :: 0 <= m < |picks| ==>
          && us[picks[m]].isSpeech && !Blank(us[picks[m]].text) && Middle(us[picks[m]]) >= -1
          && forall l :: 0 <= l < m ==> Middle(us[picks[m]]) >= us[picks[l]].end)
    && (forall i: nat :: i < |us| && i !in picks ==>
          || !us[i].isSpeech || Blank(us[i].text) || Middle(us[i]) < -1
          || exists l :: 0 <= l < |picks| && picks[l] < i && Middle(us[i]) < us[picks[l]].end)
  }

  /** The utterances at the picked places. */
  function At(us: seq<Utterance>, picks: seq<nat>): seq<Utterance>
    requires forall m :: 0 <= m < |picks| ==> picks[m] < |us|
  {
    seq(|picks|, m requires 0 <= m < |picks| => us[picks[m]])
  }

  lemma ReachOf(us: seq<Utterance>, x: int)
    ensures x >= Reach(us) <==> x >= -1 && forall m :: 0 <= m < |us| ==> x >= us[m].end
  {
    if x < Reach(us) && x >= -1 {
      ReachIsOne(us, x);
      var v :| v in us && x < v.end;
      var m :| 0 <= m < |us| && us[m] == v;
    }
    forall m | 0 <= m < |us| ensures us[m].end <= Reach(us) { assert us[m] in us; }
    ReachAtLeast(us);
  }

  lemma {:induction false} ReachAtLeast(us: seq<Utterance>)
    ensures Reach(us) >= -1
    decreases |us|
  {
    if us != [] { ReachAtLeast(us[..|us| - 1]); }
  }

  lemma SelectNext(us: seq<Utterance>, u: Utterance, picks: seq<nat>)
    requires Selected(us, picks)
    ensures u.isSpeech && !Blank(u.text) && Middle(u) >= Reach(At(us, picks)) ==> Selected(us + [u], picks + [|us|])
    ensures !(u.isSpeech && !Blank(u.text) && Middle(u) >= Reach(At(us, picks))) ==> Selected(us + [u], picks)
  {
    hide Blank;
    hide Middle;
    hide Reach;
    ReachOf(At(us, picks), Middle(u));
    var more := us + [u];
    assert forall m :: 0 <= m < |picks| ==> At(us, picks)[m] == us[picks[m]] == more[picks[m]];
    assert more[|us|] == u;
    forall i: nat | i < |us| && i !in picks
      ensures || !more[i].isSpeech || Blank(more[i].text) || Middle(more[i]) < -1
              || exists l :: 0 <= l < |picks| && picks[l] < i && Middle(more[i]) < more[picks[l]].end
    {
      assert more[i] == us[i];
    }
    if !(u.isSpeech && !Blank(u.text) && Middle(u) >= Reach(At(us, picks))) {
      TakesNoMore(us, u, picks);
    } else {
      TakesMore(us, u, picks);
    }
  }

  lemma TakesNoMore(us: seq<Utterance>, u: Utterance, picks: seq<nat>)
    requires Selected(us, picks)
    requires || !u.isSpeech || Blank(u.text) || Middle(u) < -1
             || exists m :: 0 <= m < |picks| && Middle(u) < us[picks[m]].end
    ensures Selected(us + [u], picks)
  {
    hide Blank;
    hide Middle;
  }

  lemma TakesMore(us: seq<Utterance>, u: Utterance, picks: seq<nat>)
    requires Selected(us, picks) && u.isSpeech && !Blank(u.text) && Middle(u) >= -1
    requires forall m :: 0 <= m < |picks| ==> Middle(u) >= us[picks[m]].end
    ensures Selected(us + [u], picks + [|us|])
  {
    hide Blank;
    hide Middle;
    var all := picks + [|us|];
    forall i: nat | i < |us| + 1 && i !in all
      ensures || !us[i].isSpeech || Blank(us[i].text) || Middle(us[i]) < -1
              || exists l :: 0 <= l < |all| && all[l] < i && Middle(us[i]) < (us + [u])[all[l]].end
    {
      assert all[|picks|] == |us| && i != |us|;
      assert forall l :: 0 <= l < |picks| ==> all[l] == picks[l];
      assert i !in picks;
      if us[i].isSpeech && !Blank(us[i].text) && Middle(us[i]) >= -1 {
        var l :| 0 <= l < |picks| && picks[l] < i && Middle(us[i]) < us[picks[l]].end;
        assert all[l] < i && Middle(us[i]) < (us + [u])[all[l]].end;
      }
    }
  }

  /** What the de-overlap keeps is exactly that selection. */
  lemma {:induction false} KeptIsSelected(us: seq<Utterance>) returns (picks: seq<nat>)
    ensures (forall m :: 0 <= m < |picks| ==> picks[m] < |us|) && Selected(us, picks) && Kept(us) == At(us, picks)
    decreases |us|
  {
    hide Selected;
    hide Reach;
    hide Middle;
    hide Blank;
    if us == [] {
      SelectedNone();
      return [];
    }
    var init, u := us[..|us| - 1], us[|us| - 1];
    picks := KeptIsSelected(init);
    assert us == init + [u];
    SelectNext(init, u, picks);
    AtMore(init, u, picks);
    if u.isSpeech && !Blank(u.text) && Middle(u) >= Reach(At(init, picks)) { picks := picks + [|init|]; }
  }

  lemma SelectedNone()
    ensures Selected([], []) && At([], []) == []
  {
  }

  lemma AtMore(us: seq<Utterance>, u: Utterance, picks: seq<nat>)
    requires forall m :: 0 <= m < |picks| ==> picks[m] < |us|
    ensures At(us + [u], picks) == At(us, picks) && At(us + [u], picks + [|us|]) == At(us, picks) + [u]
  {
  }

  // ---------------------------------------------------------------- chunks

  /** One utterance's text in a chunk. */
  datatype Part = Part(text: string)
  datatype Chunk = Chunk(parts: seq<Part>, start: int, end: int)

  /** The characters of the parts, each with its separator. */
  function Size(parts: seq<Part>): nat {
    if parts == [] then 0 else Size(parts[..|parts| - 1]) + |parts[|parts| - 1].text| + 1
  }

  /** The chunks closed so far and the one being filled. */
  datatype Packing = Packing(full: seq<Chunk>, cur: Chunk)

  const EMPTY: Chunk := Chunk([], 0, 0)

  function PartOf(u: Utterance): Part {
    Part(Trim(u.text))
  }

  function PackNext(p: Packing, u: Utterance): Packing {
    var cur := Chunk(p.cur.parts + [PartOf(u)], if p.cur.parts == [] then u.start else p.cur.start, u.end);
    if Size(cur.parts) >= TARGET_CHARS then Packing(p.full + [cur], EMPTY) else Packing(p.full, cur)
  }

  function Packed(kept: seq<Utterance>): Packing {
    if kept == [] then Packing([], EMPTY) else PackNext(Packed(kept[..|kept| - 1]), kept[|kept| - 1])
  }

  /** A short tail joins the chunk before it. */
  function Closed(p: Packing): seq<Chunk> {
    if p.cur.parts == [] then p.full
    else if p.full != [] && Size(p.cur.parts) < MIN_CHARS then
      var prev := p.full[|p.full| - 1];
      p.full[..|p.full| - 1] + [Chunk(prev.parts + p.cur.parts, prev.start, p.cur.end)]
    else p.full + [p.cur]
  }

  function Assembled(us: seq<Utterance>): seq<Chunk> {
    Closed(Packed(Kept(us)))
  }

  /** The first loop: leaves out silence and what an earlier utterance already covers. */
  method DropOverlaps(us: seq<Utterance>) returns (kept: seq<Utterance>)
    ensures kept == Kept(us)
  {
    hide Blank;
    kept := [];
    var lastEnd := -1;
    for i := 0 to |us|
      invariant kept == Kept(us[..i]) && lastEnd == Reach(kept)
    {
      var u := us[i];
      assert us[..i + 1][..i] == us[..i];
      if u.isSpeech && !Blank(u.text) && Middle(u) >= lastEnd {
        assert (kept + [u])[..|kept|] == kept;
        kept := kept + [u];
        if u.end > lastEnd { lastEnd := u.end; }
      }
    }
    assert us[..|us|] == us;
  }

  lemma PackNone(kept: seq<Utterance>)
    ensures Packed(kept[..0]) == Packing([], EMPTY) && Size(EMPTY.parts) == 0
  {
  }

  lemma PackStep(kept: seq<Utterance>, i: nat, parts: seq<Part>)
    requires i < |kept|
    ensures Packed(kept[..i + 1]) == PackNext(Packed(kept[..i]), kept[i])
    ensures Size(parts + [PartOf(kept[i])]) == Size(parts) + |PartOf(kept[i]).text| + 1
  {
    hide PartOf;
    hide PackNext;
    assert kept[..i + 1][..i] == kept[..i];
    assert (parts + [PartOf(kept[i])])[..|parts|] == parts;
  }

  /** The second loop: packs on utterance boundaries up to the target. */
  method AssembleChunks(us: seq<Utterance>) returns (chunks: seq<Chunk>)
    ensures chunks == Assembled(us)
    ensures Transcribes(us, chunks) && WellSized(chunks)
  {
    AssembledTranscribes(us);
    ChunkSizes(us);
    hide Transcribes;
    hide WellSized;
    hide Kept;
    hide PartOf;
    hide Packed;
    hide Size;
    var kept := DropOverlaps(us);
    chunks := [];
    var cur, chars := EMPTY, 0;
    PackNone(kept);
    for i := 0 to |kept|
      invariant Packed(kept[..i]) == Packing(chunks, cur) && chars == Size(cur.parts)
    {
      var u := kept[i];
      var t := PartOf(u);
      PackStep(kept, i, cur.parts);
      cur := Chunk(cur.parts + [t], if cur.parts == [] then u.start else cur.start, u.end);
      chars := chars + |t.text| + 1;
      if chars >= TARGET_CHARS {
        chunks, cur, chars := chunks + [cur], EMPTY, 0;
      }
    }
    assert kept[..|kept|] == kept;
    if cur.parts != [] {
      if chunks != [] && chars < MIN_CHARS {
        var prev := chunks[|chunks| - 1];
        chunks := chunks[..|chunks| - 1] + [Chunk(prev.parts + cur.parts, prev.start, cur.end)];
      } else {
        chunks := chunks + [cur];
      }
    }
  }

  /** A text with something to embed: more than control characters, blanks and zero-width marks. */
  predicate HasWords(s: string) {
    exists c :: c in s && c as int > 32 && c as int !in {0xA0, 0x200B, 0x200C, 0x200D, 0xFEFF}
  }

  /** The chunks that are embedded: a chunk's text is its parts joined by blanks. */
  function Wording(chunks: seq<Chunk>): set<nat> {
    set i: nat | i < |chunks| && exists p :: p in chunks[i].parts && HasWords(p.text)
  }

  /** What an embedder could not see: a blank or a zero-width mark beyond the control characters. */
  const INVISIBLE: string := "\U{A0}\U{200B}\U{200C}\U{200D}\U{FEFF}"

  /** The part has a character that is neither control, blank nor zero-width. */
  predicate Shows(p: Part, c: char) {
    c in p.text && c > ' ' && c !in INVISIBLE
  }

  /** A chunk is embedded exactly when one of its parts has something to see. */
  lemma WordingIff(chunks: seq<Chunk>, i: nat)
    requires i < |chunks|
    ensures i in Wording(chunks) <==> exists p, c :: p in chunks[i].parts && Shows(p, c)
  {
    forall p: Part ensures HasWords(p.text) <==> exists c :: Shows(p, c) { WordsShow(p); }
    hide HasWords;
    hide Shows;
  }

  lemma WordsShow(p: Part)
    ensures HasWords(p.text) <==> exists c :: Shows(p, c)
  {
    forall c | c in p.text
      ensures Shows(p, c) <==> c as int > 32 && c as int !in {0xA0, 0x200B, 0x200C, 0x200D, 0xFEFF} {}
  }

  lemma {:induction false} BelowCount(s: set<nat>, n: nat)
    requires forall i :: i in s ==> i < n
    ensures |s| <= n
  {
    if n == 0 {
      assert s == {};
    } else {
      BelowCount(s - {n - 1}, n - 1);
      assert s <= s - {n - 1} + {n - 1};
    }
  }

  lemma {:induction false} KeptCount(us: seq<Utterance>)
    ensures |Kept(us)| <= |us|
    decreases |us|
  {
    if us != [] { KeptCount(us[..|us| - 1]); }
  }

  lemma {:induction false} PackedCount(kept: seq<Utterance>)
    ensures |Packed(kept).full| + (if Packed(kept).cur.parts == [] then 0 else 1) <= |kept|
    decreases |kept|
  {
    hide Size;
    hide PartOf;
    if kept != [] { PackedCount(kept[..|kept| - 1]); }
  }

  /** There are no more texts to embed than utterances. */
  lemma WordingCount(us: seq<Utterance>)
    ensures |Wording(Assembled(us))| <= |us|
  {
    KeptCount(us);
    PackedCount(Kept(us));
    BelowCount(Wording(Assembled(us)), |Assembled(us)|);
    hide Kept;
    hide Packed;
    hide Size;
    hide Wording;
  }

  /** All parts, chunk after chunk. */
  function Parts(chunks: seq<Chunk>): seq<Part> {
    if chunks == [] then [] else Parts(chunks[..|chunks| - 1]) + chunks[|chunks| - 1].parts
  }

  function Texts(us: seq<Utterance>): seq<Part> {
    seq(|us|, k requires 0 <= k < |us| => PartOf(us[k]))
  }

  lemma PartsOneMore(chunks: seq<Chunk>, c: Chunk)
    ensures Parts(chunks + [c]) == Parts(chunks) + c.parts
  {
    assert (chunks + [c])[..|chunks|] == chunks;
  }

  lemma PackNextParts(p: Packing, u: Utterance)
    ensures Parts(PackNext(p, u).full) + PackNext(p, u).cur.parts == Parts(p.full) + p.cur.parts + [PartOf(u)]
  {
    hide PartOf;
    hide Parts;
    hide Size;
    PartsOneMore(p.full, Chunk(p.cur.parts + [PartOf(u)], if p.cur.parts == [] then u.start else p.cur.start, u.end));
  }

  lemma {:induction false} PackedParts(kept: seq<Utterance>)
    ensures Parts(Packed(kept).full) + Packed(kept).cur.parts == Texts(kept)
    decreases |kept|
  {
    hide PartOf;
    hide Parts;
    hide PackNext;
    if kept == [] {
      NoParts();
    } else {
      var init, u := kept[..|kept| - 1], kept[|kept| - 1];
      PackedParts(init);
      PackNextParts(Packed(init), u);
      assert Texts(kept) == Texts(init) + [PartOf(u)];
    }
  }

  lemma NoParts()
    ensures Parts([]) == []
  {
  }

  lemma ClosedParts(p: Packing)
    ensures Parts(Closed(p)) == Parts(p.full) + p.cur.parts
  {
    if p.cur.parts == [] {
    } else if p.full != [] && Size(p.cur.parts) < MIN_CHARS {
      var init, prev := p.full[..|p.full| - 1], p.full[|p.full| - 1];
      hide Parts;
      hide Size;
      assert p.full == init + [prev];
      PartsOneMore(init, prev);
      PartsOneMore(init, Chunk(prev.parts + p.cur.parts, prev.start, p.cur.end));
    } else {
      PartsOneMore(p.full, p.cur);
    }
  }

  /** Nothing is lost, split or moved: the chunks' parts are the kept texts, in order. */
  lemma ChunksHoldTheTexts(us: seq<Utterance>)
    ensures Parts(Assembled(us)) == Texts(Kept(us))
  {
    hide Parts;
    hide Closed;
    hide Packed;
    hide Kept;
    hide Texts;
    PackedParts(Kept(us));
    ClosedParts(Packed(Kept(us)));
  }

  /** The chunk of the utterances from a up to b: their texts, from the first one's start to the last one's end. */
  function Piece(kept: seq<Utterance>, a: nat, b: nat): Chunk
    requires a < b <= |kept|
  {
    Chunk(Texts(kept[a..b]), kept[a].start, kept[b - 1].end)
  }

  /** The chunks cut the utterances at these places, one after the other. */
  ghost predicate CutAt(kept: seq<Utterance>, cuts: seq<nat>, chunks: seq<Chunk>) {
    && |cuts| == |chunks| + 1 && cuts[0] == 0 && cuts[|chunks|] == |kept|
    && (forall a, b :: 0 <= a < b < |cuts| ==> cuts[a] < cuts[b] <= |kept|)
    && (forall m :: 0 <= m < |chunks| ==> chunks[m] == Piece(kept, cuts[m], cuts[m + 1]))
  }

  /** The chunks hold the selected utterances, cut into runs. */
  ghost predicate Transcribes(us: seq<Utterance>, chunks: seq<Chunk>) {
    exists picks, cuts :: Selected(us, picks) && CutAt(At(us, picks), cuts, chunks)
  }

  /** So far: full chunks cut, and the current one from the last cut on. */
  ghost predicate Packs(kept: seq<Utterance>, cuts: seq<nat>, p: Packing) {
    && |cuts| == |p.full| + 1 && cuts[0] == 0 && cuts[|p.full|] <= |kept|
    && (forall a, b :: 0 <= a < b < |cuts| ==> cuts[a] < cuts[b] <= |kept|)
    && (forall m :: 0 <= m < |p.full| ==> p.full[m] == Piece(kept, cuts[m], cuts[m + 1]))
    && p.cur == if cuts[|p.full|] == |kept| then EMPTY else Piece(kept, cuts[|p.full|], |kept|)
  }

  lemma PieceHasParts(kept: seq<Utterance>, a: nat, b: nat)
    requires a < b <= |kept|
    ensures Piece(kept, a, b).parts != [] && Piece(kept, a, b) != EMPTY
  {
  }

  lemma PieceMore(kept: seq<Utterance>, u: Utterance, a: nat, b: nat)
    requires a < b <= |kept|
    ensures Piece(kept + [u], a, b) == Piece(kept, a, b)
    ensures Piece(kept + [u], a, |kept| + 1) ==
            Chunk(Piece(kept, a, |kept|).parts + [PartOf(u)], Piece(kept, a, |kept|).start, u.end)
  {
    hide PartOf;
    assert (kept + [u])[a..b] == kept[a..b] && (kept + [u])[a..|kept| + 1] == kept[a..] + [u];
    assert Texts(kept[a..] + [u]) == Texts(kept[a..]) + [PartOf(u)] && kept[a..|kept|] == kept[a..];
  }

  /** The current chunk with one utterance more is the run since the last cut. */
  lemma CurrentMore(kept: seq<Utterance>, u: Utterance, cuts: seq<nat>, p: Packing)
    requires Packs(kept, cuts, p)
    ensures Chunk(p.cur.parts + [PartOf(u)], if p.cur.parts == [] then u.start else p.cur.start, u.end) ==
            Piece(kept + [u], cuts[|p.full|], |kept| + 1)
  {
    hide PartOf;
    var after, n := kept + [u], |p.full|;
    if cuts[n] < |kept| {
      PieceMore(kept, u, cuts[n], |kept|);
      PieceHasParts(kept, cuts[n], |kept|);
    } else {
      assert after[|kept|..|kept| + 1] == [u] && Texts([u]) == [PartOf(u)];
    }
  }

  lemma PackOneMore(kept: seq<Utterance>, u: Utterance, cuts: seq<nat>, p: Packing) returns (more: seq<nat>)
    requires Packs(kept, cuts, p)
    ensures Packs(kept + [u], more, PackNext(p, u))
  {
    hide PartOf;
    hide Size;
    var after, n := kept + [u], |p.full|;
    var cur := Chunk(p.cur.parts + [PartOf(u)], if p.cur.parts == [] then u.start else p.cur.start, u.end);
    CurrentMore(kept, u, cuts, p);
    PieceHasParts(after, cuts[n], |after|);
    hide Piece;
    forall m | 0 <= m < n ensures p.full[m] == Piece(after, cuts[m], cuts[m + 1]) {
      PieceMore(kept, u, cuts[m], cuts[m + 1]);
    }
    if Size(cur.parts) >= TARGET_CHARS {
      more := cuts + [|after|];
      assert PackNext(p, u) == Packing(p.full + [cur], EMPTY);
    } else {
      more := cuts;
      assert PackNext(p, u) == Packing(p.full, cur);
    }
  }

  lemma {:induction false} PackedCuts(kept: seq<Utterance>) returns (cuts: seq<nat>)
    ensures Packs(kept, cuts, Packed(kept))
    decreases |kept|
  {
    hide PackNext;
    if kept == [] { return [0]; }
    var init, u := kept[..|kept| - 1], kept[|kept| - 1];
    assert kept == init + [u];
    cuts := PackedCuts(init);
    cuts := PackOneMore(init, u, cuts, Packed(init));
  }

  lemma PiecesJoin(kept: seq<Utterance>, a: nat, b: nat, c: nat)
    requires a < b < c <= |kept|
    ensures Piece(kept, a, c) == Chunk(Piece(kept, a, b).parts + Piece(kept, b, c).parts,
                                       Piece(kept, a, b).start, Piece(kept, b, c).end)
  {
    hide PartOf;
    assert kept[a..c] == kept[a..b] + kept[b..c];
    assert Texts(kept[a..b] + kept[b..c]) == Texts(kept[a..b]) + Texts(kept[b..c]);
  }

  lemma ClosedCuts(kept: seq<Utterance>, before: seq<nat>, p: Packing) returns (cuts: seq<nat>)
    requires Packs(kept, before, p)
    ensures CutAt(kept, cuts, Closed(p))
  {
    hide Size;
    var n := |p.full|;
    if before[n] == |kept| { return before; }
    PieceHasParts(kept, before[n], |kept|);
    hide Piece;
    if p.full != [] && Size(p.cur.parts) < MIN_CHARS {
      PiecesJoin(kept, before[n - 1], before[n], |kept|);
      cuts := before[..n] + [|kept|];
    } else {
      cuts := before + [|kept|];
    }
  }

  /**
   The transcript's chunks cut the kept utterances into runs: each chunk has its run's trimmed texts in order, from
   the start of the first to the end of the last.
   */
  lemma AssembledTranscribes(us: seq<Utterance>)
    ensures Transcribes(us, Assembled(us))
  {
    var picks, cuts := AssembledCuts(us);
  }

  lemma AssembledCuts(us: seq<Utterance>) returns (picks: seq<nat>, cuts: seq<nat>)
    ensures Selected(us, picks) && CutAt(At(us, picks), cuts, Assembled(us))
  {
    picks := KeptIsSelected(us);
    var before := PackedCuts(Kept(us));
    cuts := ClosedCuts(Kept(us), before, Packed(Kept(us)));
  }

  /** Each chunk but the last closed with the utterance that took it to the target. */
  ghost predicate Filled(c: Chunk) {
    c.parts != [] && Size(c.parts) >= 4000 && Size(c.parts[..|c.parts| - 1]) < 4000
  }

  lemma {:induction false} PackedSizes(kept: seq<Utterance>)
    ensures forall c :: c in Packed(kept).full ==> Filled(c)
    ensures Size(Packed(kept).cur.parts) < 4000
    decreases |kept|
  {
    hide PartOf;
    if kept != [] {
      PackedSizes(kept[..|kept| - 1]);
      var p, t := Packed(kept[..|kept| - 1]), PartOf(kept[|kept| - 1]);
      assert (p.cur.parts + [t])[..|p.cur.parts|] == p.cur.parts;
    }
  }

  lemma {:induction false} SizeAdds(a: seq<Part>, b: seq<Part>)
    ensures Size(a + b) == Size(a) + Size(b)
    decreases |b|
  {
    if b == [] {
      assert a + b == a;
    } else {
      assert (a + b)[..|a + b| - 1] == a + b[..|b| - 1];
      SizeAdds(a, b[..|b| - 1]);
    }
  }

  /** The chunk took its last utterances only because they were a tail too small to stand alone. */
  ghost predicate EndsFilled(c: Chunk) {
    exists n: nat :: n <= |c.parts| && Filled(Chunk(c.parts[..n], c.start, c.end)) && Size(c.parts[n..]) < 200
  }

  lemma TailIsEnd(p: Packing)
    requires forall c :: c in p.full ==> Filled(c)
    ensures p.full != [] ==> EndsFilled(p.full[|p.full| - 1])
    ensures p.full != [] && p.cur.parts != [] && Size(p.cur.parts) < MIN_CHARS ==>
              EndsFilled(Closed(p)[|Closed(p)| - 1])
  {
    if p.full != [] {
      var prev, end := p.full[|p.full| - 1], Closed(p)[|Closed(p)| - 1];
      var n := |prev.parts|;
      assert prev in p.full && prev.parts[..n] == prev.parts && Size(prev.parts[n..]) == 0;
      assert Filled(Chunk(prev.parts[..n], prev.start, prev.end));
      if p.cur.parts != [] && Size(p.cur.parts) < MIN_CHARS {
        assert end.parts[..n] == prev.parts && end.parts[n..] == p.cur.parts;
        assert Filled(Chunk(end.parts[..n], end.start, end.end));
      }
    }
  }

  /** Filled but for the last, which is not tiny unless alone, and over full only by a tiny tail. */
  ghost predicate WellSized(chunks: seq<Chunk>) {
    && (forall k :: 0 <= k < |chunks| - 1 ==> Filled(chunks[k]))
    && (chunks != [] ==>
          var last := chunks[|chunks| - 1];
          && (Size(last.parts) >= 200 || |chunks| == 1)
          && (Size(last.parts) < 4000 || EndsFilled(last)))
  }

  lemma ClosedSizes(p: Packing)
    requires (forall c :: c in p.full ==> Filled(c)) && Size(p.cur.parts) < 4000
    ensures WellSized(Closed(p))
  {
    TailIsEnd(p);
    assert forall c :: c in p.full ==> Size(c.parts) >= 4000;
    assert forall k :: 0 <= k < |p.full| ==> p.full[k] in p.full;
    if p.cur.parts != [] && p.full != [] { SizeAdds(p.full[|p.full| - 1].parts, p.cur.parts); }
    hide Size;
    hide Filled;
    hide EndsFilled;
  }

  /** A chunk closes with the utterance that fills it, and a tail too small to stand alone joins the chunk before. */
  lemma ChunkSizes(us: seq<Utterance>)
    ensures WellSized(Assembled(us))
  {
    hide *;
    PackedSizes(Kept(us));
    AssembledIs(us);
    ClosedSizes(Packed(Kept(us)));
  }

  lemma AssembledIs(us: seq<Utterance>)
    ensures Assembled(us) == Closed(Packed(Kept(us)))
  {
  }
}
