/**
 A completed audio run, whatever cuts and retries it met, against the run nothing cut; and when the transcript is
 determined.
 */
module AudioReplay {
  import opened Common
  import opened AudioBounds
  import opened AudioWindows
  import opened AudioRun
  import EmbedLoop

  lemma {:induction false} TraceAppend(c: Config, s: State, a: seq<Step>, t: State, b: seq<Step>, u: State)
    requires Trace(c, s, a, t) && Trace(c, t, b, u)
    ensures Trace(c, s, a + b, u)
    decreases |a|
  {
    hide Apply;
    hide Enabled;
    if a == [] {
      assert a + b == b;
    } else {
      assert (a + b)[1..] == a[1..] + b;
      TraceAppend(c, Apply(c, s, a[0]), a[1..], t, b, u);
    }
  }

  lemma TraceFour(c: Config, s: State, p: Step, q: Step, r: Step, x: Step, s1: State, s2: State, s3: State, s4: State)
    requires Enabled(c, s, p) && s1 == Apply(c, s, p) && Enabled(c, s1, q) && s2 == Apply(c, s1, q)
    requires Enabled(c, s2, r) && s3 == Apply(c, s2, r) && Enabled(c, s3, x) && s4 == Apply(c, s3, x)
    ensures Trace(c, s, [p, q, r, x], s4)
  {
    hide Apply;
    hide Enabled;
    assert Trace(c, s4, [], s4);
    assert [x][1..] == [];
    assert Trace(c, s3, [x], s4);
    assert [r, x][1..] == [x];
    assert Trace(c, s2, [r, x], s4);
    assert [q, r, x][1..] == [r, x];
    assert Trace(c, s1, [q, r, x], s4);
    assert [p, q, r, x][1..] == [q, r, x];
  }

  lemma TraceTwo(c: Config, s: State, p: Step, q: Step, s1: State, s2: State)
    requires Enabled(c, s, p) && s1 == Apply(c, s, p) && Enabled(c, s1, q) && s2 == Apply(c, s1, q)
    ensures Trace(c, s, [p, q], s2)
  {
    hide Apply;
    hide Enabled;
    assert Trace(c, s2, [], s2);
    assert [q][1..] == [];
    assert Trace(c, s1, [q], s2);
    assert [p, q][1..] == [q];
  }

  /** Nothing cut the run and every answer was usable. */
  predicate Smooth(step: Step) {
    match step
    case Cut => false
    case RetryFailed => false
    case Probed(r, allowed) => r.Usable? && allowed
    case Normalized(r) => r.Usable?
    case Answered(r) => r.Usable?
    case Embedded(answer) => answer.Some?
    case _ => true
  }

  predicate AllSmooth(steps: seq<Step>) {
    forall step :: step in steps ==> Smooth(step)
  }

  // ---------------------------------------------------------------- hearing what is open

  function FilledSegs(segs: seq<Seg>, f: nat -> Heard): seq<Seg> {
    seq(|segs|, k requires 0 <= k < |segs| =>
      if segs[k].status.Pending? then segs[k].(status := Done, cost := f(k).cost) else segs[k])
  }

  function FilledUtts(utts: map<nat, seq<Utterance>>, open: set<nat>, f: nat -> Heard): map<nat, seq<Utterance>> {
    map k | k in utts.Keys + open :: if k in open then f(k).utts else utts[k]
  }

  function FilledSeen(seen: map<nat, Heard>, open: set<nat>, f: nat -> Heard): map<nat, Heard> {
    map k | k in seen.Keys + open :: if k in open then f(k) else seen[k]
  }

  /** Segment i heard and checkpointed. */
  function HeardOne(s: State, i: nat, t: Heard): State
    requires i < |s.segs|
  {
    s.(segs := s.segs[i := s.segs[i].(status := Done, cost := t.cost)], utts := s.utts[i := t.utts],
      seen := s.seen[i := t])
  }

  /** Every open segment heard and checkpointed, the k-th as f(k). */
  function HeardAll(s: State, f: nat -> Heard): State {
    var open := Opens(s.segs);
    s.(segs := FilledSegs(s.segs, f), utts := FilledUtts(s.utts, open, f), seen := FilledSeen(s.seen, open, f))
  }

  lemma HearOne(c: Config, s: State, t: Heard)
    requires s.phase.Asking? && First(s.segs) < |s.segs|
    ensures Trace(c, s, [Ask([]), Answered(Usable(t)), Store, Check], HeardOne(s, First(s.segs), t))
  {
    var i := First(s.segs);
    assert s.segs != [];
    hide First;
    var s1 := s.(phase := Transcribing(i));
    var s2 := s.(phase := Storing(i, t));
    var s3 := s.(phase := Stored(i, t), utts := s.utts[i := t.utts]);
    TraceFour(c, s, Ask([]), Answered(Usable(t)), Store, Check, s1, s2, s3, HeardOne(s, i, t));
  }

  lemma OneLessOpen(segs: seq<Seg>, i: nat, seg: Seg)
    requires i < |segs| && segs[i].status.Pending? && !seg.status.Pending?
    ensures Opens(segs[i := seg]) == Opens(segs) - {i} && i in Opens(segs)
    ensures |Opens(segs[i := seg])| < |Opens(segs)|
  {
    assert i in Opens(segs) && Opens(segs[i := seg]) == Opens(segs) - {i};
  }

  lemma OneThenSegs(segs: seq<Seg>, i: nat, f: nat -> Heard)
    requires i < |segs| && segs[i].status.Pending?
    ensures FilledSegs(segs[i := segs[i].(status := Done, cost := f(i).cost)], f) == FilledSegs(segs, f)
  {
  }

  lemma OneThenRows(utts: map<nat, seq<Utterance>>, seen: map<nat, Heard>, open: set<nat>, i: nat, f: nat -> Heard)
    requires i in open
    ensures FilledUtts(utts[i := f(i).utts], open - {i}, f) == FilledUtts(utts, open, f)
    ensures FilledSeen(seen[i := f(i)], open - {i}, f) == FilledSeen(seen, open, f)
  {
  }

  lemma OneThenAll(s: State, i: nat, f: nat -> Heard)
    requires i < |s.segs| && s.segs[i].status.Pending?
    ensures HeardAll(HeardOne(s, i, f(i)), f) == HeardAll(s, f)
    ensures |Opens(HeardOne(s, i, f(i)).segs)| < |Opens(s.segs)|
  {
    hide Opens;
    hide FilledSegs;
    hide FilledUtts;
    hide FilledSeen;
    OneLessOpen(s.segs, i, s.segs[i].(status := Done, cost := f(i).cost));
    OneThenSegs(s.segs, i, f);
    OneThenRows(s.utts, s.seen, Opens(s.segs), i, f);
  }

  lemma NoneOpen(s: State, f: nat -> Heard)
    requires First(s.segs) == |s.segs|
    ensures HeardAll(s, f) == s
  {
    assert Opens(s.segs) == {};
    assert FilledSegs(s.segs, f) == s.segs;
    assert FilledUtts(s.utts, {}, f) == s.utts && FilledSeen(s.seen, {}, f) == s.seen;
  }

  lemma {:induction false} HearsRest(c: Config, s: State, f: nat -> Heard) returns (steps: seq<Step>)
    requires s.phase.Asking? && s.segs != []
    ensures AllSmooth(steps) && Trace(c, s, steps, HeardAll(s, f))
    decreases |Opens(s.segs)|
  {
    hide Apply;
    hide Enabled;
    hide HeardAll;
    hide Opens;
    var i := First(s.segs);
    if i == |s.segs| {
      NoneOpen(s, f);
      return [];
    }
    var u, first := HeardOne(s, i, f(i)), [Ask([]), Answered(Usable(f(i))), Store, Check];
    OneThenAll(s, i, f);
    HearOne(c, s, f(i));
    hide HeardOne;
    assert u.phase.Asking? && u.segs != [] by { HeardOneAsks(s, i, f(i)); }
    var rest := HearsRest(c, u, f);
    TraceAppend(c, s, first, u, rest, HeardAll(s, f));
    AllSmoothAppend(first, rest);
    steps := first + rest;
  }

  lemma HeardOneAsks(s: State, i: nat, t: Heard)
    requires i < |s.segs|
    ensures HeardOne(s, i, t).phase == s.phase && |HeardOne(s, i, t).segs| == |s.segs|
  {
  }

  lemma AllSmoothAppend(a: seq<Step>, b: seq<Step>)
    requires AllSmooth(a) && AllSmooth(b)
    ensures AllSmooth(a + b)
  {
    hide Smooth;
  }

  // ---------------------------------------------------------------- finishing

  predicate NoneFailed(stages: EmbedLoop.Stages) {
    forall i :: i in stages ==> !stages[i].Failed?
  }

  function Planning(s: State, stages: EmbedLoop.Stages, held: nat): State {
    s.(phase := Embedding(EmbedLoop.Progress(stages, [], []), held))
  }

  lemma SmoothBatch(c: Config, s: State, stages: EmbedLoop.Stages, held: nat, pending: seq<EmbedLoop.Index>)
    returns (steps: seq<Step>, after: EmbedLoop.Stages)
    requires EmbedLoop.FirstOpen(stages, EmbedLoop.BATCH, pending) && pending != [] && NoneFailed(stages)
    ensures AllSmooth(steps) && Trace(c, Planning(s, stages, held), steps, Planning(s, after, s.cost))
    ensures after.Keys == stages.Keys && NoneFailed(after) && |EmbedLoop.Open(after)| < |EmbedLoop.Open(stages)|
  {
    var vecs: seq<EmbedLoop.Vector> := seq(|pending|, _ => []);
    after := EmbedLoop.WithVectors(stages, pending, vecs);
    EmbedLoop.OpenShrinks(stages, after, pending);
    steps := [Plan(pending), Embedded(Some(vecs))];
    var called := s.(phase := Embedding(EmbedLoop.Progress(stages, pending, []), held));
    hide EmbedLoop.WithVectors;
    TraceTwo(c, Planning(s, stages, held), Plan(pending), Embedded(Some(vecs)), called, Planning(s, after, s.cost));
  }

  /** Batch after batch until every text has its vector. */
  lemma {:induction false} SmoothBatches(c: Config, s: State, stages: EmbedLoop.Stages, held: nat)
    returns (steps: seq<Step>, after: EmbedLoop.Stages)
    requires NoneFailed(stages)
    ensures AllSmooth(steps) && after.Keys == stages.Keys && NoneFailed(after) && EmbedLoop.Open(after) == {}
    ensures Trace(c, Planning(s, stages, held), steps,
                  s.(phase := Settling(after, if EmbedLoop.Open(stages) == {} then held else s.cost)))
    decreases |EmbedLoop.Open(stages)|
  {
    var pending := EmbedLoop.FirstOpenExists(stages, EmbedLoop.BATCH);
    EmbedLoop.PlanIsSound(EmbedLoop.Progress(stages, [], []), pending);
    if pending == [] {
      steps, after := [Plan(pending)], stages;
      PlanNone(c, s, stages, held);
      return;
    }
    hide Apply;
    hide Enabled;
    hide AllSmooth;
    hide NoneFailed;
    hide EmbedLoop.Open;
    var first, mid := SmoothBatch(c, s, stages, held, pending);
    var rest, last := SmoothBatches(c, s, mid, s.cost);
    after := last;
    TraceAppend(c, Planning(s, stages, held), first, Planning(s, mid, s.cost), rest,
      s.(phase := Settling(last, s.cost)));
    AllSmoothAppend(first, rest);
    steps := first + rest;
  }

  lemma PlanNone(c: Config, s: State, stages: EmbedLoop.Stages, held: nat)
    requires EmbedLoop.FirstOpen(stages, EmbedLoop.BATCH, [])
    ensures Trace(c, Planning(s, stages, held), [Plan([])], s.(phase := Settling(stages, held)))
  {
    hide EmbedLoop.FirstOpen;
    var t := s.(phase := Settling(stages, held));
    assert Apply(c, Planning(s, stages, held), Plan([])) == t;
    assert Trace(c, t, [], t);
    assert [Plan([])][1..] == [];
  }

  /** The run's end: list staged the texts, and saved was written as the transcript. */
  function EndOf(s: State, list: seq<Row>, saved: seq<Row>): State {
    s.(phase := Ended(Complete), cost := if Staging(list) == {} then SumCost(s.segs) else s.cost,
       transcript := Some(Assembled(Spoken(saved))), complete := true)
  }

  lemma SmoothStage(c: Config, s: State, list: seq<Row>)
    requires s.phase.Asking? && Finished(s.segs) && IsListing(s.utts, list)
    ensures Trace(c, s, [Ask([]), Stage(list)], Planning(s, EmbedLoop.Begin(Staging(list)), SumCost(s.segs)))
  {
    hide IsListing;
    hide Staging;
    hide SumCost;
    FirstIs(s.segs, |s.segs|);
    assert !AnyFailed(s.segs);
    var t := Planning(s, EmbedLoop.Begin(Staging(list)), SumCost(s.segs));
    TraceTwo(c, s, Ask([]), Stage(list), s.(phase := Finishing), t);
  }

  lemma CommitsClean(c: Config, s: State, stages: EmbedLoop.Stages, held: nat)
    requires EmbedLoop.Open(stages) == {} && NoneFailed(stages)
    ensures Enabled(c, s.(phase := Settling(stages, held)), Commit)
    ensures Apply(c, s.(phase := Settling(stages, held)), Commit) == s.(phase := Saving(held))
  {
    EmbedLoop.VerdictMeans(stages, s.attempt >= c.max);
    assert EmbedLoop.Faileds(stages) == {};
    hide EmbedLoop.Settled;
    hide EmbedLoop.Embeddeds;
    hide EmbedLoop.Faileds;
  }

  lemma SavesAndCloses(c: Config, s: State, held: nat, saved: seq<Row>)
    requires IsListing(s.utts, saved)
    ensures var s1 := s.(phase := Saving(held));
            var s2 := s.(phase := Saved(held), transcript := Some(Assembled(Spoken(saved))));
            var s3 := s2.(phase := Reporting(Complete), cost := held, complete := true);
            && Enabled(c, s1, Save(saved)) && Apply(c, s1, Save(saved)) == s2
            && Enabled(c, s2, Close) && Apply(c, s2, Close) == s3
            && Enabled(c, s3, Report) && Apply(c, s3, Report) == s3.(phase := Ended(Complete))
  {
    hide IsListing;
    hide Assembled;
  }

  lemma SmoothClose(c: Config, s: State, stages: EmbedLoop.Stages, held: nat, saved: seq<Row>)
    requires EmbedLoop.Open(stages) == {} && NoneFailed(stages) && IsListing(s.utts, saved)
    ensures Trace(c, s.(phase := Settling(stages, held)), [Commit, Save(saved), Close, Report],
                  s.(phase := Ended(Complete), cost := held, transcript := Some(Assembled(Spoken(saved))),
                     complete := true))
  {
    hide *;
    CommitsClean(c, s, stages, held);
    SavesAndCloses(c, s, held, saved);
    var s2 := s.(phase := Saved(held), transcript := Some(Assembled(Spoken(saved))));
    var s3 := s2.(phase := Reporting(Complete), cost := held, complete := true);
    TraceFour(c, s.(phase := Settling(stages, held)), Commit, Save(saved), Close, Report,
              s.(phase := Saving(held)), s2, s3, s3.(phase := Ended(Complete)));
  }

  lemma StagedIsOpen(texts: set<EmbedLoop.Index>)
    ensures EmbedLoop.Open(EmbedLoop.Begin(texts)) == texts && NoneFailed(EmbedLoop.Begin(texts))
  {
  }

  /** From a state with every segment done, whatever the answers to the two queries. */
  lemma FinishRun(c: Config, s: State, list: seq<Row>, saved: seq<Row>) returns (steps: seq<Step>)
    requires s.phase.Asking? && Finished(s.segs) && IsListing(s.utts, list) && IsListing(s.utts, saved)
    ensures AllSmooth(steps) && Trace(c, s, steps, EndOf(s, list, saved))
  {
    hide *;
    var stages, sum := EmbedLoop.Begin(Staging(list)), SumCost(s.segs);
    StagedIsOpen(Staging(list));
    var held := if Staging(list) == {} then sum else s.cost;
    SmoothStage(c, s, list);
    var middle, after := SmoothBatches(c, s, stages, sum);
    SmoothClose(c, s, after, held, saved);
    var first, last := [Ask([]), Stage(list)], [Commit, Save(saved), Close, Report];
    var settling := s.(phase := Settling(after, held));
    EndIs(s, list, saved);
    TraceAppend(c, s, first, Planning(s, stages, sum), middle, settling);
    TraceAppend(c, s, first + middle, settling, last, EndOf(s, list, saved));
    SmoothEnds(list, saved);
    AllSmoothAppend(first, middle);
    AllSmoothAppend(first + middle, last);
    steps := first + middle + last;
  }

  lemma EndIs(s: State, list: seq<Row>, saved: seq<Row>)
    ensures var held := if Staging(list) == {} then SumCost(s.segs) else s.cost;
            EndOf(s, list, saved) == s.(phase := Ended(Complete), cost := held,
                                        transcript := Some(Assembled(Spoken(saved))), complete := true)
  {
    hide Staging;
  }

  lemma SmoothEnds(list: seq<Row>, saved: seq<Row>)
    ensures AllSmooth([Ask([]), Stage(list)]) && AllSmooth([Commit, Save(saved), Close, Report])
  {
  }

  /** From a state that asks for segments, none of them failed: hear what is open, and finish. */
  lemma HearAndFinish(c: Config, s: State, f: nat -> Heard, list: seq<Row>, saved: seq<Row>) returns (steps: seq<Step>)
    requires s.phase.Asking? && s.segs != [] && !AnyFailed(s.segs)
    requires IsListing(HeardAll(s, f).utts, list) && IsListing(HeardAll(s, f).utts, saved)
    ensures AllSmooth(steps) && Trace(c, s, steps, EndOf(HeardAll(s, f), list, saved))
  {
    var t := HeardAll(s, f);
    assert t.phase.Asking?;
    assert Finished(t.segs) by {
      forall k | 0 <= k < |t.segs| ensures t.segs[k].status.Done? {
        if !s.segs[k].status.Pending? { assert !s.segs[k].status.Failed?; }
      }
    }
    hide *;
    var first := HearsRest(c, s, f);
    var last := FinishRun(c, t, list, saved);
    TraceAppend(c, s, first, t, last, EndOf(t, list, saved));
    AllSmoothAppend(first, last);
    steps := first + last;
  }

  // ---------------------------------------------------------------- the smooth run

  /** Asking for the first segment, with the windows just stored. */
  function Asked(w: seq<Window>, duration: int, probed: int): State {
    State(1, Asking, duration, true, Fresh(w), map[], None, 0, false, map[], probed, {})
  }

  lemma SmoothStart(c: Config, s: State, w: seq<Window>, duration: int, probed: int)
    requires IsInit(c, s) && Accepted(c, probed) && duration > 0 && WindowsFit(c, w, duration)
    ensures var first := [Start, Probed(Usable(probed), true), Normalized(Usable(duration)), Ask(w)];
            AllSmooth(first) && Trace(c, s, first, Asked(w, duration, probed))
  {
    hide WindowsFit;
    var s1 := s.(phase := Probing);
    var s2 := s.(phase := Normalizing, duration := probed, probed := probed);
    var s3 := s2.(phase := Asking, duration := duration, normalized := true);
    TraceFour(c, s, Start, Probed(Usable(probed), true), Normalized(Usable(duration)), Ask(w),
              s1, s2, s3, Asked(w, duration, probed));
  }

  /** The end of the run that nothing cut and that heard segment k as f(k). */
  function SmoothEnd(w: seq<Window>, f: nat -> Heard, duration: int, probed: int, list: seq<Row>,
      saved: seq<Row>): State {
    EndOf(HeardAll(Asked(w, duration, probed), f), list, saved)
  }

  function UttsOf(w: seq<Window>, f: nat -> Heard): map<nat, seq<Utterance>> {
    map k: nat | k < |w| :: f(k).utts
  }

  lemma AskedHeard(w: seq<Window>, f: nat -> Heard, duration: int, probed: int)
    ensures var t := HeardAll(Asked(w, duration, probed), f);
            && t.utts == UttsOf(w, f) && t.seen == (map k: nat | k < |w| :: f(k))
            && |t.segs| == |w| && (forall k: nat :: k < |w| ==> t.segs[k] == Seg(w[k], Done, f(k).cost, 0))
  {
    assert forall k: nat :: k in Opens(Fresh(w)) <==> k < |w|;
  }

  lemma SmoothRun(c: Config, s: State, w: seq<Window>, f: nat -> Heard, duration: int, probed: int, list: seq<Row>,
                  saved: seq<Row>)
    returns (smooth: seq<Step>)
    requires IsInit(c, s) && Accepted(c, probed) && duration > 0 && WindowsFit(c, w, duration)
    requires IsListing(UttsOf(w, f), list) && IsListing(UttsOf(w, f), saved)
    ensures AllSmooth(smooth) && Trace(c, s, smooth, SmoothEnd(w, f, duration, probed, list, saved))
  {
    var first := [Start, Probed(Usable(probed), true), Normalized(Usable(duration)), Ask(w)];
    var a := Asked(w, duration, probed);
    assert a.phase.Asking? && a.segs != [] && !AnyFailed(a.segs);
    hide AllSmooth;
    hide Trace;
    hide IsListing;
    hide HeardAll;
    hide Asked;
    hide Accepted;
    hide EndOf;
    hide AnyFailed;
    SmoothStart(c, s, w, duration, probed);
    AskedHeard(w, f, duration, probed);
    var last := HearAndFinish(c, a, f, list, saved);
    TraceAppend(c, s, first, a, last, SmoothEnd(w, f, duration, probed, list, saved));
    AllSmoothAppend(first, last);
    smooth := first + last;
  }

  // ---------------------------------------------------------------- every complete run against it

  /** The result each checkpoint kept. */
  function HeardBy(s: State): nat -> Heard {
    k => if k in s.seen then s.seen[k] else Heard([], 0)
  }

  /** The rows, and what the segments cost, are those of the run nothing cut that heard the checkpointed results. */
  lemma CompleteHasAll(c: Config, t: State)
    requires Inv(c, t) && t.complete
    ensures t.utts == UttsOf(WindowsOf(t.segs), HeardBy(t)) && t.seen == (map k: nat | k < |t.segs| :: HeardBy(t)(k))
    ensures t.segs != [] && WindowsFit(c, WindowsOf(t.segs), t.duration) && t.duration > 0 && Accepted(c, t.probed)
    ensures forall k: nat :: k < |t.segs| ==> t.segs[k].cost == HeardBy(t)(k).cost
  {
    hide WindowsFit;
    hide FromRows;
    hide Priced;
    hide PhaseInv;
    hide TallyInv;
    assert forall k: nat :: k < |t.segs| ==> t.segs[k].status.Done? && k in t.seen;
  }

  lemma {:induction false} SameCosts(a: seq<Seg>, b: seq<Seg>)
    requires |a| == |b| && forall k :: 0 <= k < |a| ==> a[k].cost == b[k].cost
    ensures SumCost(a) == SumCost(b)
    decreases |a|
  {
    if a != [] { SameCosts(a[..|a| - 1], b[..|b| - 1]); }
  }

  /** The listing a completed run staged from, and the one it wrote as the transcript. */
  lemma ListingsOf(c: Config, t: State) returns (list: seq<Row>, saved: seq<Row>)
    requires Inv(c, t) && t.complete
    ensures IsListing(t.utts, list) && t.cost == Recorded(t.segs, t.counted, Staging(list))
    ensures IsListing(t.utts, saved) && t.transcript == Some(Assembled(Spoken(saved)))
  {
    hide Assembled;
    hide Staging;
    hide RowsInv;
    hide TallyInv;
    hide PhaseInv;
    hide Recorded;
    var texts :| StagedFrom(t.utts, texts) && t.cost == Recorded(t.segs, t.counted, texts);
    list :| IsListing(t.utts, list) && texts == Staging(list);
    saved :| IsListing(t.utts, saved) && t.transcript.value == Assembled(Spoken(saved));
  }

  /**
   Any run that completes, however often it was cut or retried, leaves the rows and the transcript of a run nothing
   cut that heard, for each segment, the result the checkpoint kept.  It records the same cost exactly when nothing
   was embedded, or what its last partial settlement counted was free.
   */
  lemma CompleteRunIsSmooth(c: Config, s: State, steps: seq<Step>, t: State)
    returns (smooth: seq<Step>, u: State, list: seq<Row>)
    requires IsInit(c, s) && Trace(c, s, steps, t) && t.complete
    ensures AllSmooth(smooth) && Trace(c, s, smooth, u) && u.phase == Ended(Complete)
    ensures u.seen == t.seen && u.utts == t.utts && u.transcript == t.transcript && u.duration == t.duration
    ensures WindowsOf(u.segs) == WindowsOf(t.segs) && SumCost(u.segs) == SumCost(t.segs)
    ensures IsListing(t.utts, list) && t.cost == Recorded(t.segs, t.counted, Staging(list))
    ensures u.cost == (if Staging(list) == {} then SumCost(t.segs) else 0)
    ensures u.cost == t.cost <==>
            Staging(list) == {} || forall k :: k in t.counted && k < |t.segs| ==> t.segs[k].cost == 0
  {
    hide Inv;
    hide Apply;
    hide Enabled;
    hide Trace;
    hide IsListing;
    hide WindowsFit;
    hide Assembled;
    hide AllSmooth;
    hide Staging;
    hide SumCost;
    hide SumOver;
    hide HeardBy;
    hide HeardAll;
    hide UttsOf;
    StartHolds(c, s);
    RunKeepsDone(c, s, steps, t);
    CompleteHasAll(c, t);
    var saved;
    list, saved := ListingsOf(c, t);
    var w, f := WindowsOf(t.segs), HeardBy(t);
    smooth := SmoothRun(c, s, w, f, t.duration, t.probed, list, saved);
    u := SmoothEnd(w, f, t.duration, t.probed, list, saved);
    AskedHeard(w, f, t.duration, t.probed);
    SmoothEndIs(w, f, t.duration, t.probed, list, saved);
    assert WindowsOf(u.segs) == w;
    SameCosts(u.segs, t.segs);
    SumOverIff(t.segs, t.counted);
  }

  lemma SmoothEndIs(w: seq<Window>, f: nat -> Heard, duration: int, probed: int, list: seq<Row>, saved: seq<Row>)
    ensures var h, u := HeardAll(Asked(w, duration, probed), f), SmoothEnd(w, f, duration, probed, list, saved);
            && u.segs == h.segs && u.utts == h.utts && u.seen == h.seen && u.duration == duration && u.counted == {}
            && u.phase == Ended(Complete) && u.complete && u.transcript == Some(Assembled(Spoken(saved)))
            && u.cost == if Staging(list) == {} then SumCost(h.segs) else 0
  {
    hide Staging;
    hide SumCost;
    hide Assembled;
    hide FilledSegs;
    hide FilledUtts;
    hide FilledSeen;
  }

  // ---------------------------------------------------------------- when the rows determine the transcript

  /** No two rows share both start and index: only rows of different segments can. */
  ghost predicate NoTies(utts: map<nat, seq<Utterance>>) {
    forall a, b :: InTable(utts, a) && InTable(utts, b) && a.u.start == b.u.start && a.index == b.index ==> a == b
  }

  lemma {:induction false} SortedUnique(a: seq<Row>, b: seq<Row>)
    requires forall r :: r in a <==> r in b
    requires forall i, j :: 0 <= i < j < |a| ==> a[i] != a[j] && RowBefore(a[i], a[j]) && !RowBefore(a[j], a[i])
    requires forall i, j :: 0 <= i < j < |b| ==> b[i] != b[j] && RowBefore(b[i], b[j]) && !RowBefore(b[j], b[i])
    ensures a == b
    decreases |a|
  {
    if |b| > 0 { assert b[0] in a; }
    if a != [] {
      assert a[0] in b && b != [] && b[0] in a;
      var j :| 0 <= j < |b| && b[j] == a[0];
      var i :| 0 <= i < |a| && a[i] == b[0];
      assert i == 0 && j == 0;
      forall r ensures r in a[1..] <==> r in b[1..] {
        assert a == [a[0]] + a[1..] && b == [b[0]] + b[1..];
        if r in a[1..] {
          var m :| 1 <= m < |a| && a[m] == r;
          assert r in b && r != b[0];
        }
        if r in b[1..] {
          var m :| 1 <= m < |b| && b[m] == r;
          assert r in a && r != a[0];
        }
      }
      SortedUnique(a[1..], b[1..]);
    }
  }

  /** Without ties there is one listing, so the transcript is a function of the checkpointed results. */
  lemma ListingUnique(utts: map<nat, seq<Utterance>>, a: seq<Row>, b: seq<Row>)
    requires NoTies(utts) && IsListing(utts, a) && IsListing(utts, b)
    ensures a == b
  {
    hide InTable;
    forall i, j | 0 <= i < j < |a| ensures !RowBefore(a[j], a[i]) { assert a[i] in a && a[j] in a; }
    forall i, j | 0 <= i < j < |b| ensures !RowBefore(b[j], b[i]) { assert b[i] in b && b[j] in b; }
    SortedUnique(a, b);
  }

  lemma Swapped(utts: map<nat, seq<Utterance>>, list: seq<Row>, i: nat, j: nat)
    requires IsListing(utts, list) && i < j < |list|
    requires list[i].u.start == list[j].u.start && list[i].index == list[j].index
    ensures IsListing(utts, list[i := list[j]][j := list[i]]) && list[i := list[j]][j := list[i]] != list
  {
    hide InTable;
    var other := list[i := list[j]][j := list[i]];
    assert other[i] == list[j] && other[j] == list[i];
    forall r ensures r in other <==> r in list {
      if r in list {
        var k :| 0 <= k < |list| && list[k] == r;
        assert other[if k == i then j else if k == j then i else k] == r;
      }
      if r in other {
        var k :| 0 <= k < |other| && other[k] == r;
        assert list[if k == i then j else if k == j then i else k] == r;
      }
    }
    assert forall k :: i < k < j ==> RowBefore(list[i], list[k]) && RowBefore(list[k], list[j]);
    assert forall k :: i <= k <= j ==> list[k].u.start == list[i].u.start && list[k].index == list[i].index;
    assert forall a, b :: 0 <= a < b < |other| ==> RowBefore(other[a], other[b]);
  }

  /** The utterance query has one answer exactly when no rows tie. */
  lemma OneListingIff(utts: map<nat, seq<Utterance>>)
    ensures NoTies(utts) <==> forall a, b :: IsListing(utts, a) && IsListing(utts, b) ==> a == b
  {
    hide IsListing;
    if NoTies(utts) {
      forall a, b | IsListing(utts, a) && IsListing(utts, b) ensures a == b { ListingUnique(utts, a, b); }
    } else {
      var p, q :| InTable(utts, p) && InTable(utts, q) && p.u.start == q.u.start && p.index == q.index && p != q;
      var list := ListingExists(utts);
      var i, j := PlacesOf(utts, list, p, q);
      if i < j { Swapped(utts, list, i, j); } else { Swapped(utts, list, j, i); }
    }
  }

  lemma PlacesOf(utts: map<nat, seq<Utterance>>, list: seq<Row>, p: Row, q: Row) returns (i: nat, j: nat)
    requires IsListing(utts, list) && InTable(utts, p) && InTable(utts, q) && p != q
    ensures i < |list| && j < |list| && i != j && list[i] == p && list[j] == q
  {
    hide InTable;
    i :| i < |list| && list[i] == p;
    j :| j < |list| && list[j] == q;
  }

  /** Complete runs with the same checkpointed results. */
  predicate SameResults(t: State, u: State) {
    t.seen == u.seen && |t.segs| == |u.segs|
  }

  lemma SameResultsSameRows(c: Config, t: State, u: State)
    requires Inv(c, t) && Inv(c, u) && t.complete && u.complete && SameResults(t, u)
    ensures t.utts == u.utts && SumCost(t.segs) == SumCost(u.segs)
    ensures forall k :: 0 <= k < |t.segs| ==> t.segs[k].cost == u.segs[k].cost
  {
    hide Inv;
    hide WindowsFit;
    hide Accepted;
    CompleteHasAll(c, t);
    CompleteHasAll(c, u);
    forall k: nat | k < |t.segs| ensures HeardBy(t)(k) == HeardBy(u)(k) {}
    SameCosts(t.segs, u.segs);
  }

  /**
   Two complete runs that checkpointed the same results have the same rows and, unless rows tie, the same transcript;
   and then the same recorded cost exactly when nothing was embedded or their last partial tallies agree.
   */
  lemma SameResultsSameTranscript(c: Config, s: State, steps: seq<Step>, t: State, others: seq<Step>, u: State,
                                  list: seq<Row>)
    requires IsInit(c, s) && Trace(c, s, steps, t) && Trace(c, s, others, u) && t.complete && u.complete
    requires SameResults(t, u) && NoTies(t.utts) && IsListing(t.utts, list)
    ensures t.utts == u.utts && t.transcript == u.transcript
    ensures t.cost == u.cost <==> Staging(list) == {} || SumOver(t.segs, t.counted) == SumOver(u.segs, u.counted)
  {
    hide Inv;
    hide Apply;
    hide Enabled;
    hide Trace;
    hide Assembled;
    hide Staging;
    hide IsListing;
    hide NoTies;
    hide SumCost;
    hide SumOver;
    StartHolds(c, s);
    RunKeepsDone(c, s, steps, t);
    RunKeepsDone(c, s, others, u);
    SameResultsSameRows(c, t, u);
    var a, p := ListingsOf(c, t);
    var b, q := ListingsOf(c, u);
    ListingUnique(t.utts, a, list);
    ListingUnique(t.utts, b, list);
    ListingUnique(t.utts, p, q);
  }

  /** Every answer of the utterance query assembles to the same chunks. */
  ghost predicate OneTranscript(utts: map<nat, seq<Utterance>>) {
    forall a, b :: IsListing(utts, a) && IsListing(utts, b) ==> Assembled(Spoken(a)) == Assembled(Spoken(b))
  }

  ghost predicate Completes(c: Config, s: State, t: State) {
    t.complete && exists steps :: Trace(c, s, steps, t)
  }

  lemma CompletesKeeps(c: Config, s: State, t: State)
    requires IsInit(c, s) && Completes(c, s, t)
    ensures Inv(c, t) && t.complete
  {
    hide Trace;
    var steps :| Trace(c, s, steps, t);
    StartHolds(c, s);
    RunKeepsDone(c, s, steps, t);
  }

  /** Any answer of the query can end up as the transcript of those results. */
  lemma WithTranscript(c: Config, s: State, t: State, saved: seq<Row>) returns (u: State)
    requires IsInit(c, s) && Completes(c, s, t) && IsListing(t.utts, saved)
    ensures Completes(c, s, u) && SameResults(t, u) && u.transcript == Some(Assembled(Spoken(saved)))
  {
    hide Inv;
    hide Trace;
    hide IsListing;
    hide Assembled;
    hide Staging;
    hide HeardAll;
    hide UttsOf;
    hide HeardBy;
    hide AllSmooth;
    hide WindowsFit;
    CompletesKeeps(c, s, t);
    CompleteHasAll(c, t);
    var w, f := WindowsOf(t.segs), HeardBy(t);
    var smooth := SmoothRun(c, s, w, f, t.duration, t.probed, saved, saved);
    u := SmoothEnd(w, f, t.duration, t.probed, saved, saved);
    AskedHeard(w, f, t.duration, t.probed);
    SmoothEndIs(w, f, t.duration, t.probed, saved, saved);
  }

  /** The results determine the transcript exactly when all answers of the utterance query assemble to one. */
  lemma OneTranscriptIff(c: Config, s: State, t: State)
    requires IsInit(c, s) && Completes(c, s, t)
    ensures (forall u :: Completes(c, s, u) && SameResults(t, u) ==> u.transcript == t.transcript) <==>
            OneTranscript(t.utts)
  {
    hide Inv;
    hide Completes;
    hide IsListing;
    hide Assembled;
    hide SameResults;
    CompletesKeeps(c, s, t);
    if OneTranscript(t.utts) {
      var a, p := ListingsOf(c, t);
      forall u | Completes(c, s, u) && SameResults(t, u) ensures u.transcript == t.transcript {
        CompletesKeeps(c, s, u);
        SameResultsSameRows(c, t, u);
        var b, q := ListingsOf(c, u);
      }
    } else {
      var a, b :| IsListing(t.utts, a) && IsListing(t.utts, b) && Assembled(Spoken(a)) != Assembled(Spoken(b));
      var u := WithTranscript(c, s, t, a);
      var v := WithTranscript(c, s, t, b);
    }
  }

  /**
   Without ties: a completed run records what its segments cost exactly when nothing was embedded, or every segment
   heard since the last partial settlement was free; for a run never retried, when nothing was spent at all.
   */
  lemma CostIsKeptIff(c: Config, s: State, steps: seq<Step>, t: State, list: seq<Row>)
    requires IsInit(c, s) && Trace(c, s, steps, t) && t.complete && NoTies(t.utts) && IsListing(t.utts, list)
    ensures t.cost == SumCost(t.segs) <==>
            Staging(list) == {} || forall k: nat :: k < |t.segs| && k !in t.counted ==> t.segs[k].cost == 0
    ensures RetryFailed !in steps ==> (t.cost == SumCost(t.segs) <==> Staging(list) == {} || SumCost(t.segs) == 0)
  {
    hide *;
    StartHolds(c, s);
    RunKeepsDone(c, s, steps, t);
    var a, p := ListingsOf(c, t);
    ListingUnique(t.utts, a, list);
    CompletedCost(c, s, steps, t);
    RecordedIff(t.segs, t.counted, Staging(list));
  }

  lemma RecordedIff(segs: seq<Seg>, counted: set<nat>, texts: set<EmbedLoop.Index>)
    ensures Recorded(segs, counted, texts) == SumCost(segs) <==>
            texts == {} || forall k: nat :: k < |segs| && k !in counted ==> segs[k].cost == 0
    ensures counted == {} ==> (Recorded(segs, counted, texts) == SumCost(segs) <==> texts == {} || SumCost(segs) == 0)
  {
    SumOverIff(segs, counted);
    hide SumCost;
    hide SumOver;
  }

  /** Whatever was heard and paid for: a run nothing cut that embeds any of it completes with no cost recorded. */
  lemma CostIsLost(c: Config, s: State, w: seq<Window>, f: nat -> Heard, duration: int, probed: int, list: seq<Row>)
    returns (steps: seq<Step>, t: State)
    requires IsInit(c, s) && Accepted(c, probed) && duration > 0 && WindowsFit(c, w, duration)
    requires IsListing(UttsOf(w, f), list) && Staging(list) != {}
    ensures AllSmooth(steps) && Trace(c, s, steps, t) && t.phase == Ended(Complete)
    ensures t.cost == 0 && |t.segs| == |w| && forall k: nat :: k < |w| ==> t.segs[k] == Seg(w[k], Done, f(k).cost, 0)
  {
    hide Trace;
    hide IsListing;
    hide Staging;
    hide WindowsFit;
    hide AllSmooth;
    hide HeardAll;
    steps := SmoothRun(c, s, w, f, duration, probed, list, list);
    t := SmoothEnd(w, f, duration, probed, list, list);
    AskedHeard(w, f, duration, probed);
    SmoothEndIs(w, f, duration, probed, list, list);
  }

  /**
   Two segments that each open with an utterance over the same span: both orders answer the query, and the
   transcript holds whichever came first.
   */
  lemma TiedRowsDecide(u: Utterance, v: Utterance)
    requires Speaks(u) && Speaks(v) && 0 <= u.start == v.start < u.end == v.end && PartOf(u) != PartOf(v)
    ensures var utts: map<nat, seq<Utterance>> := map[0 := [u], 1 := [v]];
            var a, b := [AudioRun.Row(0, 0, u), AudioRun.Row(1, 0, v)], [AudioRun.Row(1, 0, v), AudioRun.Row(0, 0, u)];
            IsListing(utts, a) && IsListing(utts, b) && Assembled(Spoken(a)) != Assembled(Spoken(b))
  {
    hide IsListing;
    hide Assembled;
    hide PartOf;
    var a, b := [AudioRun.Row(0, 0, u), AudioRun.Row(1, 0, v)], [AudioRun.Row(1, 0, v), AudioRun.Row(0, 0, u)];
    assert Spoken(a) == [u, v] && Spoken(b) == [v, u];
    BothList(u, v);
    DifferentTexts(u, v);
  }

  lemma BothList(u: Utterance, v: Utterance)
    requires u.start == v.start
    ensures var utts: map<nat, seq<Utterance>> := map[0 := [u], 1 := [v]];
            && IsListing(utts, [AudioRun.Row(0, 0, u), AudioRun.Row(1, 0, v)])
            && IsListing(utts, [AudioRun.Row(1, 0, v), AudioRun.Row(0, 0, u)])
  {
    var utts: map<nat, seq<Utterance>> := map[0 := [u], 1 := [v]];
    var p, q := AudioRun.Row(0, 0, u), AudioRun.Row(1, 0, v);
    forall r ensures InTable(utts, r) <==> r == p || r == q {}
    hide InTable;
  }

  lemma DifferentTexts(u: Utterance, v: Utterance)
    requires Speaks(u) && Speaks(v) && 0 <= u.start == v.start < u.end == v.end && PartOf(u) != PartOf(v)
    ensures Assembled([u, v]) != Assembled([v, u])
  {
    hide PartOf;
    hide Assembled;
    hide Speaks;
    hide Kept;
    hide Parts;
    TwoOfASpan(u, v);
    TwoOfASpan(v, u);
    ChunksHoldTheTexts([u, v]);
    ChunksHoldTheTexts([v, u]);
    assert Texts([u])[0] == PartOf(u) && Texts([v])[0] == PartOf(v);
  }

  lemma TwoOfASpan(u: Utterance, v: Utterance)
    requires Speaks(u) && 0 <= u.start == v.start < u.end == v.end
    ensures Kept([u, v]) == [u]
  {
    hide Speaks;
    assert [u, v][..1] == [u] && [u][..0] == [];
    assert Kept([]) == [] && Reach([]) == -1;
    assert Kept([u]) == [u];
    assert [u][..|[u]| - 1] == [];
    assert Reach([u]) == u.end;
  }
}
