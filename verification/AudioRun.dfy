/**
 One audio run: probe, normalize, transcribe segment by segment, assemble, with every durable write a step of
 its own and a cut possible between any two.  The loop keeps no durable state; each attempt starts over and
 finds its way from the rows.  A run whose job has ended with failed segments can be retried: they are open
 again, and a new job takes the run up.
 */
module AudioRun {
  import opened Common
  import opened AudioWindows
  import EmbedLoop

  /** What a transcription of one segment returned. */
  datatype Heard = Heard(utts: seq<Utterance>, cost: nat)

  /** A sidecar's answer: a value, a verdict that the audio is unusable, or a failure that may pass. */
  datatype Reply<T> = Usable(value: T) | Unusable | Transient

  datatype Status = Pending | Done | Failed
  datatype Seg = Seg(window: Window, status: Status, cost: nat, retries: nat)

  datatype Outcome = Complete | Partial | Rejected | Unavailable | AlreadyComplete | Discarded

  datatype Phase =
    | Idle                           // an attempt about to start
    | Probing
    | Normalizing
    | Asking                         // next segment, or finalize
    | Transcribing(i: nat)
    | Storing(i: nat, t: Heard)      // answered, utterances not stored
    | Stored(i: nat, t: Heard)       // utterances stored, segment not checkpointed
    | Finishing
    | Embedding(p: EmbedLoop.Progress, held: nat)       // planning the next call, or waiting for one
    | Settling(stages: EmbedLoop.Stages, held: nat)     // nothing left to embed, chunks not stored
    | Saving(held: nat)              // chunks stored, transcript not stored
    | Saved(held: nat)               // transcript stored, run not complete
    | Reporting(outcome: Outcome)    // the outcome is stored, the job's answer under way
    | Ended(outcome: Outcome)

  datatype Config = Config(max: nat, maxDuration: nat, maxMs: int, overlapMs: int)

  /**
   cost is what the run's row says, and held in a phase what the step's own copy of the row says.  seen, probed and
   counted only record: the result each checkpoint kept, the length the gate let through, and the segments that were
   done when the run was last settled as partial.
   */
  datatype State = State(attempt: nat, phase: Phase, duration: int, normalized: bool, segs: seq<Seg>,
                         utts: map<nat, seq<Utterance>>, transcript: Option<seq<Chunk>>, cost: nat, complete: bool,
                         seen: map<nat, Heard>, probed: int, counted: set<nat>)

  /** An utterance row: its segment, its place in it, and the utterance. */
  datatype Row = Row(seg: nat, index: nat, u: Utterance)

  datatype Step =
    | Start
    | Probed(probe: Reply<int>, allowed: bool)
    | Normalized(norm: Reply<int>)
    | Ask(windows: seq<Window>)
    | Answered(heard: Reply<Heard>)
    | Store
    | Check
    | Stage(list: seq<Row>)
    | Plan(pending: seq<EmbedLoop.Index>)
    | Embedded(answer: Option<seq<EmbedLoop.Vector>>)
    | Commit
    | Save(list: seq<Row>)
    | Close
    | Report
    | Cut            // a crash, or a fault that makes the step ask for a retry
    | RetryFailed    // an operator resets the failed segments and queues the run again

  predicate IsInit(c: Config, s: State) {
    c.max >= 1 && s == State(1, Idle, 0, false, [], map[], None, 0, false, map[], 0, {})
  }

  /** The attempt is over: the next one starts, if there is one. */
  function Retry(c: Config, s: State): State {
    if s.attempt < c.max then s.(attempt := s.attempt + 1, phase := Idle) else s.(phase := Ended(Discarded))
  }

  function First(segs: seq<Seg>): (n: nat)
    ensures n <= |segs|
    ensures forall k :: 0 <= k < n ==> !segs[k].status.Pending?
    ensures n < |segs| ==> segs[n].status.Pending?
  {
    if segs == [] || segs[0].status.Pending? then 0 else 1 + First(segs[1..])
  }

  function Fresh(w: seq<Window>): seq<Seg> {
    seq(|w|, k requires 0 <= k < |w| => Seg(w[k], Pending, 0, 0))
  }

  function Opens(segs: seq<Seg>): set<nat> {
    set k: nat | k < |segs| && segs[k].status.Pending?
  }

  function Dones(segs: seq<Seg>): set<nat> {
    set k: nat | k < |segs| && segs[k].status.Done?
  }

  /** The failed segments open again. */
  function Reset(segs: seq<Seg>): seq<Seg> {
    seq(|segs|, k requires 0 <= k < |segs| => if segs[k].status.Failed? then segs[k].(status := Pending) else segs[k])
  }

  function SumCost(segs: seq<Seg>): nat {
    if segs == [] then 0 else SumCost(segs[..|segs| - 1]) + segs[|segs| - 1].cost
  }

  predicate AnyFailed(segs: seq<Seg>) {
    exists k :: 0 <= k < |segs| && segs[k].status.Failed?
  }

  predicate InTable(utts: map<nat, seq<Utterance>>, r: Row) {
    r.seg in utts && r.index < |utts[r.seg]| && utts[r.seg][r.index] == r.u
  }

  predicate RowBefore(a: Row, b: Row) {
    a.u.start < b.u.start || (a.u.start == b.u.start && a.index <= b.index)
  }

  /** The query's answer: every row once, by start and then index; rows alike in both come in any order. */
  ghost predicate IsListing(utts: map<nat, seq<Utterance>>, list: seq<Row>) {
    && (forall r :: r in list <==> InTable(utts, r))
    && (forall i, j :: 0 <= i < j < |list| ==> list[i] != list[j] && RowBefore(list[i], list[j]))
  }

  function Spoken(list: seq<Row>): seq<Utterance> {
    seq(|list|, k requires 0 <= k < |list| => list[k].u)
  }

  /** The chunks a listing stages for embedding. */
  function Staging(list: seq<Row>): set<EmbedLoop.Index> {
    Wording(Assembled(Spoken(list)))
  }

  ghost predicate WindowsFit(c: Config, w: seq<Window>, duration: int) {
    Covers(w, duration, Longest(c.maxMs), Overlap(c.maxMs, c.overlapMs))
  }

  ghost predicate Answers(p: EmbedLoop.Progress, pending: seq<EmbedLoop.Index>) {
    EmbedLoop.FirstOpen(p.stages, EmbedLoop.BATCH, pending)
  }

  ghost predicate Enabled(c: Config, s: State, step: Step) {
    match step
    case Start => s.phase.Idle?
    case Probed(_, _) => s.phase.Probing?
    case Normalized(_) => s.phase.Normalizing?
    case Ask(w) => s.phase.Asking? && (s.segs == [] ==> WindowsFit(c, w, s.duration))
    case Answered(_) => s.phase.Transcribing? && s.phase.i < |s.segs|
    case Store => s.phase.Storing?
    case Check => s.phase.Stored? && s.phase.i < |s.segs|
    case Stage(list) => s.phase.Finishing? && IsListing(s.utts, list)
    case Plan(pending) => s.phase.Embedding? && s.phase.p.batch == [] && Answers(s.phase.p, pending)
    case Embedded(_) => s.phase.Embedding? && s.phase.p.batch != []
    case Commit => s.phase.Settling?
    case Save(list) => s.phase.Saving? && IsListing(s.utts, list)
    case Close => s.phase.Saved?
    case Cut => !s.phase.Ended?
    case Report => s.phase.Reporting?
    case RetryFailed => s.phase.Ended? && !s.complete && AnyFailed(s.segs)
  }

  function DoProbed(c: Config, s: State, r: Reply<int>, allowed: bool): State {
    match r
    case Usable(d) =>
      if d <= 0 || (c.maxDuration > 0 && d > c.maxDuration) || !allowed then s.(phase := Reporting(Rejected))
      else s.(phase := Normalizing, duration := d, probed := d)
    case Unusable => s.(phase := Reporting(Rejected))
    case Transient => Retry(c, s)
  }

  function DoNormalized(c: Config, s: State, r: Reply<int>): State {
    match r
    case Usable(d) => s.(phase := Asking, duration := if d > 0 then d else s.duration, normalized := true)
    case Unusable => s.(phase := Reporting(Rejected))
    case Transient => Retry(c, s)
  }

  function DoAsk(s: State, w: seq<Window>): State {
    if s.segs == [] then s.(segs := Fresh(w))
    else if First(s.segs) < |s.segs| then s.(phase := Transcribing(First(s.segs)))
    else s.(phase := Finishing)
  }

  function WithSeg(s: State, i: nat, seg: Seg): State
    requires i < |s.segs|
  {
    s.(segs := s.segs[i := seg])
  }

  function DoAnswered(c: Config, s: State, i: nat, r: Reply<Heard>): State
    requires i < |s.segs|
  {
    var seg := s.segs[i];
    match r
    case Usable(t) => s.(phase := Storing(i, t))
    case Unusable => WithSeg(s, i, seg.(status := Failed)).(phase := Asking)
    case Transient =>
      if s.attempt >= c.max then WithSeg(s, i, seg.(status := Failed, retries := seg.retries + 1)).(phase := Asking)
      else Retry(c, WithSeg(s, i, seg.(retries := seg.retries + 1)))
  }

  function DoCheck(s: State, i: nat, t: Heard): State
    requires i < |s.segs|
  {
    WithSeg(s, i, s.segs[i].(status := Done, cost := t.cost)).(phase := Asking, seen := s.seen[i := t])
  }

  /** The tally, kept in the step's copy of the row unless the run ends here, and the texts to embed. */
  function DoStage(s: State, list: seq<Row>): State {
    if AnyFailed(s.segs) then s.(cost := SumCost(s.segs), counted := Dones(s.segs), phase := Reporting(Partial))
    else
      var p := EmbedLoop.Progress(EmbedLoop.Begin(Staging(list)), [], []);
      s.(phase := Embedding(p, SumCost(s.segs)))
  }

  function DoPlan(s: State, p: EmbedLoop.Progress, held: nat, pending: seq<EmbedLoop.Index>): State {
    var rows := EmbedLoop.Rows(p.single, pending);
    s.(phase := if rows == [] then Settling(p.stages, held) else Embedding(p.(batch := rows), held))
  }

  /** An answer arrives in a step of its own, which reads the row afresh. */
  function DoEmbedded(s: State, p: EmbedLoop.Progress, answer: Option<seq<EmbedLoop.Vector>>): State {
    s.(phase := Embedding(EmbedLoop.After(p, answer), s.cost))
  }

  function VerdictOf(stages: EmbedLoop.Stages, last: bool): EmbedLoop.Verdict {
    EmbedLoop.Settled(|stages|, |EmbedLoop.Embeddeds(stages)|, |EmbedLoop.Faileds(stages)|, last)
  }

  function DoCommit(c: Config, s: State, stages: EmbedLoop.Stages, held: nat): State {
    match VerdictOf(stages, s.attempt >= c.max)
    case AllFailed => s.(phase := Reporting(Unavailable))
    case RetryLater => Retry(c, s)
    case _ => s.(phase := Saving(held))
  }

  ghost function Apply(c: Config, s: State, step: Step): State
    requires Enabled(c, s, step)
  {
    match step
    case Start => s.(phase := if s.complete then Reporting(AlreadyComplete) else if s.normalized then Asking
      else Probing)
    case Probed(r, allowed) => DoProbed(c, s, r, allowed)
    case Normalized(r) => DoNormalized(c, s, r)
    case Ask(w) => DoAsk(s, w)
    case Answered(r) => DoAnswered(c, s, s.phase.i, r)
    case Store => s.(phase := Stored(s.phase.i, s.phase.t), utts := s.utts[s.phase.i := s.phase.t.utts])
    case Check => DoCheck(s, s.phase.i, s.phase.t)
    case Stage(list) => DoStage(s, list)
    case Plan(pending) => DoPlan(s, s.phase.p, s.phase.held, pending)
    case Embedded(answer) => DoEmbedded(s, s.phase.p, answer)
    case Commit => DoCommit(c, s, s.phase.stages, s.phase.held)
    case Save(list) => s.(phase := Saved(s.phase.held), transcript := Some(Assembled(Spoken(list))))
    case Close => s.(phase := Reporting(Complete), cost := s.phase.held, complete := true)
    case Report => s.(phase := Ended(s.phase.outcome))
    case Cut => Retry(c, s)
    case RetryFailed => s.(phase := Idle, attempt := 1, segs := Reset(s.segs))
  }

  ghost predicate Trace(c: Config, s: State, steps: seq<Step>, t: State)
    decreases |steps|
  {
    if steps == [] then s == t else Enabled(c, s, steps[0]) && Trace(c, Apply(c, s, steps[0]), steps[1..], t)
  }

  // ---------------------------------------------------------------- invariant

  predicate AllDone(segs: seq<Seg>) {
    forall k :: 0 <= k < |segs| ==> segs[k].status.Done?
  }

  function WindowsOf(segs: seq<Seg>): seq<Window> {
    seq(|segs|, k requires 0 <= k < |segs| => segs[k].window)
  }

  /** The rows hold exactly what the checkpoints kept. */
  ghost predicate RowsInv(c: Config, duration: int, normalized: bool, segs: seq<Seg>,
      utts: map<nat, seq<Utterance>>, seen: map<nat, Heard>)
  {
    && (segs != [] ==> normalized && WindowsFit(c, WindowsOf(segs), duration))
    && (normalized ==> duration > 0)
    && (forall k :: k in utts ==> k < |segs|)
    && (forall k: nat :: k in seen <==> k < |segs| && segs[k].status.Done?)
    && (forall k :: k in seen ==> k in utts && utts[k] == seen[k].utts && segs[k].cost == seen[k].cost)
    && (forall k :: 0 <= k < |segs| && !segs[k].status.Done? ==> segs[k].cost == 0)
  }

  ghost predicate FromRows(utts: map<nat, seq<Utterance>>, chunks: seq<Chunk>) {
    exists list :: IsListing(utts, list) && chunks == Assembled(Spoken(list))
  }

  predicate Finished(segs: seq<Seg>) {
    segs != [] && AllDone(segs)
  }

  ghost predicate StagedFrom(utts: map<nat, seq<Utterance>>, texts: set<EmbedLoop.Index>) {
    exists list :: IsListing(utts, list) && texts == Staging(list)
  }

  /** The cost of some of the segments. */
  function SumOver(segs: seq<Seg>, who: set<nat>): nat {
    if segs == [] then 0
    else SumOver(segs[..|segs| - 1], who) + if |segs| - 1 in who then segs[|segs| - 1].cost else 0
  }

  /** What a run that staged these texts records: all of it if there were none, else what the row said before. */
  function Recorded(segs: seq<Seg>, counted: set<nat>, texts: set<EmbedLoop.Index>): nat {
    if texts == {} then SumCost(segs) else SumOver(segs, counted)
  }

  ghost predicate Priced(utts: map<nat, seq<Utterance>>, segs: seq<Seg>, counted: set<nat>, cost: nat) {
    exists texts :: StagedFrom(utts, texts) && cost == Recorded(segs, counted, texts)
  }

  /** The tally is at hand until the first call, and then what the row says. */
  ghost predicate EmbedInv(s: State, p: EmbedLoop.Progress, held: nat) {
    && EmbedLoop.Sound(p) && StagedFrom(s.utts, p.stages.Keys)
    && (p.batch != [] ==> p.stages.Keys != {})
    && (p.batch == [] ==>
          || (held == SumCost(s.segs) && EmbedLoop.Open(p.stages) == p.stages.Keys)
          || (held == s.cost && p.stages.Keys != {}))
  }

  /** Until the run completes its row's cost is the last partial settlement's tally. */
  predicate TallyInv(segs: seq<Seg>, counted: set<nat>, cost: nat, complete: bool) {
    counted <= Dones(segs) && (!complete ==> cost == SumOver(segs, counted))
  }

  ghost predicate OutcomeInv(s: State, o: Outcome) {
    && (o.Complete? ==> s.complete)
    && (o.Partial? ==> AnyFailed(s.segs) && s.cost == SumCost(s.segs) && s.counted == Dones(s.segs))
  }

  ghost predicate PhaseInv(c: Config, s: State) {
    match s.phase
    case Idle => true
    case Probing => !s.normalized
    case Normalizing => !s.normalized && s.duration > 0 && Accepted(c, s.probed)
    case Asking => s.normalized && !s.complete
    case Transcribing(i) => s.normalized && !s.complete && i == First(s.segs) < |s.segs|
    case Storing(i, _) => s.normalized && !s.complete && i == First(s.segs) < |s.segs|
    case Stored(i, t) => s.normalized && !s.complete && i == First(s.segs) < |s.segs| && i in s.utts
      && s.utts[i] == t.utts
    case Finishing => s.normalized && !s.complete && s.segs != [] && First(s.segs) == |s.segs|
    case Embedding(p, held) => s.normalized && !s.complete && Finished(s.segs) && EmbedInv(s, p, held)
    case Settling(stages, held) =>
      && s.normalized && !s.complete && Finished(s.segs) && EmbedLoop.Open(stages) == {}
      && StagedFrom(s.utts, stages.Keys) && held == Recorded(s.segs, s.counted, stages.Keys)
    case Saving(held) => s.normalized && !s.complete && Finished(s.segs) && Priced(s.utts, s.segs, s.counted, held)
    case Saved(held) =>
      && s.normalized && !s.complete && Finished(s.segs) && Priced(s.utts, s.segs, s.counted, held)
      && s.transcript.Some? && FromRows(s.utts, s.transcript.value)
    case Reporting(o) => OutcomeInv(s, o) && !o.Discarded?
    case Ended(o) => OutcomeInv(s, o)
  }

  /** What a completed run left. */
  ghost predicate Concluded(s: State) {
    && s.normalized && Finished(s.segs) && Priced(s.utts, s.segs, s.counted, s.cost)
    && s.transcript.Some? && FromRows(s.utts, s.transcript.value)
  }

  predicate Accepted(c: Config, d: int) {
    d > 0 && (c.maxDuration > 0 ==> d <= c.maxDuration)
  }

  ghost predicate Inv(c: Config, s: State) {
    && 1 <= s.attempt <= c.max
    && RowsInv(c, s.duration, s.normalized, s.segs, s.utts, s.seen)
    && (s.normalized ==> Accepted(c, s.probed))
    && (s.complete ==> Concluded(s))
    && TallyInv(s.segs, s.counted, s.cost, s.complete)
    && PhaseInv(c, s)
  }

  lemma RetryKeepsInv(c: Config, s: State)
    requires Inv(c, s)
    ensures Inv(c, Retry(c, s))
  {
  }

  lemma FirstIs(segs: seq<Seg>, n: nat)
    requires n <= |segs| && (forall k :: 0 <= k < n ==> !segs[k].status.Pending?)
             && (n < |segs| ==> segs[n].status.Pending?)
    ensures First(segs) == n
  {
    var m := First(segs);
  }

  lemma {:induction false} SumOverFrame(a: seq<Seg>, b: seq<Seg>, who: set<nat>)
    requires |a| == |b| && forall k :: k in who && k < |a| ==> a[k].cost == b[k].cost
    ensures SumOver(a, who) == SumOver(b, who)
    decreases |a|
  {
    if a != [] { SumOverFrame(a[..|a| - 1], b[..|b| - 1], who); }
  }

  /** A part of the segments costs no more than all, and as much exactly when the others cost nothing. */
  lemma {:induction false} SumOverIff(segs: seq<Seg>, who: set<nat>)
    ensures SumOver(segs, who) <= SumCost(segs)
    ensures SumOver(segs, who) == SumCost(segs) <==> forall k :: 0 <= k < |segs| && k !in who ==> segs[k].cost == 0
    ensures SumOver(segs, who) == 0 <==> forall k :: 0 <= k < |segs| && k in who ==> segs[k].cost == 0
    decreases |segs|
  {
    if segs != [] {
      var init := segs[..|segs| - 1];
      SumOverIff(init, who);
      assert forall k :: 0 <= k < |init| ==> init[k] == segs[k];
    }
  }

  /** Settling one segment, or opening it again, leaves the tally of others done before. */
  lemma TallyKept(segs: seq<Seg>, after: seq<Seg>, counted: set<nat>, cost: nat, complete: bool)
    requires TallyInv(segs, counted, cost, complete) && |after| == |segs|
    requires forall k :: 0 <= k < |segs| && segs[k].status.Done? ==> after[k] == segs[k]
    ensures TallyInv(after, counted, cost, complete)
  {
    forall k | k in counted ensures k < |segs| && segs[k].status.Done? && after[k] == segs[k] {
      assert k in Dones(segs);
    }
    SumOverFrame(segs, after, counted);
  }

  lemma OpenKeepsRows(c: Config, s: State, i: nat, seg: Seg)
    requires RowsInv(c, s.duration, s.normalized, s.segs, s.utts, s.seen) && i < |s.segs| && s.segs[i].status.Pending?
    requires seg.window == s.segs[i].window && !seg.status.Done? && seg.cost == s.segs[i].cost
    ensures RowsInv(c, s.duration, s.normalized, s.segs[i := seg], s.utts, s.seen)
  {
    var after := s.segs[i := seg];
    assert WindowsOf(after) == WindowsOf(s.segs);
    hide WindowsFit;
    hide WindowsOf;
  }

  lemma DoneKeepsRows(c: Config, s: State, i: nat, seg: Seg, t: Heard)
    requires RowsInv(c, s.duration, s.normalized, s.segs, s.utts, s.seen) && i < |s.segs| && s.segs[i].status.Pending?
    requires seg.window == s.segs[i].window && seg.status.Done? && seg.cost == t.cost && i in s.utts
             && s.utts[i] == t.utts
    ensures RowsInv(c, s.duration, s.normalized, s.segs[i := seg], s.utts, s.seen[i := t])
  {
    var after := s.segs[i := seg];
    assert WindowsOf(after) == WindowsOf(s.segs);
    hide WindowsFit;
    hide WindowsOf;
  }

  lemma StoreKeepsRows(c: Config, s: State, i: nat, us: seq<Utterance>)
    requires RowsInv(c, s.duration, s.normalized, s.segs, s.utts, s.seen) && i < |s.segs| && s.segs[i].status.Pending?
    ensures RowsInv(c, s.duration, s.normalized, s.segs, s.utts[i := us], s.seen)
  {
    assert i !in s.seen;
    hide WindowsFit;
    hide WindowsOf;
  }

  lemma FreshKeepsRows(c: Config, s: State, w: seq<Window>)
    requires RowsInv(c, s.duration, s.normalized, s.segs, s.utts, s.seen) && s.normalized && s.segs == []
    requires WindowsFit(c, w, s.duration)
    ensures RowsInv(c, s.duration, s.normalized, Fresh(w), s.utts, s.seen) && Fresh(w) != []
  {
    assert WindowsOf(Fresh(w)) == w;
  }

  lemma FreshKeepsTally(w: seq<Window>, counted: set<nat>, cost: nat, complete: bool)
    requires TallyInv([], counted, cost, complete)
    ensures TallyInv(Fresh(w), counted, cost, complete)
  {
    assert Dones([]) == {};
    assert counted == {};
    SumOverIff(Fresh(w), {});
  }

  lemma ResetKeepsRows(c: Config, s: State)
    requires RowsInv(c, s.duration, s.normalized, s.segs, s.utts, s.seen)
    ensures RowsInv(c, s.duration, s.normalized, Reset(s.segs), s.utts, s.seen)
  {
    assert WindowsOf(Reset(s.segs)) == WindowsOf(s.segs);
    hide WindowsFit;
    hide WindowsOf;
  }

  lemma RetryFailedKeepsInv(c: Config, s: State)
    requires Inv(c, s) && Enabled(c, s, RetryFailed)
    ensures Inv(c, Apply(c, s, RetryFailed))
  {
    hide RowsInv;
    hide TallyInv;
    hide Concluded;
    hide AnyFailed;
    ResetKeepsRows(c, s);
    TallyKept(s.segs, Reset(s.segs), s.counted, s.cost, s.complete);
  }

  lemma AskKeepsInv(c: Config, s: State, w: seq<Window>)
    requires Inv(c, s) && Enabled(c, s, Ask(w))
    ensures Inv(c, DoAsk(s, w))
  {
    hide WindowsFit;
    hide RowsInv;
    hide TallyInv;
    hide Concluded;
    if s.segs == [] {
      FreshKeepsRows(c, s, w);
      FreshKeepsTally(w, s.counted, s.cost, s.complete);
    }
  }

  lemma AnsweredKeepsInv(c: Config, s: State, r: Reply<Heard>)
    requires Inv(c, s) && Enabled(c, s, Answered(r))
    ensures Inv(c, DoAnswered(c, s, s.phase.i, r))
  {
    hide RowsInv;
    hide TallyInv;
    hide Concluded;
    var i := s.phase.i;
    var seg := s.segs[i];
    OpenKeepsRows(c, s, i, seg.(status := Failed));
    OpenKeepsRows(c, s, i, seg.(status := Failed, retries := seg.retries + 1));
    OpenKeepsRows(c, s, i, seg.(retries := seg.retries + 1));
    TallyKept(s.segs, DoAnswered(c, s, i, r).segs, s.counted, s.cost, s.complete);
  }

  lemma StoreKeepsInv(c: Config, s: State)
    requires Inv(c, s) && Enabled(c, s, Store)
    ensures Inv(c, Apply(c, s, Store))
  {
    hide RowsInv;
    hide TallyInv;
    hide Concluded;
    StoreKeepsRows(c, s, s.phase.i, s.phase.t.utts);
  }

  lemma CheckKeepsInv(c: Config, s: State)
    requires Inv(c, s) && Enabled(c, s, Check)
    ensures Inv(c, Apply(c, s, Check))
  {
    hide RowsInv;
    hide TallyInv;
    hide Concluded;
    var i, t := s.phase.i, s.phase.t;
    DoneKeepsRows(c, s, i, s.segs[i].(status := Done, cost := t.cost), t);
    TallyKept(s.segs, DoCheck(s, i, t).segs, s.counted, s.cost, s.complete);
  }

  /** A partial settlement counts just what its done segments cost. */
  lemma PartialTally(c: Config, s: State)
    requires RowsInv(c, s.duration, s.normalized, s.segs, s.utts, s.seen)
    ensures TallyInv(s.segs, Dones(s.segs), SumCost(s.segs), false)
  {
    SumOverIff(s.segs, Dones(s.segs));
    hide WindowsFit;
    hide SumOver;
    hide SumCost;
  }

  lemma PartialKeepsInv(c: Config, s: State, list: seq<Row>)
    requires Inv(c, s) && Enabled(c, s, Stage(list)) && AnyFailed(s.segs)
    ensures Inv(c, DoStage(s, list))
  {
    hide RowsInv;
    hide TallyInv;
    hide Concluded;
    hide IsListing;
    hide AnyFailed;
    hide Dones;
    hide SumCost;
    PartialTally(c, s);
  }

  lemma StageKeepsInv(c: Config, s: State, list: seq<Row>)
    requires Inv(c, s) && Enabled(c, s, Stage(list))
    ensures Inv(c, DoStage(s, list))
  {
    hide RowsInv;
    hide TallyInv;
    hide Concluded;
    hide IsListing;
    hide Staging;
    hide SumCost;
    if AnyFailed(s.segs) {
      PartialKeepsInv(c, s, list);
    } else {
      assert forall k :: 0 <= k < |s.segs| ==> !s.segs[k].status.Pending?;
      assert AllDone(s.segs);
      var stages := EmbedLoop.Begin(Staging(list));
      assert stages.Keys == Staging(list) && EmbedLoop.Open(stages) == stages.Keys;
      assert StagedFrom(s.utts, Staging(list));
      hide First;
      hide AllDone;
    }
  }

  lemma PlanKeepsInv(c: Config, s: State, pending: seq<EmbedLoop.Index>)
    requires Inv(c, s) && Enabled(c, s, Plan(pending))
    ensures Inv(c, DoPlan(s, s.phase.p, s.phase.held, pending))
  {
    hide WindowsFit;
    hide RowsInv;
    hide StagedFrom;
    hide SumCost;
    hide EmbedLoop.FirstOpen;
    hide Concluded;
    var p := s.phase.p;
    assert !s.complete && s.cost == SumOver(s.segs, s.counted);
    hide SumOver;
    EmbedLoop.PlanIsSound(p, pending);
    assert EmbedLoop.Open(p.stages) != {} ==> p.stages.Keys != {} by {
      if EmbedLoop.Open(p.stages) != {} { var i :| i in EmbedLoop.Open(p.stages); assert i in p.stages.Keys; }
    }
    hide EmbedLoop.Sound;
    hide EmbedLoop.Open;
  }

  lemma EmbeddedKeepsInv(c: Config, s: State, answer: Option<seq<EmbedLoop.Vector>>)
    requires Inv(c, s) && Enabled(c, s, Embedded(answer))
    ensures Inv(c, DoEmbedded(s, s.phase.p, answer))
  {
    hide WindowsFit;
    hide RowsInv;
    hide StagedFrom;
    hide SumCost;
    hide EmbedLoop.Sound;
    hide EmbedLoop.After;
    hide EmbedLoop.Open;
    EmbedLoop.AfterIsSound(s.phase.p, answer);
  }

  lemma CommitKeepsInv(c: Config, s: State)
    requires Inv(c, s) && Enabled(c, s, Commit)
    ensures Inv(c, DoCommit(c, s, s.phase.stages, s.phase.held))
  {
    hide WindowsFit;
    hide RowsInv;
    hide StagedFrom;
    hide SumCost;
    hide VerdictOf;
    hide TallyInv;
    hide Recorded;
    assert Priced(s.utts, s.segs, s.counted, s.phase.held);
  }

  lemma SaveKeepsInv(c: Config, s: State, list: seq<Row>)
    requires Inv(c, s) && Enabled(c, s, Save(list))
    ensures Inv(c, Apply(c, s, Save(list)))
  {
    hide WindowsFit;
    hide RowsInv;
    hide Priced;
    hide SumCost;
    hide IsListing;
    hide Assembled;
    assert FromRows(s.utts, Assembled(Spoken(list)));
  }

  lemma ProbedKeepsInv(c: Config, s: State, r: Reply<int>, allowed: bool)
    requires Inv(c, s) && Enabled(c, s, Probed(r, allowed))
    ensures Inv(c, DoProbed(c, s, r, allowed))
  {
    hide WindowsFit;
    hide IsListing;
  }

  lemma NormalizedKeepsInv(c: Config, s: State, r: Reply<int>)
    requires Inv(c, s) && Enabled(c, s, Normalized(r))
    ensures Inv(c, DoNormalized(c, s, r))
  {
    hide WindowsFit;
    hide IsListing;
  }

  lemma EdgeKeepsInv(c: Config, s: State, step: Step)
    requires Inv(c, s) && Enabled(c, s, step) && (step.Start? || step.Close? || step.Report?)
    ensures Inv(c, Apply(c, s, step))
  {
    hide RowsInv;
    hide Priced;
    hide SumOver;
    hide Dones;
    match step
    case Start =>
    case Close =>
    case Report =>
  }

  lemma StepKeepsInv(c: Config, s: State, step: Step)
    requires Inv(c, s) && Enabled(c, s, step)
    ensures Inv(c, Apply(c, s, step))
  {
    hide Inv;
    hide DoProbed;
    hide DoNormalized;
    hide DoAsk;
    hide DoAnswered;
    hide DoStage;
    hide DoPlan;
    hide DoEmbedded;
    hide DoCommit;
    hide Retry;
    match step
    case Probed(r, allowed) => ProbedKeepsInv(c, s, r, allowed);
    case Normalized(r) => NormalizedKeepsInv(c, s, r);
    case Ask(w) => AskKeepsInv(c, s, w);
    case Answered(r) => AnsweredKeepsInv(c, s, r);
    case Store => hide *; StoreKeepsInv(c, s);
    case Check => hide *; CheckKeepsInv(c, s);
    case Stage(list) => StageKeepsInv(c, s, list);
    case Plan(pending) => PlanKeepsInv(c, s, pending);
    case Embedded(answer) => EmbeddedKeepsInv(c, s, answer);
    case Commit => CommitKeepsInv(c, s);
    case Save(list) => hide *; SaveKeepsInv(c, s, list);
    case Cut => RetryKeepsInv(c, s);
    case RetryFailed => hide *; RetryFailedKeepsInv(c, s);
    case _ => hide *; EdgeKeepsInv(c, s, step);
  }

  // ---------------------------------------------------------------- what a run keeps

  /** The segment stays as it was settled, and when done with its utterances. */
  ghost predicate StaysAt(s: State, t: State, k: nat)
    requires k < |s.segs|
  {
    && k < |t.segs| && t.segs[k] == s.segs[k]
    && (s.segs[k].status.Done? ==> && k in s.utts && k in t.utts && t.utts[k] == s.utts[k]
                                   && k in s.seen && k in t.seen && t.seen[k] == s.seen[k])
  }

  /** A done segment keeps its window, its cost and its utterances. */
  ghost predicate DoneStay(s: State, t: State) {
    && (s.segs != [] ==> |t.segs| == |s.segs|)
    && forall k: nat :: k < |s.segs| && s.segs[k].status.Done? ==> StaysAt(s, t, k)
  }

  /** So does a settled one, its failure included. */
  ghost predicate SettledStay(s: State, t: State) {
    && (s.segs != [] ==> |t.segs| == |s.segs|)
    && forall k: nat :: k < |s.segs| && !s.segs[k].status.Pending? ==> StaysAt(s, t, k)
  }

  lemma DoneHasRows(c: Config, s: State)
    requires Inv(c, s)
    ensures SettledStay(s, s) && DoneStay(s, s)
  {
    hide PhaseInv;
    hide WindowsFit;
    hide Concluded;
  }

  /** Only the rows of segment i change. */
  ghost predicate TouchesOnly(s: State, t: State, i: nat) {
    && |s.segs| <= |t.segs| && (s.segs != [] ==> |t.segs| == |s.segs|)
    && (forall k: nat :: k < |s.segs| && k != i ==> t.segs[k] == s.segs[k])
    && (forall k :: k in s.utts && k != i ==> k in t.utts && t.utts[k] == s.utts[k])
    && (forall k :: k in s.seen && k != i ==> k in t.seen && t.seen[k] == s.seen[k])
  }

  lemma TouchKeepsSettled(c: Config, s: State, t: State, i: nat)
    requires Inv(c, s) && TouchesOnly(s, t, i) && (i < |s.segs| ==> s.segs[i].status.Pending?)
    ensures SettledStay(s, t)
  {
    DoneHasRows(c, s);
    hide Inv;
  }

  /** Outside a retry a step changes at most the first open segment. */
  lemma OpenTouched(c: Config, s: State, step: Step)
    requires Inv(c, s) && Enabled(c, s, step) && (step.Answered? || step.Store? || step.Check?)
    ensures s.phase.i < |s.segs| && s.segs[s.phase.i].status.Pending?
    ensures TouchesOnly(s, Apply(c, s, step), s.phase.i)
  {
    hide RowsInv;
    hide TallyInv;
    hide Concluded;
    hide WindowsFit;
    hide EmbedInv;
    match step
    case Answered(_) =>
    case Store =>
    case Check =>
  }

  lemma OtherTouchesNone(c: Config, s: State, step: Step)
    requires Enabled(c, s, step) && !step.Ask? && !step.Answered? && !step.Store? && !step.Check? && !step.RetryFailed?
    ensures var t := Apply(c, s, step); t.segs == s.segs && t.utts == s.utts && t.seen == s.seen
  {
    hide IsListing;
    hide Assembled;
    hide AnyFailed;
    hide SumCost;
    hide Staging;
    hide VerdictOf;
    hide WindowsFit;
    hide Answers;
    hide EmbedLoop.After;
    hide EmbedLoop.Rows;
    match step
    case Start =>
    case Probed(_, _) =>
    case Normalized(_) =>
    case Stage(_) =>
    case Plan(_) =>
    case Embedded(_) =>
    case Commit =>
    case Save(_) =>
    case _ =>
  }

  lemma StepKeepsSettled(c: Config, s: State, step: Step)
    requires Inv(c, s) && Enabled(c, s, step) && !step.RetryFailed?
    ensures SettledStay(s, Apply(c, s, step))
  {
    var t := Apply(c, s, step);
    hide Inv;
    hide SettledStay;
    if step.Ask? {
      TouchKeepsSettled(c, s, t, |s.segs|);
    } else if step.Answered? || step.Store? || step.Check? {
      hide Apply;
      hide Enabled;
      OpenTouched(c, s, step);
      TouchKeepsSettled(c, s, t, s.phase.i);
    } else {
      hide Apply;
      hide Enabled;
      OtherTouchesNone(c, s, step);
      TouchKeepsSettled(c, s, t, |s.segs|);
    }
  }

  lemma StepKeepsDone(c: Config, s: State, step: Step)
    requires Inv(c, s) && Enabled(c, s, step)
    ensures DoneStay(s, Apply(c, s, step))
  {
    if step.RetryFailed? {
      DoneHasRows(c, s);
      hide Inv;
    } else {
      hide Inv;
      hide Apply;
      hide Enabled;
      StepKeepsSettled(c, s, step);
    }
  }

  lemma DoneStayTransitive(s: State, t: State, u: State)
    requires DoneStay(s, t) && DoneStay(t, u)
    ensures DoneStay(s, u)
  {
  }

  lemma StartHolds(c: Config, s: State)
    requires IsInit(c, s)
    ensures Inv(c, s)
  {
  }

  /** Whatever cuts, faults and retries it meets: what is done stays as it was done. */
  lemma {:induction false} RunKeepsDone(c: Config, s: State, steps: seq<Step>, t: State)
    requires Inv(c, s) && Trace(c, s, steps, t)
    ensures Inv(c, t) && DoneStay(s, t)
    decreases |steps|
  {
    hide Inv;
    hide DoneStay;
    hide Enabled;
    hide Apply;
    if steps == [] {
      DoneHasRows(c, s);
    } else {
      var u := Apply(c, s, steps[0]);
      StepKeepsInv(c, s, steps[0]);
      StepKeepsDone(c, s, steps[0]);
      RunKeepsDone(c, u, steps[1..], t);
      DoneStayTransitive(s, u, t);
    }
  }

  /** Unless failed segments are retried, what is settled stays as it was settled. */
  lemma {:induction false} RunKeepsSettled(c: Config, s: State, steps: seq<Step>, t: State)
    requires Inv(c, s) && Trace(c, s, steps, t) && RetryFailed !in steps
    ensures Inv(c, t) && SettledStay(s, t)
    decreases |steps|
  {
    hide Inv;
    hide Enabled;
    hide Apply;
    if steps == [] {
      DoneHasRows(c, s);
    } else {
      var u := Apply(c, s, steps[0]);
      StepKeepsInv(c, s, steps[0]);
      StepKeepsSettled(c, s, steps[0]);
      RunKeepsSettled(c, u, steps[1..], t);
    }
  }

  // ---------------------------------------------------------------- which segment is asked for

  lemma OnlyAskTranscribes(c: Config, s: State, step: Step)
    requires Enabled(c, s, step) && Apply(c, s, step).phase.Transcribing? && !s.phase.Transcribing?
    ensures step.Ask?
  {
    hide IsListing;
    hide Assembled;
    hide AnyFailed;
    hide SumCost;
    hide Staging;
    hide VerdictOf;
    hide WindowsFit;
    hide Answers;
    hide EmbedLoop.After;
    hide EmbedLoop.Rows;
    match step
    case Start =>
    case Probed(_, _) =>
    case Normalized(_) =>
    case Ask(_) =>
    case Answered(_) =>
    case Stage(_) =>
    case Plan(_) =>
    case Embedded(_) =>
    case Commit =>
    case _ =>
  }

  /** The settled segments come first. */
  predicate SettledFirst(segs: seq<Seg>) {
    forall i, j :: 0 <= i < j < |segs| && !segs[j].status.Pending? ==> !segs[i].status.Pending?
  }

  /**
   The segment asked for is the first open one, and nothing is kept of it.  What comes after it is all open exactly
   when the settled segments come first.
   */
  lemma AsksForTheFirst(c: Config, s: State, step: Step)
    requires Inv(c, s) && Enabled(c, s, step) && Apply(c, s, step).phase.Transcribing? && !s.phase.Transcribing?
    ensures var i := Apply(c, s, step).phase.i;
            && i < |s.segs| && s.segs[i].status.Pending? && i !in s.seen
            && (forall k :: 0 <= k < i ==> !s.segs[k].status.Pending?)
            && ((forall k :: i <= k < |s.segs| ==> s.segs[k].status.Pending?) <==> SettledFirst(s.segs))
  {
    OnlyAskTranscribes(c, s, step);
    hide WindowsFit;
    hide Concluded;
    hide PhaseInv;
    hide TallyInv;
  }

  /** Once done a segment is never asked for again, in any run, retries and all. */
  lemma DoneNeverAsked(c: Config, s: State, steps: seq<Step>, t: State, k: nat)
    requires Inv(c, s) && Trace(c, s, steps, t) && k < |s.segs| && s.segs[k].status.Done?
    ensures t.phase.Transcribing? || t.phase.Storing? || t.phase.Stored? ==> t.phase.i != k
    ensures k < |t.segs| && t.segs[k] == s.segs[k] && k in t.seen && k in t.utts && k in s.utts
    ensures t.utts[k] == t.seen[k].utts == s.utts[k]
  {
    RunKeepsDone(c, s, steps, t);
    assert StaysAt(s, t, k);
    hide WindowsFit;
    hide Concluded;
    hide TallyInv;
    hide EmbedInv;
  }

  /** A failed segment before a done one: a retry would open it in front of that. */
  ghost predicate FailedBeforeDone(segs: seq<Seg>) {
    exists i, j :: 0 <= i < j < |segs| && segs[i].status.Failed? && segs[j].status.Done?
  }

  lemma ResetKeepsPrefixIff(segs: seq<Seg>)
    requires SettledFirst(segs)
    ensures SettledFirst(Reset(segs)) <==> !FailedBeforeDone(segs)
  {
    if FailedBeforeDone(segs) {
      var i, j :| 0 <= i < j < |segs| && segs[i].status.Failed? && segs[j].status.Done?;
      assert Reset(segs)[i].status.Pending? && !Reset(segs)[j].status.Pending?;
    }
  }

  lemma SettleOne(segs: seq<Seg>, i: nat, seg: Seg)
    requires SettledFirst(segs) && i == First(segs) < |segs|
    ensures SettledFirst(segs[i := seg])
  {
    assert forall k :: i < k < |segs| ==> segs[k].status.Pending?;
  }

  lemma StepKeepsPrefix(c: Config, s: State, step: Step)
    requires Inv(c, s) && Enabled(c, s, step) && !step.RetryFailed? && SettledFirst(s.segs)
    ensures SettledFirst(Apply(c, s, step).segs)
  {
    hide RowsInv;
    hide TallyInv;
    hide Concluded;
    hide EmbedInv;
    hide First;
    match step
    case Ask(_) =>
    case Answered(r) => SettleOne(s.segs, s.phase.i, DoAnswered(c, s, s.phase.i, r).segs[s.phase.i]);
    case Store =>
    case Check => SettleOne(s.segs, s.phase.i, DoCheck(s, s.phase.i, s.phase.t).segs[s.phase.i]);
    case _ => hide *; OtherTouchesNone(c, s, step);
  }

  /** All along the run the settled segments come first. */
  ghost predicate AlwaysPrefix(c: Config, s: State, steps: seq<Step>, t: State)
    requires Trace(c, s, steps, t)
    decreases |steps|
  {
    SettledFirst(s.segs) && (steps != [] ==> AlwaysPrefix(c, Apply(c, s, steps[0]), steps[1..], t))
  }

  /** No retry of the run resets a failed segment that has a done one after it. */
  ghost predicate RetriesTame(c: Config, s: State, steps: seq<Step>, t: State)
    requires Trace(c, s, steps, t)
    decreases |steps|
  {
    steps != [] ==>
      && (steps[0].RetryFailed? ==> !FailedBeforeDone(s.segs))
      && RetriesTame(c, Apply(c, s, steps[0]), steps[1..], t)
  }

  /** The settled segments form a prefix all along a run exactly when no retry in it opens one before a done one. */
  lemma {:induction false} AlwaysPrefixIff(c: Config, s: State, steps: seq<Step>, t: State)
    requires Inv(c, s) && Trace(c, s, steps, t) && SettledFirst(s.segs)
    ensures AlwaysPrefix(c, s, steps, t) <==> RetriesTame(c, s, steps, t)
    decreases |steps|
  {
    if steps != [] {
      var step, u := steps[0], Apply(c, s, steps[0]);
      StepKeepsInv(c, s, step);
      if step.RetryFailed? { ResetKeepsPrefixIff(s.segs); } else { StepKeepsPrefix(c, s, step); }
      assert step.RetryFailed? ==> u.segs == Reset(s.segs);
      hide Inv;
      hide Apply;
      hide Enabled;
      hide SettledFirst;
      if SettledFirst(u.segs) {
        AlwaysPrefixIff(c, u, steps[1..], t);
      } else {
        NoPrefixNow(c, u, steps[1..], t);
      }
    }
  }

  lemma NoPrefixNow(c: Config, s: State, steps: seq<Step>, t: State)
    requires Trace(c, s, steps, t) && !SettledFirst(s.segs)
    ensures !AlwaysPrefix(c, s, steps, t)
  {
    hide SettledFirst;
  }

  // ---------------------------------------------------------------- failures, cuts and cost

  /** Until failed segments are retried a run with one does not complete, whatever else happens to it. */
  lemma FailedNeedsRetry(c: Config, s: State, steps: seq<Step>, t: State, k: nat)
    requires Inv(c, s) && Trace(c, s, steps, t) && k < |s.segs| && s.segs[k].status.Failed? && RetryFailed !in steps
    ensures !t.complete && k < |t.segs| && t.segs[k] == s.segs[k]
  {
    RunKeepsSettled(c, s, steps, t);
    assert StaysAt(s, t, k);
    hide RowsInv;
    hide PhaseInv;
  }

  /** A result stored but not checkpointed when the attempt is cut does not count: its segment is asked for again. */
  lemma UncheckpointedIsLost(c: Config, s: State) returns (u: State)
    requires Inv(c, s) && s.phase.Stored? && s.attempt < c.max
    ensures Trace(c, s, [Cut, Start, Ask([])], u) && u.phase == Transcribing(s.phase.i)
    ensures u.utts[s.phase.i] == s.phase.t.utts && s.phase.i !in u.seen
  {
    hide WindowsFit;
    hide Concluded;
    var t := s.(attempt := s.attempt + 1, phase := Idle);
    var r := t.(phase := Asking);
    u := t.(phase := Transcribing(s.phase.i));
    assert Apply(c, s, Cut) == t && Apply(c, t, Start) == r && Apply(c, r, Ask([])) == u;
    TraceThree(c, s, Cut, Start, Ask([]), t, r, u);
  }

  lemma TraceThree(c: Config, s: State, p: Step, q: Step, r: Step, s1: State, s2: State, s3: State)
    requires Enabled(c, s, p) && s1 == Apply(c, s, p) && Enabled(c, s1, q) && s2 == Apply(c, s1, q)
    requires Enabled(c, s2, r) && s3 == Apply(c, s2, r)
    ensures Trace(c, s, [p, q, r], s3)
  {
    hide Apply;
    hide Enabled;
    assert Trace(c, s3, [], s3);
    assert [r][1..] == [];
    assert Trace(c, s2, [r], s3);
    assert [q, r][1..] == [r];
    assert Trace(c, s1, [q, r], s3);
    assert [p, q, r][1..] == [q, r];
  }

  /** Without a retry, a run that goes on to complete was never settled as partial. */
  lemma {:induction false} NeverCounted(c: Config, s: State, steps: seq<Step>, t: State)
    requires Inv(c, s) && Trace(c, s, steps, t) && RetryFailed !in steps && (s.counted == {} || AnyFailed(s.segs))
    ensures t.counted == {} || AnyFailed(t.segs)
    decreases |steps|
  {
    hide Inv;
    hide Apply;
    hide Enabled;
    if steps != [] {
      var u := Apply(c, s, steps[0]);
      StepKeepsInv(c, s, steps[0]);
      StepKeepsSettled(c, s, steps[0]);
      CountsPartial(c, s, steps[0]);
      if AnyFailed(s.segs) {
        var k: nat :| k < |s.segs| && s.segs[k].status.Failed?;
        assert StaysAt(s, u, k) && u.segs[k].status.Failed?;
      }
      NeverCounted(c, u, steps[1..], t);
    }
  }

  lemma CountsPartial(c: Config, s: State, step: Step)
    requires Enabled(c, s, step)
    ensures var t := Apply(c, s, step);
            t.counted == if step.Stage? && AnyFailed(s.segs) then Dones(s.segs) else s.counted
  {
    hide IsListing;
    hide Assembled;
    hide AnyFailed;
    hide SumCost;
    hide Staging;
    hide VerdictOf;
    hide WindowsFit;
    hide Answers;
    hide EmbedLoop.After;
    hide EmbedLoop.Rows;
    match step
    case Start =>
    case Probed(_, _) =>
    case Normalized(_) =>
    case Ask(_) =>
    case Answered(_) =>
    case Stage(_) =>
    case Plan(_) =>
    case Commit =>
    case _ =>
  }

  /**
   What a completed run records: the sum of its segments' costs when the query staged nothing to embed, and else the
   tally of its last partial settlement, which is nothing for a run never retried.  The sum itself is only in the
   copy of the row that the first call throws away.
   */
  lemma CompletedCost(c: Config, s: State, steps: seq<Step>, t: State)
    requires IsInit(c, s) && Trace(c, s, steps, t) && t.complete
    ensures exists texts :: StagedFrom(t.utts, texts) && t.cost == Recorded(t.segs, t.counted, texts)
    ensures t.cost == SumOver(t.segs, t.counted) || t.cost == SumCost(t.segs)
    ensures t.cost <= SumCost(t.segs) && t.counted <= Dones(t.segs)
    ensures RetryFailed !in steps ==> t.counted == {} && SumOver(t.segs, t.counted) == 0
  {
    hide StagedFrom;
    hide RowsInv;
    hide SumOver;
    hide SumCost;
    StartHolds(c, s);
    RunKeepsDone(c, s, steps, t);
    SumOverIff(t.segs, t.counted);
    if RetryFailed !in steps { NeverCounted(c, s, steps, t); }
  }
}
