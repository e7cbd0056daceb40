/**
 How long an audio run can take: every run is bounded, something can always happen next, and the last attempt
 settles.
 */
module AudioBounds {
  import opened Common
  import opened AudioWindows
  import opened AudioRun
  import EmbedLoop

  // ---------------------------------------------------------------- attempts and steps are bounded

  /** Steps left in this attempt, for a run of n segments and at most k texts to embed. */
  function Rank(s: State, n: nat, k: nat): int {
    var open := if s.segs == [] then n else |Opens(s.segs)|;
    match s.phase
    case Idle => 4 * n + 4 * k + 13
    case Probing => 4 * n + 4 * k + 12
    case Normalizing => 4 * n + 4 * k + 11
    case Asking => if s.segs == [] then 4 * n + 4 * k + 10 else 4 * open + 4 * k + 9
    case Transcribing(_) => 4 * open + 4 * k + 8
    case Storing(_, _) => 4 * open + 4 * k + 7
    case Stored(_, _) => 4 * open + 4 * k + 6
    case Finishing => 4 * k + 8
    case Embedding(p, _) => 2 * EmbedLoop.Left(p.stages, p.single) + if p.batch == [] then 5 else 4
    case Settling(_, _) => 4
    case Saving(_) => 3
    case Saved(_) => 2
    case Reporting(_) => 1
    case Ended(_) => 0
  }

  function Attempt(n: nat, k: nat): nat {
    4 * n + 4 * k + 14
  }

  /** The steps of a job that uses all its attempts. */
  function JobSteps(c: Config, n: nat, k: nat): nat {
    c.max * Attempt(n, k)
  }

  function Fuel(c: Config, s: State, n: nat, k: nat): int {
    (if s.phase.Ended? then 0 else (c.max - s.attempt) * Attempt(n, k)) + Rank(s, n, k)
  }

  lemma OpensBelow(segs: seq<Seg>)
    ensures |Opens(segs)| <= |segs|
  {
    BelowCount(Opens(segs), |segs|);
  }

  /** No answer of the utterance query stages more than k texts. */
  ghost predicate AtMost(utts: map<nat, seq<Utterance>>, k: nat) {
    forall list :: IsListing(utts, list) ==> |Staging(list)| <= k
  }

  /** Once every segment is done the utterances are final, and k texts are enough for them. */
  ghost predicate Room(s: State, n: nat, k: nat) {
    |s.segs| <= n && (Finished(s.segs) ==> AtMost(s.utts, k))
  }

  lemma Product(k: int, m: nat)
    requires k >= 1
    ensures k * m == (k - 1) * m + m && (k - 1) * m >= 0
  {
  }

  lemma RankIsPositive(s: State, n: nat, k: nat)
    requires |s.segs| <= n
    ensures Rank(s, n, k) >= 0 && (!s.phase.Ended? ==> Rank(s, n, k) > 0) && (s.phase.Ended? ==> Rank(s, n, k) == 0)
  {
  }

  lemma FuelIsNatural(c: Config, s: State, n: nat, k: nat)
    requires 1 <= s.attempt <= c.max && |s.segs| <= n
    ensures Fuel(c, s, n, k) >= 0
  {
    hide Rank;
    hide Attempt;
    hide First;
    RankIsPositive(s, n, k);
    Product(c.max - s.attempt + 1, Attempt(n, k));
  }

  lemma SettlingLowersRank(s: State, i: nat, seg: Seg, n: nat, k: nat)
    requires i < |s.segs| <= n && s.segs[i].status.Pending? && !seg.status.Pending?
    requires s.phase.Transcribing? || s.phase.Stored?
    ensures Rank(s.(segs := s.segs[i := seg], phase := Asking), n, k) < Rank(s, n, k)
  {
    assert i in Opens(s.segs) && Opens(s.segs[i := seg]) == Opens(s.segs) - {i};
  }

  lemma AnsweredLowersRank(c: Config, s: State, r: Reply<Heard>, n: nat, k: nat)
    requires Inv(c, s) && Enabled(c, s, Answered(r)) && |s.segs| <= n
    ensures var t := DoAnswered(c, s, s.phase.i, r); t.phase.Idle? || t.phase.Ended? || Rank(t, n, k) < Rank(s, n, k)
  {
    hide WindowsFit;
    hide Concluded;
    hide Opens;
    var i, seg := s.phase.i, s.segs[s.phase.i];
    assert seg.status.Pending?;
    hide Inv;
    SettlingLowersRank(s, i, seg.(status := Failed), n, k);
    SettlingLowersRank(s, i, seg.(status := Failed, retries := seg.retries + 1), n, k);
  }

  lemma CheckLowersRank(c: Config, s: State, n: nat, k: nat)
    requires Inv(c, s) && Enabled(c, s, Check) && |s.segs| <= n
    ensures Rank(DoCheck(s, s.phase.i, s.phase.t), n, k) < Rank(s, n, k)
  {
    hide WindowsFit;
    hide Concluded;
    hide Opens;
    assert s.segs[s.phase.i].status.Pending?;
    hide Inv;
    SettlingLowersRank(s, s.phase.i, s.segs[s.phase.i].(status := Done, cost := s.phase.t.cost), n, k);
  }

  lemma AskLowersRank(c: Config, s: State, w: seq<Window>, n: nat, k: nat)
    requires Inv(c, s) && Enabled(c, s, Ask(w)) && |DoAsk(s, w).segs| <= n
    ensures Rank(DoAsk(s, w), n, k) < Rank(s, n, k)
  {
    hide Concluded;
    hide TallyInv;
    if s.segs == [] { FreshKeepsRows(c, s, w); }
    hide RowsInv;
    hide WindowsFit;
    OpensBelow(DoAsk(s, w).segs);
    hide Opens;
  }

  lemma StageLowersRank(c: Config, s: State, list: seq<Row>, n: nat, k: nat)
    requires Inv(c, s) && Enabled(c, s, Stage(list)) && Room(s, n, k)
    ensures var t := DoStage(s, list); t.phase.Ended? || Rank(t, n, k) < Rank(s, n, k)
  {
    hide RowsInv;
    hide WindowsFit;
    hide Concluded;
    hide IsListing;
    hide Staging;
    hide SumCost;
    assert !AnyFailed(s.segs) ==> Finished(s.segs);
    hide TallyInv;
    hide Opens;
    assert EmbedLoop.Open(EmbedLoop.Begin(Staging(list))) == Staging(list);
  }

  lemma EmbedLowersRank(c: Config, s: State, step: Step, n: nat, k: nat)
    requires Inv(c, s) && Enabled(c, s, step) && (step.Plan? || step.Embedded?)
    ensures Rank(Apply(c, s, step), n, k) < Rank(s, n, k)
  {
    hide TallyInv;
    hide Opens;
    hide RowsInv;
    hide Concluded;
    hide StagedFrom;
    hide SumCost;
    if step.Embedded? {
      EmbedLoop.AfterIsSound(s.phase.p, step.answer);
      EmbedLoop.AfterUsesUp(s.phase.p, step.answer);
    }
    hide EmbedLoop.Sound;
    hide EmbedLoop.After;
    hide EmbedLoop.FirstOpen;
  }

  lemma OtherLowersRank(c: Config, s: State, step: Step, n: nat, k: nat)
    requires Enabled(c, s, step) && |s.segs| <= n
    requires step.Start? || step.Probed? || step.Normalized? || step.Store? || step.Commit? || step.Save? || step.Close?
             || step.Report?
    ensures var t := Apply(c, s, step); t.phase.Idle? || t.phase.Ended? || Rank(t, n, k) < Rank(s, n, k)
  {
    OpensBelow(s.segs);
    hide Opens;
    hide First;
    hide IsListing;
    hide Assembled;
    hide VerdictOf;
    hide WindowsFit;
    hide Answers;
    hide EmbedLoop.Left;
    hide Spoken;
    match step
    case Start =>
    case Probed(_, _) =>
    case Normalized(_) =>
    case Store =>
    case Commit =>
    case Save(_) =>
    case _ =>
  }

  /** A step inside an attempt uses up at least one of its steps. */
  lemma StepLowersRank(c: Config, s: State, step: Step, n: nat, k: nat)
    requires Inv(c, s) && Enabled(c, s, step) && !step.RetryFailed? && !step.Cut?
    requires |Apply(c, s, step).segs| <= n && Room(s, n, k)
    ensures var t := Apply(c, s, step); t.phase.Idle? || t.phase.Ended? || Rank(t, n, k) < Rank(s, n, k)
  {
    assert |s.segs| <= n;
    assert step.Answered? || step.Check? ==> s.phase.i < |s.segs|;
    hide Inv;
    hide Room;
    hide Rank;
    hide Enabled;
    hide DoAsk;
    hide DoAnswered;
    hide DoCheck;
    hide DoStage;
    match step
    case Ask(w) => AskLowersRank(c, s, w, n, k);
    case Answered(r) => AnsweredLowersRank(c, s, r, n, k);
    case Check => CheckLowersRank(c, s, n, k);
    case Stage(list) => StageLowersRank(c, s, list, n, k);
    case Plan(_) => hide Apply; EmbedLowersRank(c, s, step, n, k);
    case Embedded(_) => hide Apply; EmbedLowersRank(c, s, step, n, k);
    case _ => hide Apply; OtherLowersRank(c, s, step, n, k);
  }

  /** Where an attempt can end: its step asked for a retry, and then the attempt number moved or was the last. */
  lemma IdleIsRetry(c: Config, s: State, step: Step)
    requires Inv(c, s) && Enabled(c, s, step) && !step.RetryFailed?
    ensures var t := Apply(c, s, step);
            && (t.phase.Idle? ==> t.attempt == s.attempt + 1 <= c.max)
            && (!t.phase.Idle? ==> t.attempt == s.attempt)
            && !s.phase.Ended?
  {
    hide IsListing;
    hide WindowsFit;
    hide Concluded;
    hide Assembled;
    hide SumCost;
    hide RowsInv;
    hide EmbedInv;
    hide StagedFrom;
    hide Priced;
    hide VerdictOf;
    hide EmbedLoop.After;
    match step
    case Start =>
    case Probed(_, _) =>
    case Normalized(_) =>
    case Ask(_) =>
    case Answered(_) =>
    case Commit =>
    case _ =>
  }

  lemma FuelSame(c: Config, s: State, t: State, n: nat, k: nat)
    requires t.attempt == s.attempt <= c.max && Rank(s, n, k) > 0 && !s.phase.Ended?
    requires 0 <= Rank(t, n, k) < Rank(s, n, k)
    ensures 0 <= Fuel(c, t, n, k) < Fuel(c, s, n, k)
  {
    hide Rank;
    hide Attempt;
    if s.attempt < c.max { Product(c.max - s.attempt, Attempt(n, k)); }
  }

  lemma FuelNext(c: Config, s: State, t: State, n: nat, k: nat)
    requires t.attempt == s.attempt + 1 <= c.max && t.phase.Idle? && Rank(s, n, k) > 0 && !s.phase.Ended?
    ensures 0 <= Fuel(c, t, n, k) < Fuel(c, s, n, k)
  {
    var m := Attempt(n, k);
    assert Rank(t, n, k) == m - 1;
    hide Attempt;
    Product(c.max - s.attempt, m);
    if t.attempt < c.max { Product(c.max - t.attempt, m); }
  }

  lemma StepUsesFuel(c: Config, s: State, step: Step, n: nat, k: nat)
    requires Inv(c, s) && Enabled(c, s, step) && !step.RetryFailed? && |Apply(c, s, step).segs| <= n && Room(s, n, k)
    ensures 0 <= Fuel(c, Apply(c, s, step), n, k) < Fuel(c, s, n, k)
  {
    var t := Apply(c, s, step);
    assert s.attempt <= c.max;
    assert step.Cut? ==> t.phase.Idle? || t.phase.Ended?;
    assert |s.segs| <= n;
    hide Inv;
    hide Apply;
    hide Enabled;
    hide Fuel;
    hide Rank;
    hide Room;
    IdleIsRetry(c, s, step);
    if !step.Cut? { StepLowersRank(c, s, step, n, k); }
    RankIsPositive(s, n, k);
    RankIsPositive(t, n, k);
    if t.phase.Idle? { FuelNext(c, s, t, n, k); } else { FuelSame(c, s, t, n, k); }
  }

  /** Once all is done nothing in the rows moves any more, so what suffices later suffices now. */
  lemma RoomBefore(c: Config, s: State, t: State, n: nat, k: nat)
    requires Inv(c, s) && Inv(c, t) && DoneStay(s, t) && |s.segs| <= |t.segs| && Room(t, n, k)
    ensures Room(s, n, k)
  {
    hide WindowsFit;
    hide PhaseInv;
    hide Concluded;
    hide AtMost;
    hide TallyInv;
    if Finished(s.segs) {
      assert forall i: nat :: i < |s.segs| ==> StaysAt(s, t, i);
      assert forall i: nat :: i < |s.segs| ==> t.segs[i] == s.segs[i];
      assert t.utts == s.utts;
    }
  }

  lemma StepsGrowSegs(c: Config, s: State, steps: seq<Step>, t: State)
    requires Inv(c, s) && Trace(c, s, steps, t)
    ensures |s.segs| <= |t.segs|
  {
    RunKeepsDone(c, s, steps, t);
  }

  /** How often failed segments were retried. */
  function Retries(steps: seq<Step>): nat {
    if steps == [] then 0 else (if steps[0].RetryFailed? then 1 else 0) + Retries(steps[1..])
  }

  lemma {:induction false} NoRetries(steps: seq<Step>)
    ensures Retries(steps) == 0 <==> RetryFailed !in steps
    decreases |steps|
  {
    if steps != [] {
      assert steps == [steps[0]] + steps[1..];
      NoRetries(steps[1..]);
    }
  }

  /** A retry grants the attempts of one more job. */
  lemma RetryAddsFuel(c: Config, s: State, n: nat, k: nat)
    requires Inv(c, s) && Enabled(c, s, RetryFailed)
    ensures Fuel(c, s, n, k) == 0 && Fuel(c, Apply(c, s, RetryFailed), n, k) + 1 == JobSteps(c, n, k)
  {
    var u := Apply(c, s, RetryFailed);
    assert Rank(u, n, k) == Attempt(n, k) - 1 && u.attempt == 1 && c.max >= 1;
    hide Inv;
    hide Attempt;
    Product(c.max, Attempt(n, k));
  }

  lemma Distribute(r: nat, m: nat)
    ensures (1 + r) * m == m + r * m
  {
  }

  lemma {:induction false} RunUsesFuel(c: Config, s: State, steps: seq<Step>, t: State, n: nat, k: nat)
    requires Inv(c, s) && Trace(c, s, steps, t) && Room(t, n, k)
    ensures Fuel(c, t, n, k) >= 0
    ensures |steps| + Fuel(c, t, n, k) <= Fuel(c, s, n, k) + Retries(steps) * JobSteps(c, n, k)
    decreases |steps|
  {
    hide Apply;
    hide Enabled;
    hide Fuel;
    hide JobSteps;
    hide PhaseInv;
    hide RowsInv;
    hide Concluded;
    hide AtMost;
    StepsGrowSegs(c, s, steps, t);
    if steps == [] {
      FuelIsNatural(c, s, n, k);
    } else {
      var u, m := Apply(c, s, steps[0]), JobSteps(c, n, k);
      RunKeepsDone(c, s, steps, t);
      RoomBefore(c, s, t, n, k);
      StepKeepsInv(c, s, steps[0]);
      hide Inv;
      StepsGrowSegs(c, u, steps[1..], t);
      RunUsesFuel(c, u, steps[1..], t, n, k);
      if steps[0].RetryFailed? {
        RetryAddsFuel(c, s, n, k);
        Distribute(Retries(steps[1..]), m);
      } else {
        StepUsesFuel(c, s, steps[0], n, k);
      }
    }
  }

  /**
   A job makes finitely many steps, whatever fails: for n segments and at most k chunks to embed, four for each
   of either and fourteen an attempt; and each retry of failed segments is one job more.
   */
  lemma RunIsBounded(c: Config, s: State, steps: seq<Step>, t: State, k: nat)
    requires IsInit(c, s) && Trace(c, s, steps, t) && AtMost(t.utts, k)
    ensures |steps| <= (1 + Retries(steps)) * JobSteps(c, |t.segs|, k) && t.attempt <= c.max
  {
    StartHolds(c, s);
    RunKeepsDone(c, s, steps, t);
    assert t.attempt <= c.max;
    hide *;
    RunFitsJobs(c, s, steps, t, k);
    Distribute(Retries(steps), JobSteps(c, |t.segs|, k));
  }

  lemma RunFitsJobs(c: Config, s: State, steps: seq<Step>, t: State, k: nat)
    requires IsInit(c, s) && Inv(c, s) && Inv(c, t) && Trace(c, s, steps, t) && AtMost(t.utts, k)
    ensures var m := JobSteps(c, |t.segs|, k); |steps| <= m + Retries(steps) * m
  {
    hide Inv;
    hide AtMost;
    hide Attempt;
    hide IsInit;
    hide Trace;
    RunUsesFuel(c, s, steps, t, |t.segs|, k);
    FirstFuel(c, s, |t.segs|, k);
    hide Fuel;
    hide Retries;
  }

  lemma FirstFuel(c: Config, s: State, n: nat, k: nat)
    requires IsInit(c, s)
    ensures Fuel(c, s, n, k) <= JobSteps(c, n, k)
  {
    assert Rank(s, n, k) <= Attempt(n, k);
    hide Attempt;
    Product(c.max, Attempt(n, k));
  }

  /**
   On the last attempt a step gives up with a retry nobody answers exactly when it is cut, or when the probe
   or the normalize fails for now; a transcription or an embedding that fails for now is settled.
   */
  lemma LastAttemptDiscardsIff(c: Config, s: State, step: Step)
    requires Inv(c, s) && Enabled(c, s, step) && !step.RetryFailed? && s.attempt == c.max
    ensures Apply(c, s, step).phase == Ended(Discarded) <==> step.Cut? || FailsForNow(step)
  {
    hide IsListing;
    hide WindowsFit;
    hide Concluded;
    hide Assembled;
    hide SumCost;
    hide RowsInv;
    hide EmbedInv;
    hide StagedFrom;
    hide Priced;
    hide EmbedLoop.After;
    match step
    case Start =>
    case Probed(_, _) =>
    case Normalized(_) =>
    case Ask(_) =>
    case Answered(_) =>
    case Commit =>
    case _ =>
  }

  /** A probe or a normalize that fails for now. */
  predicate FailsForNow(step: Step) {
    (step.Probed? && step.probe.Transient?) || (step.Normalized? && step.norm.Transient?)
  }

  // ---------------------------------------------------------------- the utterance query always has an answer

  ghost function Table(utts: map<nat, seq<Utterance>>): set<Row> {
    set k: nat, j: nat | k in utts && j < |utts[k]| :: Row(k, j, utts[k][j])
  }

  lemma TableIs(utts: map<nat, seq<Utterance>>, r: Row)
    ensures r in Table(utts) <==> InTable(utts, r)
  {
  }

  ghost predicate Sorted(list: seq<Row>) {
    forall i, j :: 0 <= i < j < |list| ==> list[i] != list[j] && RowBefore(list[i], list[j])
  }

  lemma {:induction false} Insert(list: seq<Row>, r: Row) returns (longer: seq<Row>)
    requires Sorted(list) && r !in list
    ensures Sorted(longer) && forall q :: q in longer <==> q in list || q == r
    decreases |list|
  {
    if list == [] || RowBefore(r, list[0]) {
      longer := [r] + list;
    } else {
      var rest := Insert(list[1..], r);
      longer := [list[0]] + rest;
      assert list == [list[0]] + list[1..];
      forall j | 0 <= j < |rest| ensures rest[j] != list[0] && RowBefore(list[0], rest[j]) { assert rest[j] in rest; }
    }
  }

  lemma {:induction false} SortRows(rows: set<Row>) returns (list: seq<Row>)
    ensures Sorted(list) && |list| == |rows| && forall r :: r in list <==> r in rows
    decreases |rows|
  {
    if rows == {} { return []; }
    var r :| r in rows;
    var rest := SortRows(rows - {r});
    list := Insert(rest, r);
    SortedCount(list, rows);
  }

  lemma {:induction false} SortedCount(list: seq<Row>, rows: set<Row>)
    requires Sorted(list) && forall r :: r in list <==> r in rows
    ensures |list| == |rows|
    decreases |list|
  {
    hide RowBefore;
    if list == [] {
      assert rows == {};
    } else {
      assert list == [list[0]] + list[1..];
      SortedCount(list[1..], rows - {list[0]});
    }
  }

  lemma ListingExists(utts: map<nat, seq<Utterance>>) returns (list: seq<Row>)
    ensures IsListing(utts, list)
  {
    list := SortRows(Table(utts));
    forall r ensures r in list <==> InTable(utts, r) { TableIs(utts, r); }
  }

  /** As many texts as there are utterances are always enough for the bound above. */
  lemma RowsSuffice(utts: map<nat, seq<Utterance>>)
    ensures AtMost(utts, |Table(utts)|)
  {
    hide Table;
    hide InTable;
    forall list | IsListing(utts, list) ensures |Staging(list)| <= |Table(utts)| {
      forall r ensures r in list <==> r in Table(utts) { TableIs(utts, r); }
      SortedCount(list, Table(utts));
      WordingCount(Spoken(list));
    }
  }

  // ---------------------------------------------------------------- the last attempt settles

  /** The step a phase waits for, given an answer to whichever query it makes. */
  function Due(s: State, w: seq<Window>, list: seq<Row>, pending: seq<EmbedLoop.Index>): Step {
    match s.phase
    case Idle => Start
    case Probing => Probed(Unusable, true)
    case Normalizing => Normalized(Unusable)
    case Asking => Ask(w)
    case Transcribing(_) => Answered(Unusable)
    case Storing(_, _) => Store
    case Stored(_, _) => Check
    case Finishing => Stage(list)
    case Embedding(p, _) => if p.batch == [] then Plan(pending) else Embedded(None)
    case Settling(_, _) => Commit
    case Saving(_) => Save(list)
    case Saved(_) => Close
    case Reporting(_) => Report
    case Ended(_) => RetryFailed
  }

  lemma DueIsEnabled(c: Config, s: State, w: seq<Window>, list: seq<Row>, pending: seq<EmbedLoop.Index>)
    requires !s.phase.Ended? && (s.phase.Transcribing? || s.phase.Stored? ==> s.phase.i < |s.segs|)
    requires (s.phase.Asking? ==> WindowsFit(c, w, s.duration)) && IsListing(s.utts, list)
    requires s.phase.Embedding? ==> Answers(s.phase.p, pending)
    ensures Enabled(c, s, Due(s, w, list, pending)) && !Interrupts(Due(s, w, list, pending))
  {
    hide IsListing;
    hide WindowsFit;
    hide Answers;
  }

  lemma PhaseFacts(c: Config, s: State)
    requires Inv(c, s)
    ensures s.phase.Asking? ==> s.duration > 0
    ensures s.phase.Transcribing? || s.phase.Stored? ==> s.phase.i < |s.segs|
  {
    hide Concluded;
    hide WindowsFit;
    hide First;
    hide EmbedInv;
  }

  /** Whatever the state, something other than a cut or a fault can happen next. */
  lemma CanMove(c: Config, s: State) returns (step: Step)
    requires Inv(c, s) && !s.phase.Ended?
    ensures Enabled(c, s, step) && !Interrupts(step)
  {
    hide Inv;
    hide IsListing;
    hide EmbedLoop.FirstOpen;
    hide Covers;
    hide Enabled;
    hide Interrupts;
    hide Due;
    hide Longest;
    hide Overlap;
    PhaseFacts(c, s);
    var w, pending := [], [];
    if s.phase.Asking? { w := WindowsExist(s.duration, Longest(c.maxMs), Overlap(c.maxMs, c.overlapMs)); }
    if s.phase.Embedding? { pending := EmbedLoop.FirstOpenExists(s.phase.p.stages, EmbedLoop.BATCH); }
    var list := ListingExists(s.utts);
    DueIsEnabled(c, s, w, list, pending);
    step := Due(s, w, list, pending);
  }

  /** A cut, a retry asked for from outside, or a sidecar fault the step cannot settle. */
  predicate Interrupts(step: Step) {
    step.Cut? || step.RetryFailed? || FailsForNow(step)
  }

  predicate Uninterrupted(steps: seq<Step>) {
    forall step :: step in steps ==> !Interrupts(step)
  }

  /** Nothing but an interruption could happen next. */
  ghost predicate Stopped(c: Config, t: State) {
    forall step :: Enabled(c, t, step) ==> Interrupts(step)
  }

  lemma StoppedIffEnded(c: Config, t: State)
    requires Inv(c, t)
    ensures Stopped(c, t) <==> t.phase.Ended?
  {
    if !t.phase.Ended? { hide *; var step := CanMove(c, t); NotStopped(c, t, step); }
  }

  lemma NotStopped(c: Config, t: State, step: Step)
    requires Enabled(c, t, step) && !Interrupts(step)
    ensures !Stopped(c, t)
  {
    hide Enabled;
    hide Interrupts;
  }

  lemma {:induction false} LastAttemptStays(c: Config, s: State, steps: seq<Step>, t: State)
    requires Inv(c, s) && s.attempt == c.max && s.phase != Ended(Discarded)
    requires Trace(c, s, steps, t) && Uninterrupted(steps)
    ensures Inv(c, t) && t.attempt == c.max && t.phase != Ended(Discarded)
    decreases |steps|
  {
    hide Inv;
    hide Apply;
    hide Enabled;
    if steps != [] {
      assert steps[0] in steps && !Interrupts(steps[0]);
      var u := Apply(c, s, steps[0]);
      StepKeepsInv(c, s, steps[0]);
      IdleIsRetry(c, s, steps[0]);
      LastAttemptDiscardsIff(c, s, steps[0]);
      forall step | step in steps[1..] ensures !Interrupts(step) { assert step in steps; }
      LastAttemptStays(c, u, steps[1..], t);
    }
  }

  /**
   Every run of the last attempt that nothing interrupts and that goes as far as it can ends with the job settled,
   within the steps of one attempt.
   */
  lemma LastAttemptSettles(c: Config, s: State, steps: seq<Step>, t: State, k: nat)
    requires Inv(c, s) && s.attempt == c.max && s.phase != Ended(Discarded) && AtMost(t.utts, k)
    requires Trace(c, s, steps, t) && Uninterrupted(steps)
    ensures Stopped(c, t) <==> t.phase.Ended?
    ensures t.phase.Ended? ==> t.phase.outcome != Discarded
    ensures |steps| <= 4 * |t.segs| + 4 * k + 13
  {
    hide Inv;
    hide Apply;
    hide Enabled;
    hide AtMost;
    LastAttemptStays(c, s, steps, t);
    StoppedIffEnded(c, t);
    hide Stopped;
    assert RetryFailed !in steps;
    NoRetries(steps);
    RunUsesFuel(c, s, steps, t, |t.segs|, k);
    StepsGrowSegs(c, s, steps, t);
    RunKeepsDone(c, s, steps, t);
    RoomBefore(c, s, t, |t.segs|, k);
    FuelOfOne(c, s, |t.segs|, k);
  }

  lemma EmbedFuel(c: Config, s: State, n: nat, k: nat)
    requires Inv(c, s) && s.phase.Embedding? && Room(s, n, k)
    ensures |EmbedLoop.Open(s.phase.p.stages)| <= k
  {
    hide RowsInv;
    hide Concluded;
    hide IsListing;
    hide Staging;
    hide SumCost;
    var stages := s.phase.p.stages;
    var list :| IsListing(s.utts, list) && stages.Keys == Staging(list);
    Within(EmbedLoop.Open(stages), stages.Keys);
  }

  lemma Within<T>(a: set<T>, b: set<T>)
    requires a <= b
    ensures |a| <= |b|
  {
    assert b == a + (b - a);
  }

  lemma FuelOfOne(c: Config, s: State, n: nat, k: nat)
    requires Inv(c, s) && s.attempt == c.max && Room(s, n, k)
    ensures Fuel(c, s, n, k) <= 4 * n + 4 * k + 13
  {
    if s.phase.Embedding? { EmbedFuel(c, s, n, k); }
    assert |s.segs| <= n;
    OpensBelow(s.segs);
    hide Inv;
    hide Room;
    hide Opens;
    hide EmbedLoop.Open;
    assert (c.max - s.attempt) * Attempt(n, k) == 0;
    hide Attempt;
  }
}
