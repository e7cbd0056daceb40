/** What ends an audio run early, and what fails a segment: never anything but an answer that says so. */
module AudioGates {
  import opened Common
  import opened AudioWindows
  import opened AudioRun
  import EmbedLoop

  /** A length the run takes: there is some, and no more than the configured maximum, if there is one. */
  predicate Fits(c: Config, d: int) {
    0 < d && (c.maxDuration == 0 || d <= c.maxDuration)
  }

  /** The step's answer rejects the recording: unusable audio, no length, too long, or more than the plan allows. */
  predicate Rejects(c: Config, step: Step) {
    match step
    case Probed(Usable(d), allowed) => !(Fits(c, d) && allowed)
    case Probed(reply, _) => reply.Unusable?
    case Normalized(reply) => reply.Unusable?
    case _ => false
  }

  predicate IsRejected(s: State) {
    s.phase == Reporting(Rejected) || s.phase == Ended(Rejected)
  }

  /** The run after n of its steps. */
  ghost predicate Reaches(c: Config, s: State, steps: seq<Step>, n: nat, u: State) {
    n < |steps| && Trace(c, s, steps[..n], u) && Enabled(c, u, steps[n])
  }

  lemma ReachesFirst(c: Config, s: State, steps: seq<Step>)
    requires steps != [] && Enabled(c, s, steps[0])
    ensures Reaches(c, s, steps, 0, s)
  {
    assert steps[..0] == [];
  }

  lemma ReachesLater(c: Config, s: State, steps: seq<Step>, n: nat, u: State)
    requires steps != [] && Enabled(c, s, steps[0]) && Reaches(c, Apply(c, s, steps[0]), steps[1..], n, u)
    ensures Reaches(c, s, steps, n + 1, u)
  {
    hide Enabled;
    hide Apply;
    assert steps[..n + 1][1..] == steps[1..][..n] && steps[..n + 1][0] == steps[0];
  }

  lemma Within(c: Config, s: State, steps: seq<Step>, n: nat, u: State)
    requires Reaches(c, s, steps, n, u)
    ensures n < |steps|
  {
  }

  /** A step rejects exactly when its answer does, and then nothing the run stored is touched. */
  lemma RejectsIff(c: Config, s: State, step: Step)
    requires Enabled(c, s, step) && !IsRejected(s)
    ensures var t := Apply(c, s, step);
            && (IsRejected(t) <==> Rejects(c, step))
            && (IsRejected(t) ==> t.segs == s.segs && t.utts == s.utts && t.transcript == s.transcript
                                  && t.cost == s.cost && t.complete == s.complete && t.attempt == s.attempt)
  {
    hide *;
    if step.Probed? || step.Normalized? { GateRejects(c, s, step); } else { OthersPass(c, s, step); }
  }

  lemma GateRejects(c: Config, s: State, step: Step)
    requires Enabled(c, s, step) && (step.Probed? || step.Normalized?)
    ensures var t := Apply(c, s, step);
            (IsRejected(t) <==> Rejects(c, step)) && (IsRejected(t) ==> t == s.(phase := t.phase))
  {
    hide WindowsFit;
    hide IsListing;
    hide Answers;
  }

  lemma OthersPass(c: Config, s: State, step: Step)
    requires Enabled(c, s, step) && !step.Probed? && !step.Normalized? && !IsRejected(s)
    ensures !IsRejected(Apply(c, s, step)) && !Rejects(c, step)
  {
    hide WindowsFit;
    hide IsListing;
    hide Answers;
    hide SumCost;
    hide First;
    hide Dones;
    hide Staging;
    hide AnyFailed;
    hide VerdictOf;
    hide Assembled;
    hide Reset;
  }

  /** A run is rejected only by an answer that rejects it, whatever else happened. */
  lemma {:induction false} RejectedHasCause(c: Config, s: State, steps: seq<Step>, t: State) returns (n: nat, u: State)
    requires Trace(c, s, steps, t) && !IsRejected(s) && IsRejected(t)
    ensures Reaches(c, s, steps, n, u) && Rejects(c, steps[n])
    decreases |steps|
  {
    hide Enabled;
    hide Apply;
    hide Rejects;
    hide IsRejected;
    hide Reaches;
    var next := Apply(c, s, steps[0]);
    RejectsIff(c, s, steps[0]);
    if IsRejected(next) {
      ReachesFirst(c, s, steps);
      return 0, s;
    }
    n, u := RejectedHasCause(c, next, steps[1..], t);
    ReachesLater(c, s, steps, n, u);
    assert n + 1 < |steps| && steps[1..][n] == steps[n + 1] by { Within(c, s, steps, n + 1, u); }
    n := n + 1;
  }

  /** Segment k is asked for and the answer fails it: unusable, or failing for now when it is the last attempt. */
  predicate Fails(c: Config, s: State, step: Step, k: nat) {
    s.phase == Transcribing(k) && step.Answered?
    && (step.heard.Unusable? || (step.heard.Transient? && s.attempt >= c.max))
  }

  predicate IsFailed(s: State, k: nat) {
    k < |s.segs| && s.segs[k].status.Failed?
  }

  /** A step fails a segment exactly so, one at a time. */
  lemma FailsIff(c: Config, s: State, step: Step, k: nat)
    requires Enabled(c, s, step) && !IsFailed(s, k)
    ensures IsFailed(Apply(c, s, step), k) <==> Fails(c, s, step, k)
  {
    hide WindowsFit;
    hide IsListing;
    hide Answers;
    hide SumCost;
    hide First;
    hide VerdictOf;
    hide DoProbed;
    hide DoNormalized;
    hide Dones;
    hide Staging;
    hide Assembled;
    if step.Probed? || step.Normalized? { GateKeepsSegs(c, s, step); }
  }

  lemma GateKeepsSegs(c: Config, s: State, step: Step)
    requires Enabled(c, s, step) && (step.Probed? || step.Normalized?)
    ensures Apply(c, s, step).segs == s.segs
  {
    hide WindowsFit;
    hide IsListing;
    hide Answers;
  }

  /** A segment ends up failed only by an answer to a request for it. */
  lemma {:induction false} FailedHasCause(c: Config, s: State, steps: seq<Step>, t: State, k: nat)
    returns (n: nat, u: State)
    requires Trace(c, s, steps, t) && !IsFailed(s, k) && IsFailed(t, k)
    ensures Reaches(c, s, steps, n, u) && Fails(c, u, steps[n], k)
    decreases |steps|
  {
    hide Enabled;
    hide Apply;
    hide Fails;
    hide IsFailed;
    hide Reaches;
    var next := Apply(c, s, steps[0]);
    FailsIff(c, s, steps[0], k);
    if IsFailed(next, k) {
      ReachesFirst(c, s, steps);
      return 0, s;
    }
    n, u := FailedHasCause(c, next, steps[1..], t, k);
    ReachesLater(c, s, steps, n, u);
    assert n + 1 < |steps| && steps[1..][n] == steps[n + 1] by { Within(c, s, steps, n + 1, u); }
    n := n + 1;
  }

  /** Step by step from probe to the first question: each passing answer leads on, with the length it gave. */
  lemma PassesOn(c: Config, s: State, step: Step)
    requires Enabled(c, s, step) && !Rejects(c, step)
    ensures var t := Apply(c, s, step);
            && (step.Probed? && step.probe.Usable? ==>
                t.phase.Normalizing? && t.duration == t.probed == step.probe.value)
            && (step.Normalized? && step.norm.Usable? ==>
                  t.phase.Asking? && t.normalized
                  && t.duration == if step.norm.value > 0 then step.norm.value else s.duration)
            && (step.Answered? && step.heard.Usable? ==> t.phase == Storing(s.phase.i, step.heard.value))
  {
    hide WindowsFit;
    hide IsListing;
    hide Answers;
  }

  /** The attempt ends early. */
  predicate Interrupts(step: Step) {
    match step
    case Cut => true
    case Probed(reply, _) => reply.Transient?
    case Normalized(reply) => reply.Transient?
    case _ => false
  }

  /** An interruption costs an attempt and nothing else; without another one left the job is discarded. */
  lemma InterruptCosts(c: Config, s: State, step: Step)
    requires Enabled(c, s, step) && Interrupts(step)
    ensures var t := Apply(c, s, step);
            && t == s.(attempt := t.attempt, phase := t.phase)
            && (s.attempt < c.max ==> t.attempt == s.attempt + 1 && t.phase.Idle?)
            && (s.attempt >= c.max ==> t.attempt == s.attempt && t.phase == Ended(Discarded))
  {
    hide WindowsFit;
    hide IsListing;
    hide Answers;
  }

  /**
   Storing the chunks: a run whose every text failed tries again while it has attempts and is reported unavailable on
   the last; any other goes on to the transcript.
   */
  lemma CommitOutcome(c: Config, s: State)
    requires Enabled(c, s, Commit) && EmbedLoop.Open(s.phase.stages) == {}
    ensures var t := Apply(c, s, Commit); var stages := s.phase.stages;
            var lost := stages != map[] && forall i :: i in stages ==> stages[i].Failed?;
            && t == s.(phase := t.phase, attempt := t.attempt)
            && (lost && s.attempt < c.max ==> t.phase.Idle? && t.attempt == s.attempt + 1)
            && (lost && s.attempt >= c.max ==> t.phase == Reporting(Unavailable) && t.attempt == s.attempt)
            && (!lost ==> t.phase == Saving(s.phase.held) && t.attempt == s.attempt)
  {
    var stages := s.phase.stages;
    EmbedLoop.VerdictMeans(stages, s.attempt >= c.max);
    assert EmbedLoop.Faileds(stages) == stages.Keys <==> forall i :: i in stages ==> stages[i].Failed?;
    hide EmbedLoop.Settled;
    hide EmbedLoop.Embeddeds;
    hide EmbedLoop.Faileds;
    hide EmbedLoop.Open;
    hide WindowsFit;
    hide IsListing;
    hide Answers;
  }

  /** Any answer may come to what was asked, a cut may come at any point, and a retry whenever something failed. */
  lemma AnythingMayHappen(c: Config, s: State, probe: Reply<int>, allowed: bool, norm: Reply<int>, heard: Reply<Heard>,
                          answer: Option<seq<EmbedLoop.Vector>>)
    ensures s.phase.Probing? ==> Enabled(c, s, Probed(probe, allowed))
    ensures s.phase.Normalizing? ==> Enabled(c, s, Normalized(norm))
    ensures Inv(c, s) && s.phase.Transcribing? ==> Enabled(c, s, Answered(heard))
    ensures s.phase.Embedding? && s.phase.p.batch != [] ==> Enabled(c, s, Embedded(answer))
    ensures !s.phase.Ended? ==> Enabled(c, s, Cut)
    ensures s.phase.Ended? && !s.complete && (exists k :: 0 <= k < |s.segs| && s.segs[k].status.Failed?) ==>
              Enabled(c, s, RetryFailed)
  {
    hide WindowsFit;
    hide IsListing;
    hide Answers;
    hide RowsInv;
    hide TallyInv;
    hide Concluded;
  }

  /** A fresh run starts on its first attempt with nothing stored, whatever the configured attempts, one at least. */
  lemma StartsFresh(c: Config, s: State)
    ensures IsInit(c, s) <==>
            && c.max >= 1 && s.attempt == 1 && s.phase.Idle? && s.duration == s.probed == 0 && !s.normalized
            && s.segs == [] && s.utts == map[] && s.seen == map[] && s.counted == {} && s.transcript.None?
            && s.cost == 0 && !s.complete
  {
  }
}
