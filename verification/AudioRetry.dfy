/** Retrying the failed segments of an audio run: that it can complete, and what its record then says. */
module AudioRetry {
  import opened Common
  import opened AudioBounds
  import opened AudioWindows
  import opened AudioRun
  import opened AudioReplay

  /** After a retry, about to ask for the first open segment. */
  function Resumed(s: State): State {
    s.(phase := Asking, attempt := 1, segs := Reset(s.segs))
  }

  lemma Resumes(c: Config, s: State)
    requires Inv(c, s) && Enabled(c, s, RetryFailed)
    ensures Trace(c, s, [RetryFailed, Start], Resumed(s))
    ensures Resumed(s).segs != [] && !AnyFailed(Resumed(s).segs)
  {
    hide WindowsFit;
    hide TallyInv;
    TraceTwo(c, s, RetryFailed, Start, s.(phase := Idle, attempt := 1, segs := Reset(s.segs)), Resumed(s));
  }

  lemma ResumedHeard(s: State, f: nat -> Heard)
    ensures var t := HeardAll(Resumed(s), f);
            && |t.segs| == |s.segs| && t.cost == s.cost && t.phase.Asking?
            && forall k: nat :: k < |s.segs| ==>
                 if s.segs[k].status.Done? then t.segs[k] == s.segs[k]
                 else t.segs[k] == s.segs[k].(status := Done, cost := f(k).cost) && k in t.seen && t.seen[k] == f(k)
  {
    var open := Opens(Reset(s.segs));
    assert forall k: nat :: k < |s.segs| ==> (k in open <==> !s.segs[k].status.Done?);
  }

  /**
   Any ended run with a failed segment can be retried and then complete, whatever each open segment is heard as:
   what was done stays, and the rest is done as heard.  What it then records is the sum if nothing was embedded, and
   else what its row said when it was retried.
   */
  lemma RetryCompletes(c: Config, s: State, f: nat -> Heard) returns (steps: seq<Step>, t: State, list: seq<Row>)
    requires Inv(c, s) && Enabled(c, s, RetryFailed)
    ensures AllSmooth(steps) && Trace(c, s, [RetryFailed] + steps, t) && t.phase == Ended(Complete) && t.complete
    ensures |t.segs| == |s.segs| && forall k: nat :: k < |s.segs| ==>
              if s.segs[k].status.Done? then t.segs[k] == s.segs[k]
              else t.segs[k].status.Done? && t.segs[k].cost == f(k).cost && k in t.seen && t.seen[k] == f(k)
    ensures IsListing(t.utts, list)
    ensures t.cost == if Staging(list) == {} then SumCost(t.segs) else s.cost
    ensures s.phase == Ended(Partial) ==> s.cost == SumCost(s.segs)
  {
    hide Apply;
    hide Enabled;
    hide RowsInv;
    hide Trace;
    hide TallyInv;
    hide IsListing;
    hide Staging;
    hide SumCost;
    hide Assembled;
    hide HeardAll;
    hide Resumed;
    hide AllSmooth;
    Resumes(c, s);
    ResumedHeard(s, f);
    assert Resumed(s).phase.Asking? by { ResumedAsks(s); }
    var a := HeardAll(Resumed(s), f);
    list := ListingExists(a.utts);
    var rest := HearAndFinish(c, Resumed(s), f, list, list);
    t := EndOf(a, list, list);
    TraceAppend(c, s, [RetryFailed, Start], Resumed(s), rest, t);
    steps := [Start] + rest;
    assert [RetryFailed, Start] + rest == [RetryFailed] + steps;
    StartIsSmooth();
    AllSmoothAppend([Start], rest);
  }

  lemma ResumedAsks(s: State)
    ensures Resumed(s).phase.Asking?
  {
  }

  lemma StartIsSmooth()
    ensures AllSmooth([Start])
  {
  }

  // ---------------------------------------------------------------- a run whose first segment fails

  /** The first segment failed, the others open. */
  function FirstFailed(w: seq<Window>, duration: int, probed: int): State
    requires w != []
  {
    var s := Asked(w, duration, probed);
    s.(segs := s.segs[0 := Seg(w[0], Failed, 0, 0)])
  }

  /** The run settled as partial with the first segment failed and the others heard. */
  function PartialEnd(w: seq<Window>, f: nat -> Heard, duration: int, probed: int): State
    requires w != []
  {
    var s := HeardAll(FirstFailed(w, duration, probed), f);
    s.(phase := Ended(Partial), cost := SumCost(s.segs), counted := Dones(s.segs))
  }

  lemma PartialEndIs(w: seq<Window>, f: nat -> Heard, duration: int, probed: int)
    requires w != []
    ensures var t := PartialEnd(w, f, duration, probed);
            && |t.segs| == |w| && t.segs[0] == Seg(w[0], Failed, 0, 0) && t.cost == SumCost(t.segs)
            && (forall k: nat :: 0 < k < |w| ==>
                t.segs[k] == Seg(w[k], Done, f(k).cost, 0) && k in t.seen && t.seen[k] == f(k))
            && t.phase == Ended(Partial) && !t.complete
  {
    hide SumCost;
    hide Dones;
  }

  lemma FirstFails(c: Config, w: seq<Window>, duration: int, probed: int)
    requires w != []
    ensures Trace(c, Asked(w, duration, probed), [Ask([]), Answered(Unusable)], FirstFailed(w, duration, probed))
  {
    var s := Asked(w, duration, probed);
    FirstIs(s.segs, 0);
    TraceTwo(c, s, Ask([]), Answered(Unusable), s.(phase := Transcribing(0)), FirstFailed(w, duration, probed));
  }

  lemma SettlesPartial(c: Config, s: State, list: seq<Row>)
    requires s.phase.Asking? && Opens(s.segs) == {} && AnyFailed(s.segs) && IsListing(s.utts, list)
    ensures Trace(c, s, [Ask([]), Stage(list), Report],
                  s.(phase := Ended(Partial), cost := SumCost(s.segs), counted := Dones(s.segs)))
  {
    forall k: nat | k < |s.segs| ensures !s.segs[k].status.Pending? { assert k !in Opens(s.segs); }
    FirstIs(s.segs, |s.segs|);
    hide IsListing;
    hide SumCost;
    hide Dones;
    hide First;
    hide Opens;
    assert s.segs != [];
    var t := s.(phase := Reporting(Partial), cost := SumCost(s.segs), counted := Dones(s.segs));
    TraceThree(c, s, Ask([]), Stage(list), Report, s.(phase := Finishing), t, t.(phase := Ended(Partial)));
  }

  lemma HeardLeavesNoneOpen(s: State, f: nat -> Heard)
    ensures Opens(HeardAll(s, f).segs) == {} && HeardAll(s, f).phase == s.phase
    ensures AnyFailed(s.segs) ==> AnyFailed(HeardAll(s, f).segs)
  {
    if AnyFailed(s.segs) {
      var k :| 0 <= k < |s.segs| && s.segs[k].status.Failed?;
      assert HeardAll(s, f).segs[k].status.Failed?;
    }
  }

  lemma FirstFailedFacts(w: seq<Window>, duration: int, probed: int)
    requires w != []
    ensures var s := FirstFailed(w, duration, probed); s.phase.Asking? && s.segs != [] && AnyFailed(s.segs)
  {
    assert FirstFailed(w, duration, probed).segs[0].status.Failed?;
  }

  /** Any recording can end up so, whatever its other segments are heard as. */
  lemma PartialRun(c: Config, s: State, w: seq<Window>, f: nat -> Heard, duration: int, probed: int)
    returns (steps: seq<Step>)
    requires IsInit(c, s) && Accepted(c, probed) && duration > 0 && WindowsFit(c, w, duration)
    ensures RetryFailed !in steps && w != [] && Trace(c, s, steps, PartialEnd(w, f, duration, probed))
  {
    assert w != [];
    hide *;
    var first := [Start, Probed(Usable(probed), true), Normalized(Usable(duration)), Ask(w)];
    var a, b := Asked(w, duration, probed), FirstFailed(w, duration, probed);
    SmoothStart(c, s, w, duration, probed);
    FirstFails(c, w, duration, probed);
    FirstFailedFacts(w, duration, probed);
    var middle := HearsRest(c, b, f);
    HeardLeavesNoneOpen(b, f);
    var h := HeardAll(b, f);
    var list := ListingExists(h.utts);
    SettlesPartial(c, h, list);
    var failing, last := [Ask([]), Answered(Unusable)], [Ask([]), Stage(list), Report];
    var t := h.(phase := Ended(Partial), cost := SumCost(h.segs), counted := Dones(h.segs));
    assert t == PartialEnd(w, f, duration, probed) by { PartialEndOf(w, f, duration, probed); }
    TraceAppend(c, s, first, a, failing, b);
    TraceAppend(c, s, first + failing, b, middle, h);
    TraceAppend(c, s, first + failing + middle, h, last, t);
    SmoothHasNoRetry(middle);
    steps := first + failing + middle + last;
  }

  lemma PartialEndOf(w: seq<Window>, f: nat -> Heard, duration: int, probed: int)
    requires w != []
    ensures var h := HeardAll(FirstFailed(w, duration, probed), f);
            PartialEnd(w, f, duration, probed)
            == h.(phase := Ended(Partial), cost := SumCost(h.segs), counted := Dones(h.segs))
  {
  }

  lemma SmoothHasNoRetry(steps: seq<Step>)
    requires AllSmooth(steps)
    ensures RetryFailed !in steps
  {
    assert !Smooth(RetryFailed);
  }

  /** A recording of two windows or more can lose the prefix: the first is open again, the others are done. */
  lemma PrefixBreaks(c: Config, s: State, w: seq<Window>, f: nat -> Heard, duration: int, probed: int)
    returns (steps: seq<Step>, t: State)
    requires IsInit(c, s) && Accepted(c, probed) && duration > 0 && WindowsFit(c, w, duration) && |w| >= 2
    ensures Trace(c, s, steps + [RetryFailed], t) && RetryFailed !in steps && |t.segs| == |w|
    ensures t.segs[0].status.Pending? && (forall k: nat :: 0 < k < |w| ==> t.segs[k].status.Done?)
    ensures !SettledFirst(t.segs)
  {
    hide Trace;
    hide HeardAll;
    hide PartialEnd;
    hide WindowsFit;
    hide SumCost;
    var u := PartialEnd(w, f, duration, probed);
    steps := PartialRun(c, s, w, f, duration, probed);
    PartialEndIs(w, f, duration, probed);
    assert u.segs[0].status.Failed?;
    t := u.(phase := Idle, attempt := 1, segs := Reset(u.segs));
    OneStep(c, u, RetryFailed, t);
    TraceAppend(c, s, steps, u, [RetryFailed], t);
    assert t.segs[1].status.Done?;
  }

  lemma OneStep(c: Config, s: State, step: Step, t: State)
    requires Enabled(c, s, step) && t == Apply(c, s, step)
    ensures Trace(c, s, [step], t)
  {
    hide Apply;
    hide Enabled;
    assert Trace(c, t, [], t) && [step][1..] == [];
  }

  lemma {:induction false} WithoutFirst(segs: seq<Seg>, others: seq<Seg>)
    requires |segs| == |others| > 0 && others[0].cost == 0
    requires forall k :: 0 < k < |segs| ==> others[k].cost == segs[k].cost
    ensures SumCost(segs) == SumCost(others) + segs[0].cost
    decreases |segs|
  {
    if |segs| == 1 {
      assert SumCost(segs[..0]) == 0 && SumCost(others[..0]) == 0;
    } else {
      WithoutFirst(segs[..|segs| - 1], others[..|others| - 1]);
    }
  }

  /** The retried run's rows are those of the results it heard. */
  lemma RetriedHeard(c: Config, s: State, steps: seq<Step>, t: State, w: seq<Window>, f: nat -> Heard)
    requires IsInit(c, s) && Trace(c, s, steps, t) && t.complete && |t.segs| == |w|
    requires forall k: nat :: k < |w| ==> k in t.seen && t.seen[k] == f(k)
    ensures t.utts == UttsOf(w, f)
  {
    StartHolds(c, s);
    RunKeepsDone(c, s, steps, t);
    hide Inv;
    CompleteHasAll(c, t);
    hide WindowsFit;
    forall k: nat | k < |w| ensures HeardBy(t)(k) == f(k) {}
  }

  /**
   So a retried run can complete with a cost that is neither nothing nor the sum: if the others are heard first and
   the first only on the retry, and any of it is embedded, the first is missing from the record.
   */
  lemma TallyIsRecorded(c: Config, s: State, w: seq<Window>, f: nat -> Heard, duration: int, probed: int)
    returns (steps: seq<Step>, t: State)
    requires IsInit(c, s) && Accepted(c, probed) && duration > 0 && WindowsFit(c, w, duration)
    requires forall list :: IsListing(UttsOf(w, f), list) ==> Staging(list) != {}
    ensures Trace(c, s, steps, t) && t.phase == Ended(Complete) && |t.segs| == |w| > 0
    ensures forall k: nat :: k < |w| ==> t.segs[k].status.Done? && t.segs[k].cost == f(k).cost
    ensures t.cost + f(0).cost == SumCost(t.segs)
  {
    hide Trace;
    hide Inv;
    hide IsListing;
    hide Staging;
    hide WindowsFit;
    hide HeardAll;
    hide PartialEnd;
    hide SumCost;
    hide AllSmooth;
    hide UttsOf;
    var first := PartialRun(c, s, w, f, duration, probed);
    var u := PartialEnd(w, f, duration, probed);
    PartialEndIs(w, f, duration, probed);
    StartHolds(c, s);
    RunKeepsDone(c, s, first, u);
    assert u.segs[0].status.Failed?;
    var rest, end, list := RetryCompletes(c, u, f);
    t := end;
    steps := first + ([RetryFailed] + rest);
    TraceAppend(c, s, first, u, [RetryFailed] + rest, t);
    RunKeepsDone(c, u, [RetryFailed] + rest, t);
    forall k: nat | k < |w| ensures k in t.seen && t.seen[k] == f(k) {
      if k > 0 { assert StaysAt(u, t, k); }
    }
    RetriedHeard(c, s, steps, t, w, f);
    WithoutFirst(t.segs, u.segs);
  }
}
