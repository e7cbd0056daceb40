/** That the handover can be done: which boots pass, what may interrupt them, and exactly when River can go. */
module Retirement {
  import opened Common
  import opened Text
  import opened Handover
  import Outbox

  // ---------------------------------------------------------------- who passes

  /** The setting holds something other than white space. */
  predicate Given(setting: string) {
    exists c :: c in setting && c !in SPACES
  }

  /** The pipeline check passes exactly with jobs disabled or all four settings given. */
  lemma PassesIff(c: Config)
    ensures Passes(c) <==>
            c.jobsDisabled || (Given(c.riverAddr) && Given(c.riverToken) && Given(c.rpcAddr) && Given(c.rpcToken))
  {
    GivenIsNotBlank(c.riverAddr);
    GivenIsNotBlank(c.riverToken);
    GivenIsNotBlank(c.rpcAddr);
    GivenIsNotBlank(c.rpcToken);
  }

  lemma GivenIsNotBlank(setting: string)
    ensures Given(setting) <==> !Blank(setting)
  {
    forall c | c in setting ensures IsSpace(c) <==> c in SPACES { SpacesAre(c); }
    hide IsSpace;
    if Given(setting) {
      var c :| c in setting && c !in SPACES;
      assert !IsSpace(c);
    }
    if !Blank(setting) {
      var c :| c in setting && !IsSpace(c);
      assert c !in SPACES;
    }
  }

  // ---------------------------------------------------------------- nothing is assumed of the surroundings

  /**
   In every state the handover can reach: a replica that is down may start, a boot may fail wherever it stands,
   old clients change the jobs at will unless a boot holds their table, and the application and the relays do
   whatever the outbox allows them, short of a boot's own transaction.
   */
  lemma AnythingMayHappen(s: State, r: Replica, config: Config, jobs: map<JobNo, RiverJob>, step: Outbox.Step,
                          kinds: set<string>)
    requires Inv(s, kinds)
    ensures Enabled(s, Start(r, config), kinds) <==> r !in s.boots
    ensures r in s.boots ==> Enabled(s, Fail(r), kinds)
    ensures s.river.Some? ==>
              (Enabled(s, River(jobs), kinds) <==> !(exists q :: q in s.boots && s.tableLock == Some(q)))
    ensures Outbox.Enabled(s.box, step) && (step.Write? || step.Commit? || step.Abort? ==>
              forall q :: q in s.boots && HasTx(s.boots[q].phase) ==> s.boots[q].phase.tx != step.tx) ==>
              Enabled(s, App(step), kinds)
  {
    if r in s.boots { MayFail(s, r, kinds); }
    if s.river.Some? { MayChangeJobs(s, jobs, kinds); }
    MayUseOutbox(s, step, kinds);
    hide Inv;
    hide Outbox.Enabled;
    hide IsListing;
    hide Foreign;
    hide Passes;
  }

  lemma MayFail(s: State, r: Replica, kinds: set<string>)
    requires Inv(s, kinds) && r in s.boots
    ensures Enabled(s, Fail(r), kinds)
  {
    assert BootInv(r, s.boots[r], s.tableLock, s.river, s.box, kinds);
    hide Inv;
    hide MovingInv;
    hide Outbox.Enabled;
  }

  lemma MayChangeJobs(s: State, jobs: map<JobNo, RiverJob>, kinds: set<string>)
    requires Inv(s, kinds) && s.river.Some?
    ensures Enabled(s, River(jobs), kinds) <==> !(exists q :: q in s.boots && s.tableLock == Some(q))
  {
    assert s.tableLock.Some? ==> s.tableLock.value in s.boots;
    hide Inv;
    hide Outbox.Enabled;
  }

  lemma MayUseOutbox(s: State, step: Outbox.Step, kinds: set<string>)
    ensures Outbox.Enabled(s.box, step) && (step.Write? || step.Commit? || step.Abort? ==>
              forall q :: q in s.boots && HasTx(s.boots[q].phase) ==> s.boots[q].phase.tx != step.tx) ==>
              Enabled(s, App(step), kinds)
  {
    hide Outbox.Enabled;
    hide HasTx;
  }

  /** A boot that fails before its commit leaves River and the queue as they were. */
  lemma FailLeavesNoTrace(s: State, r: Replica, kinds: set<string>)
    requires Inv(s, kinds) && r in s.boots
    ensures Enabled(s, Fail(r), kinds)
    ensures var t := Apply(s, Fail(r), kinds);
            && Inv(t, kinds) && t.river == s.river && Outbox.View(t.box) == Outbox.View(s.box)
            && t.box.rows == s.box.rows && r !in t.boots && t.tableLock != Some(r) && t.migrationLock != Some(r)
  {
    AnythingMayHappen(s, r, s.boots[r].config, map[], Outbox.Tick(0), kinds);
    StepKeepsInv(s, Fail(r), kinds);
    StepKeepsBox(s, Fail(r), kinds);
    assert Added(s, Fail(r), kinds) == map[];
    Outbox.PlusEmpty(Outbox.View(s.box));
    hide Outbox.Inv;
    hide Inv;
    hide Outbox.View;
  }

  /** The application's and the relays' steps act on the outbox as they would alone, old clients' on the jobs alone. */
  lemma OthersAct(s: State, step: Step, kinds: set<string>)
    requires Enabled(s, step, kinds) && (step.App? || step.River?)
    ensures step.App? ==> Apply(s, step, kinds) == s.(box := Outbox.Apply(s.box, step.step))
    ensures step.River? ==> Apply(s, step, kinds) == s.(river := Some(step.jobs))
  {
    hide Outbox.Enabled;
    hide Outbox.Apply;
  }

  /** The transaction is over and nothing of it is left to commit. */
  ghost predicate Over(box: Outbox.State, tx: Outbox.TxId) {
    tx !in box.open && forall id :: id in box.pending ==> box.pending[id].tx != tx
  }

  /** However a boot's transaction ends, by finding River gone, by the drop or by a failure, none of it stays open. */
  lemma NothingStaysOpen(s: State, r: Replica, kinds: set<string>)
    requires Inv(s, kinds) && r in s.boots && HasTx(s.boots[r].phase)
    ensures Enabled(s, Fail(r), kinds) && Over(Apply(s, Fail(r), kinds).box, s.boots[r].phase.tx)
    ensures Enabled(s, Look(r), kinds) && s.river.None? ==>
              var t := Apply(s, Look(r), kinds);
              && t.boots[r].phase.Up? && Over(t.box, s.boots[r].phase.tx) && t.migrationLock != Some(r)
              && t.box.rows == s.box.rows
    ensures Enabled(s, Finish(r), kinds) ==>
              var t := Apply(s, Finish(r), kinds);
              && t.boots[r].phase.Up? && Over(t.box, s.boots[r].phase.tx) && t.migrationLock != Some(r)
              && t.tableLock != Some(r)
  {
    assert BootInv(r, s.boots[r], s.tableLock, s.river, s.box, kinds);
    hide Inv;
    hide Outbox.Inv;
    hide BootInv;
  }

  // ---------------------------------------------------------------- one at a time

  /** A boot in its transaction holds the migration lock, unless its pool has one connection only. */
  ghost predicate LockHeld(s: State) {
    forall r :: r in s.boots && HasTx(s.boots[r].phase) && !s.boots[r].config.poolOfOne ==> s.migrationLock == Some(r)
  }

  lemma StepKeepsLock(s: State, step: Step, kinds: set<string>)
    requires LockHeld(s) && Enabled(s, step, kinds)
    ensures LockHeld(Apply(s, step, kinds))
  {
    hide Outbox.Enabled;
    hide Outbox.Apply;
  }

  lemma {:induction false} RunKeepsLock(s: State, steps: seq<Step>, kinds: set<string>, t: State)
    requires LockHeld(s) && Trace(s, steps, kinds, t)
    ensures LockHeld(t)
    decreases |steps|
  {
    hide LockHeld;
    hide Enabled;
    hide Apply;
    if steps != [] {
      StepKeepsLock(s, steps[0], kinds);
      RunKeepsLock(Apply(s, steps[0], kinds), steps[1..], kinds, t);
    }
  }

  /** In every run no two boots are in their transactions at once, but for those whose pool has one connection. */
  lemma OneMigrates(s: State, steps: seq<Step>, kinds: set<string>, t: State, q: Replica, r: Replica)
    requires IsInit(s) && Trace(s, steps, kinds, t)
    requires q in t.boots && HasTx(t.boots[q].phase) && !t.boots[q].config.poolOfOne
    requires r in t.boots && HasTx(t.boots[r].phase) && !t.boots[r].config.poolOfOne
    ensures q == r
  {
    hide Trace;
    RunKeepsLock(s, steps, kinds, t);
  }

  /** A checked boot waits for the migration lock and takes it; with one connection only it goes without. */
  lemma EntersAlone(s: State, r: Replica, tx: Outbox.TxId, kinds: set<string>)
    requires r in s.boots && s.boots[r].phase.Checked? && tx !in s.box.open
    ensures Enabled(s, Enter(r, tx), kinds) <==> s.boots[r].config.poolOfOne || s.migrationLock.None?
    ensures Enabled(s, Enter(r, tx), kinds) ==>
              var t := Apply(s, Enter(r, tx), kinds);
              && t.boots[r] == s.boots[r].(phase := Looking(tx)) && tx in t.box.open
              && t.migrationLock == (if s.boots[r].config.poolOfOne then s.migrationLock else Some(r))
              && t.tableLock == s.tableLock && t.river == s.river
  {
  }

  // ---------------------------------------------------------------- when River can go

  predicate Unfinished(job: RiverJob) {
    job.state in {Available, Running, Retryable, Scheduled, Waiting}
  }

  /** Every unfinished job of a kind ogen still enqueues has args that decode. */
  ghost predicate AllDecode(jobs: map<JobNo, RiverJob>, kinds: set<string>) {
    forall j :: j in jobs && Unfinished(jobs[j]) && jobs[j].kind in kinds ==> jobs[j].args.Some?
  }

  /** Old clients leave the jobs alone meanwhile. */
  predicate Quiet(steps: seq<Step>) {
    forall step :: step in steps ==> !step.River?
  }

  lemma FinishNeedsDecoding(s: State, r: Replica, kinds: set<string>)
    requires Inv(s, kinds) && Enabled(s, Finish(r), kinds)
    ensures AllDecode(s.river.value, kinds)
  {
    FinishMoves(s, r, kinds);
    hide Inv;
    forall j | j in s.river.value && Unfinished(s.river.value[j]) && s.river.value[j].kind in kinds
      ensures s.river.value[j].args.Some?
    {
      assert Moves(s.river.value[j], kinds);
    }
  }

  lemma {:induction false} DropNeedsDecoding(s: State, steps: seq<Step>, kinds: set<string>, t: State)
    requires Inv(s, kinds) && Trace(s, steps, kinds, t) && Quiet(steps) && s.river.Some? && t.river.None?
    ensures AllDecode(s.river.value, kinds)
    decreases |steps|
  {
    hide Inv;
    hide AllDecode;
    var u := Apply(s, steps[0], kinds);
    assert steps[0] in steps;
    if steps[0].Finish? {
      FinishNeedsDecoding(s, steps[0].r, kinds);
    } else {
      StepKeepsInv(s, steps[0], kinds);
      RiverStays(s, steps[0], kinds);
      DropNeedsDecoding(u, steps[1..], kinds, t);
    }
  }

  lemma RiverStays(s: State, step: Step, kinds: set<string>)
    requires Enabled(s, step, kinds) && !step.Finish? && !step.River?
    ensures Apply(s, step, kinds).river == s.river
  {
  }

  lemma TraceOf(s: State, step: Step, rest: seq<Step>, kinds: set<string>, t: State)
    requires Enabled(s, step, kinds) && Trace(Apply(s, step, kinds), rest, kinds, t)
    ensures Trace(s, [step] + rest, kinds, t)
  {
    hide Enabled;
    assert ([step] + rest)[1..] == rest;
  }

  lemma QuietMore(step: Step, rest: seq<Step>)
    requires Quiet(rest) && !step.River?
    ensures Quiet([step] + rest)
  {
  }

  /** An id nobody was given yet: one longer than any. */
  lemma {:induction false} Longest(used: set<Outbox.RowId>) returns (n: nat)
    ensures forall id :: id in used ==> |id| < n
    decreases |used|
  {
    if used == {} { return 0; }
    var id :| id in used;
    n := Longest(used - {id});
    n := if n <= |id| then |id| + 1 else n;
  }

  lemma FreshId(used: set<Outbox.RowId>) returns (id: Outbox.RowId)
    ensures id !in used
  {
    var n := Longest(used);
    id := seq(n, _ => 'x');
  }

  lemma {:induction false} FreshTx(open: set<Outbox.TxId>) returns (tx: Outbox.TxId)
    ensures forall x :: x in open ==> x < tx
    decreases |open|
  {
    if open == {} { return 0; }
    var x :| x in open;
    tx := FreshTx(open - {x});
    forall y | y in open && y != x ensures y < tx { assert y in open - {x}; }
    tx := if tx <= x then x + 1 else tx;
  }

  lemma {:induction false} Least(ids: set<JobNo>, x: JobNo) returns (m: JobNo)
    requires x in ids
    ensures m in ids && forall j :: j in ids ==> m <= j
    decreases |ids|
  {
    if y :| y in ids - {x} {
      var n := Least(ids - {x}, y);
      forall j | j in ids && j != x ensures n <= j { assert j in ids - {x}; }
      m := if n < x then n else x;
    } else {
      m := x;
      forall j | j in ids ensures j == x { assert j != x ==> j in ids - {x}; }
    }
  }

  lemma {:induction false} InOrder(ids: set<JobNo>) returns (list: seq<JobNo>)
    ensures (forall j, k :: 0 <= j < k < |list| ==> list[j] < list[k]) && forall id :: id in list <==> id in ids
    decreases |ids|
  {
    if x :| x in ids {
      var m := Least(ids, x);
      var rest := InOrder(ids - {m});
      list := [m] + rest;
      forall k | 0 <= k < |rest| ensures m < rest[k] { assert rest[k] in rest; }
      forall id | id in ids ensures id in list { assert id == m || id in ids - {m}; }
    } else {
      list := [];
    }
  }

  lemma Listing(jobs: map<JobNo, RiverJob>) returns (ids: seq<JobNo>)
    ensures IsListing(ids, jobs)
  {
    ids := InOrder(set id | id in jobs && Live(jobs[id]));
  }

  /** Boot r holds the table and has the listed jobs still to move, all of which it can. */
  ghost predicate Ready(s: State, r: Replica, kinds: set<string>) {
    && r in s.boots && s.boots[r].phase.Moving? && s.boots[r].phase.tx in s.box.open && s.river.Some?
    && forall k :: 0 <= k < |s.boots[r].phase.todo| ==>
         s.boots[r].phase.todo[k] in s.river.value
         && (s.river.value[s.boots[r].phase.todo[k]].kind in kinds ==>
               s.river.value[s.boots[r].phase.todo[k]].args.Some?)
  }

  lemma MoveOne(s: State, r: Replica, id: Outbox.RowId, kinds: set<string>)
    requires Ready(s, r, kinds) && s.boots[r].phase.todo != [] && id !in s.box.used
    ensures Enabled(s, Move(r, id), kinds)
    ensures var t := Apply(s, Move(r, id), kinds);
            Ready(t, r, kinds) && t.boots[r].phase.todo == s.boots[r].phase.todo[1..]
  {
    var t := Apply(s, Move(r, id), kinds);
    var todo := s.boots[r].phase.todo;
    assert t.boots[r].phase.todo == todo[1..];
    forall k | 0 <= k < |todo| - 1 ensures todo[1..][k] == todo[k + 1] {}
  }

  lemma {:induction false} FinishesFrom(s: State, r: Replica, kinds: set<string>)
    returns (steps: seq<Step>, t: State)
    requires Ready(s, r, kinds)
    ensures Trace(s, steps, kinds, t) && Quiet(steps) && t.river.None?
    decreases |s.boots[r].phase.todo|
  {
    if s.boots[r].phase.todo == [] {
      t := Apply(s, Finish(r), kinds);
      assert Trace(t, [], kinds, t);
      TraceOf(s, Finish(r), [], kinds, t);
      steps := [Finish(r)] + [];
    } else {
      var id := FreshId(s.box.used);
      MoveOne(s, r, id, kinds);
      hide Ready;
      var rest;
      rest, t := FinishesFrom(Apply(s, Move(r, id), kinds), r, kinds);
      TraceOf(s, Move(r, id), rest, kinds, t);
      QuietMore(Move(r, id), rest);
      steps := [Move(r, id)] + rest;
    }
  }

  /** A replica that passes the check and finds nothing locked can retire River all by itself. */
  lemma CanRetire(s: State, r: Replica, config: Config, kinds: set<string>) returns (steps: seq<Step>, t: State)
    requires s.river.Some? && AllDecode(s.river.value, kinds) && r !in s.boots
    requires Passes(config) && (config.poolOfOne || s.migrationLock.None?) && s.tableLock.None?
    ensures Trace(s, steps, kinds, t) && Quiet(steps) && t.river.None?
  {
    hide Passes;
    var tx := FreshTx(s.box.open.Keys);
    var ids := Listing(s.river.value);
    var s1 := Apply(s, Start(r, config), kinds);
    var s2 := Apply(s1, Check(r), kinds);
    var s3 := Apply(s2, Enter(r, tx), kinds);
    var s4 := Apply(s3, Look(r), kinds);
    var s5 := Apply(s4, LockTable(r, ids), kinds);
    assert Ready(s5, r, kinds) by {
      forall k | 0 <= k < |ids| ensures ids[k] in s.river.value
        && (s.river.value[ids[k]].kind in kinds ==> s.river.value[ids[k]].args.Some?)
      {
        assert ids[k] in ids;
      }
    }
    assert Enabled(s4, LockTable(r, ids), kinds) && Enabled(s3, Look(r), kinds) && Enabled(s2, Enter(r, tx), kinds);
    var rest;
    rest, t := FinishesFrom(s5, r, kinds);
    hide Enabled;
    hide Apply;
    TraceOf(s4, LockTable(r, ids), rest, kinds, t);
    TraceOf(s3, Look(r), [LockTable(r, ids)] + rest, kinds, t);
    TraceOf(s2, Enter(r, tx), [Look(r)] + ([LockTable(r, ids)] + rest), kinds, t);
    TraceOf(s1, Check(r), [Enter(r, tx)] + ([Look(r)] + ([LockTable(r, ids)] + rest)), kinds, t);
    TraceOf(s, Start(r, config), [Check(r)] + ([Enter(r, tx)] + ([Look(r)] + ([LockTable(r, ids)] + rest))), kinds, t);
    steps := [Start(r, config)] + ([Check(r)] + ([Enter(r, tx)] + ([Look(r)] + ([LockTable(r, ids)] + rest))));
  }

  ghost predicate Drops(s: State, steps: seq<Step>, kinds: set<string>, t: State) {
    Trace(s, steps, kinds, t) && Quiet(steps) && t.river.None?
  }

  /**
   With a replica down and nothing locked, and old clients quiet from then on, River can still be dropped exactly
   when every unfinished job of a moving kind decodes: one that does not keeps River for good.
   */
  lemma CanDropIff(s: State, r: Replica, config: Config, kinds: set<string>)
    requires Inv(s, kinds) && s.river.Some? && r !in s.boots && Passes(config)
    requires (config.poolOfOne || s.migrationLock.None?) && s.tableLock.None?
    ensures (exists steps, t :: Drops(s, steps, kinds, t)) <==> AllDecode(s.river.value, kinds)
  {
    hide Inv;
    hide AllDecode;
    hide Trace;
    hide Quiet;
    if AllDecode(s.river.value, kinds) {
      var steps, t := CanRetire(s, r, config, kinds);
      assert Drops(s, steps, kinds, t);
    }
    if steps, t :| Drops(s, steps, kinds, t) { DropNeedsDecoding(s, steps, kinds, t); }
  }
}
