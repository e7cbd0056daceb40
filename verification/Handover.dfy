/**
 The boot handover from the old in-process River tables to the job outbox, on top of the Outbox machine.

 Any number of replicas boot, crash and boot again; old River clients go on changing river_job until its
 table is locked; the application and the relays use the outbox all the while.
 */
module Handover {
  import opened Common
  import opened Text
  import Outbox

  type Replica = nat
  type JobNo = int

  // ---------------------------------------------------------------- the pipeline check

  datatype Config = Config(riverAddr: string, riverToken: string, rpcAddr: string, rpcToken: string,
                           jobsDisabled: bool, poolOfOne: bool)

  /** All four settings the pipeline needs are there. */
  predicate Configured(c: Config) {
    !Blank(c.riverAddr) && !Blank(c.riverToken) && !Blank(c.rpcAddr) && !Blank(c.rpcToken)
  }

  predicate Passes(c: Config) {
    c.jobsDisabled || Configured(c)
  }

  function Settings(c: Config): seq<(string, string)> {
    [("RIVER_SERVICE_ADDR", c.riverAddr), ("RIVER_SERVICE_AUTH_TOKEN", c.riverToken),
     ("JOB_RPC_ADDR", c.rpcAddr), ("RIVER_RPC_AUTH_TOKEN", c.rpcToken)]
  }

  method RequireJobPipeline(c: Config) returns (r: Result<(), seq<string>>)
    ensures r.Ok? <==> Passes(c)
    ensures r.Err? ==>
              && ("RIVER_SERVICE_ADDR" in r.error <==> Blank(c.riverAddr))
              && ("RIVER_SERVICE_AUTH_TOKEN" in r.error <==> Blank(c.riverToken))
              && ("JOB_RPC_ADDR" in r.error <==> Blank(c.rpcAddr))
              && ("RIVER_RPC_AUTH_TOKEN" in r.error <==> Blank(c.rpcToken))
              && forall name :: name in r.error ==>
                   name in {"RIVER_SERVICE_ADDR", "RIVER_SERVICE_AUTH_TOKEN", "JOB_RPC_ADDR", "RIVER_RPC_AUTH_TOKEN"}
  {
    var missing: seq<string> := [];
    var settings := Settings(c);
    for k := 0 to 4
      invariant forall name :: name in missing <==>
                exists i :: 0 <= i < k && settings[i].0 == name && Blank(settings[i].1)
      invariant missing == [] <==> forall i :: 0 <= i < k ==> !Blank(settings[i].1)
    {
      TrimBlank(settings[k].1);
      if Trim(settings[k].1) == "" { missing := missing + [settings[k].0]; }
    }
    if c.jobsDisabled || missing == [] {
      assert missing == [] ==>
        !Blank(settings[0].1) && !Blank(settings[1].1) && !Blank(settings[2].1) && !Blank(settings[3].1);
      return Ok(());
    }
    NamesApart();
    assert Settings(c)[0].0 == "RIVER_SERVICE_ADDR" && Settings(c)[1].0 == "RIVER_SERVICE_AUTH_TOKEN"
           && Settings(c)[2].0 == "JOB_RPC_ADDR" && Settings(c)[3].0 == "RIVER_RPC_AUTH_TOKEN";
    return Err(missing);
  }

  lemma NamesApart()
    ensures "RIVER_SERVICE_ADDR" !in {"RIVER_SERVICE_AUTH_TOKEN", "JOB_RPC_ADDR", "RIVER_RPC_AUTH_TOKEN"}
    ensures "RIVER_SERVICE_AUTH_TOKEN" !in {"JOB_RPC_ADDR", "RIVER_RPC_AUTH_TOKEN"}
    ensures "JOB_RPC_ADDR" != "RIVER_RPC_AUTH_TOKEN"
  {
    assert |"RIVER_SERVICE_ADDR"| == 18 && |"RIVER_SERVICE_AUTH_TOKEN"| == 24 && |"JOB_RPC_ADDR"| == 12
           && |"RIVER_RPC_AUTH_TOKEN"| == 20;
  }

  /** JOBS_DISABLED lets the check pass with nothing configured, so River may go with no pipeline behind it. */
  lemma PassesUnconfigured()
    ensures var c := Config("", "", " ", "", true, false); Passes(c) && !Configured(c)
  {
  }

  // ---------------------------------------------------------------- River's jobs

  datatype RiverState = Available | Running | Retryable | Scheduled | Waiting | Completed | Cancelled | Discarded

  /** A river_job row; args is what decoding its JSON as its kind's args gives, None when that fails. */
  datatype RiverJob = RiverJob(state: RiverState, kind: string, args: Option<string>, scheduledAt: int)

  predicate Live(job: RiverJob) {
    !job.state.Completed? && !job.state.Cancelled? && !job.state.Discarded?
  }

  /** The zero time, year 1: a schedule there is sent as no schedule. */
  const ZERO_TIME: int := -62135596800000

  function RequestOf(job: RiverJob): Outbox.Request
    requires job.args.Some?
  {
    Outbox.Request(job.kind, job.args.value, if job.scheduledAt == ZERO_TIME then None else Some(job.scheduledAt))
  }

  /** The live jobs the outbox takes: those of a kind ogen still enqueues. */
  predicate Moves(job: RiverJob, kinds: set<string>) {
    Live(job) && job.kind in kinds
  }

  /** The query's answer: every live job, by ascending id. */
  ghost predicate IsListing(ids: seq<JobNo>, jobs: map<JobNo, RiverJob>) {
    && (forall j, k :: 0 <= j < k < |ids| ==> ids[j] < ids[k])
    && (forall id :: id in ids <==> id in jobs && Live(jobs[id]))
  }

  /** What the move writes for a list of live jobs, up to the first whose args do not decode. */
  function Written(jobs: seq<RiverJob>, kinds: set<string>): seq<Outbox.Request> {
    if jobs == [] then []
    else if jobs[0].kind !in kinds then Written(jobs[1..], kinds)
    else if jobs[0].args.None? then []
    else [RequestOf(jobs[0])] + Written(jobs[1..], kinds)
  }

  predicate Decodes(jobs: seq<RiverJob>, kinds: set<string>) {
    forall j :: j in jobs && j.kind in kinds ==> j.args.Some?
  }

  /** out is, in order and once each, exactly what the listed jobs of the kinds that move request. */
  ghost predicate Picks(jobs: seq<RiverJob>, kinds: set<string>, picks: seq<nat>, out: seq<Outbox.Request>) {
    && |picks| == |out|
    && (forall j, k :: 0 <= j < k < |picks| ==> picks[j] < picks[k])
    && (forall k :: 0 <= k < |picks| ==> picks[k] < |jobs|)
    && (forall k :: 0 <= k < |picks| ==>
          jobs[picks[k]].kind in kinds && jobs[picks[k]].args.Some? && out[k] == RequestOf(jobs[picks[k]]))
    && (forall i: nat :: i < |jobs| && jobs[i].kind in kinds ==> i in picks)
  }

  lemma PickOneMore(jobs: seq<RiverJob>, job: RiverJob, kinds: set<string>, picks: seq<nat>, out: seq<Outbox.Request>)
    requires Picks(jobs, kinds, picks, out)
    ensures job.kind !in kinds ==> Picks(jobs + [job], kinds, picks, out)
    ensures job.kind in kinds && job.args.Some? ==> Picks(jobs + [job], kinds, picks + [|jobs|], out + [RequestOf(job)])
  {
    forall i: nat | i < |jobs| + 1 && (jobs + [job])[i].kind in kinds && i != |jobs| ensures i in picks {
      assert (jobs + [job])[i] == jobs[i];
    }
  }

  lemma {:induction false} WrittenSnoc(jobs: seq<RiverJob>, job: RiverJob, kinds: set<string>)
    requires Decodes(jobs + [job], kinds)
    ensures Decodes(jobs, kinds)
    ensures Written(jobs + [job], kinds) == Written(jobs, kinds) + if job.kind in kinds then [RequestOf(job)] else []
  {
    assert job in jobs + [job];
    if jobs == [] {
      assert (jobs + [job])[1..] == [];
    } else {
      assert (jobs + [job])[1..] == jobs[1..] + [job];
      assert jobs[0] in jobs + [job];
      WrittenSnoc(jobs[1..], job, kinds);
    }
  }

  lemma {:induction false} WrittenPicks(jobs: seq<RiverJob>, kinds: set<string>) returns (picks: seq<nat>)
    requires Decodes(jobs, kinds)
    ensures Picks(jobs, kinds, picks, Written(jobs, kinds))
  {
    if jobs == [] {
      return [];
    }
    var init, last := jobs[..|jobs| - 1], jobs[|jobs| - 1];
    assert jobs == init + [last];
    WrittenSnoc(init, last, kinds);
    picks := WrittenPicks(init, kinds);
    PickOneMore(init, last, kinds, picks, Written(init, kinds));
    if last.kind in kinds { picks := picks + [|init|]; }
  }

  /** A job's kind, args and schedule carry over; only the zero schedule is lost, and only it. */
  lemma ScheduleKept(job: RiverJob)
    requires job.args.Some?
    ensures RequestOf(job).kind == job.kind && Some(RequestOf(job).args) == job.args
    ensures RequestOf(job).scheduledAt == Some(job.scheduledAt) <==> job.scheduledAt != ZERO_TIME
    ensures RequestOf(job).scheduledAt.None? <==> job.scheduledAt == ZERO_TIME
  {
  }

  /**
   No two jobs are confused: equal requests come from jobs equal in kind, args and schedule, the zero schedule
   too.
   */
  lemma RequestTells(a: RiverJob, b: RiverJob)
    requires a.args.Some? && b.args.Some?
    ensures RequestOf(a) == RequestOf(b) <==> a.kind == b.kind && a.args == b.args && a.scheduledAt == b.scheduledAt
  {
    ScheduleKept(a);
    ScheduleKept(b);
  }

  class RetireTx {
    var inserted: seq<Outbox.Request>

    constructor ()
      ensures inserted == []
    {
      inserted := [];
    }

    /** Moves each listed job in turn; the caller rolls the transaction back on an error. */
    method MoveRiverJobs(jobs: seq<RiverJob>, kinds: set<string>) returns (r: Result<nat, RiverJob>)
      modifies this
      ensures inserted == old(inserted) + Written(jobs, kinds)
      ensures r.Ok? <==> Decodes(jobs, kinds)
      ensures r.Ok? ==> r.value == |Written(jobs, kinds)|
      ensures r.Err? ==> r.error in jobs && r.error.kind in kinds && r.error.args.None?
    {
      var moved := 0;
      var k := 0;
      while k < |jobs|
        invariant 0 <= k <= |jobs|
        invariant inserted + Written(jobs[k..], kinds) == old(inserted) + Written(jobs, kinds)
        invariant moved + |Written(jobs[k..], kinds)| == |Written(jobs, kinds)|
        invariant Decodes(jobs[..k], kinds)
      {
        var job := jobs[k];
        assert jobs[k..][0] == job && jobs[k..][1..] == jobs[k + 1..];
        assert jobs[..k + 1] == jobs[..k] + [job];
        if job.kind in kinds {
          if job.args.None? {
            return Err(job);
          }
          inserted := inserted + [RequestOf(job)];
          moved := moved + 1;
        }
        k := k + 1;
      }
      assert jobs[..k] == jobs;
      return Ok(moved);
    }
  }

  // ---------------------------------------------------------------- the boot protocol

  /** Where a boot stands; written maps each outbox row inserted so far to the River job it came from. */
  datatype Phase =
    | Started
    | Checked
    | Looking(tx: Outbox.TxId)
    | Seen(tx: Outbox.TxId)
    | Moving(tx: Outbox.TxId, todo: seq<JobNo>, written: map<Outbox.RowId, JobNo>)
    | Up

  datatype Boot = Boot(config: Config, phase: Phase)

  /** What the retirement that dropped River moved, for the record. */
  datatype Moved = Moved(jobs: map<JobNo, RiverJob>, rows: map<Outbox.RowId, JobNo>, config: Config)

  datatype State = State(boots: map<Replica, Boot>, river: Option<map<JobNo, RiverJob>>, migrationLock: Option<Replica>,
                         tableLock: Option<Replica>, moved: Option<Moved>, box: Outbox.State)

  datatype Step =
    | Start(r: Replica, config: Config)
    | Check(r: Replica)                        // RequireJobPipeline passes
    | Enter(r: Replica, tx: Outbox.TxId)       // take the migration lock, begin the transaction
    | Look(r: Replica)                         // is there a river_job?
    | LockTable(r: Replica, ids: seq<JobNo>)   // lock it and read the live jobs
    | Move(r: Replica, id: Outbox.RowId)       // write or skip the next job
    | Finish(r: Replica)                       // drop River and commit
    | Fail(r: Replica)                         // a crash, a timeout or an error, anywhere
    | River(jobs: map<JobNo, RiverJob>)        // an old client changes river_job
    | App(step: Outbox.Step)                   // the application and the relays

  ghost predicate IsInit(s: State) {
    s.boots == map[] && s.river.Some? && s.migrationLock.None? && s.tableLock.None? && s.moved.None?
      && Outbox.IsInit(s.box)
  }

  predicate HasTx(p: Phase) {
    p.Looking? || p.Seen? || p.Moving?
  }

  /** The application's transactions are its own. */
  ghost predicate Foreign(boots: map<Replica, Boot>, step: Outbox.Step) {
    forall r :: r in boots && HasTx(boots[r].phase) ==>
      match step
      case Write(tx, _, _, _) => tx != boots[r].phase.tx
      case Commit(tx) => tx != boots[r].phase.tx
      case Abort(tx) => tx != boots[r].phase.tx
      case _ => true
  }

  /** That a boot's own transaction is still open where a step ends it is part of the invariant below. */
  ghost predicate Enabled(s: State, step: Step, kinds: set<string>) {
    match step
    case Start(r, _) => r !in s.boots
    case Check(r) => r in s.boots && s.boots[r].phase.Started? && Passes(s.boots[r].config)
    case Enter(r, tx) => r in s.boots && s.boots[r].phase.Checked? && tx !in s.box.open
                         && (s.boots[r].config.poolOfOne || s.migrationLock.None?)
    case Look(r) => r in s.boots && s.boots[r].phase.Looking? && s.boots[r].phase.tx in s.box.open
    case LockTable(r, ids) => r in s.boots && s.boots[r].phase.Seen? && s.tableLock.None?
                              && s.river.Some? && IsListing(ids, s.river.value)
    case Move(r, id) => MoveEnabled(s, r, id, kinds)
    case Finish(r) => r in s.boots && s.boots[r].phase.Moving? && s.boots[r].phase.todo == [] && s.river.Some?
                      && s.boots[r].phase.tx in s.box.open
    case Fail(r) => r in s.boots && (HasTx(s.boots[r].phase) ==> s.boots[r].phase.tx in s.box.open)
    case River(_) => s.river.Some? && s.tableLock.None?
    case App(step) => Outbox.Enabled(s.box, step) && Foreign(s.boots, step)
  }

  ghost predicate MoveEnabled(s: State, r: Replica, id: Outbox.RowId, kinds: set<string>) {
    r in s.boots && s.boots[r].phase.Moving? && s.boots[r].phase.todo != [] && s.river.Some?
    && s.boots[r].phase.todo[0] in s.river.value
    && var job := s.river.value[s.boots[r].phase.todo[0]];
       job.kind in kinds ==> job.args.Some?
                             && Outbox.Enabled(s.box, Outbox.Write(s.boots[r].phase.tx, id, RequestOf(job), None))
  }

  /** The statement a step runs against the outbox, if any. */
  ghost function BoxStep(s: State, step: Step, kinds: set<string>): Option<Outbox.Step>
    requires Enabled(s, step, kinds)
  {
    match step
    case Enter(_, tx) => Some(Outbox.Begin(tx))
    case Look(r) => if s.river.None? then Some(Outbox.Abort(s.boots[r].phase.tx)) else None
    case Move(r, id) =>
      var job := s.river.value[s.boots[r].phase.todo[0]];
      if job.kind in kinds then Some(Outbox.Write(s.boots[r].phase.tx, id, RequestOf(job), None)) else None
    case Finish(r) => Some(Outbox.Commit(s.boots[r].phase.tx))
    case Fail(r) => if HasTx(s.boots[r].phase) then Some(Outbox.Abort(s.boots[r].phase.tx)) else None
    case App(step) => Some(step)
    case _ => None
  }

  ghost function BoxAfter(s: State, step: Step, kinds: set<string>): Outbox.State
    requires Enabled(s, step, kinds)
  {
    match BoxStep(s, step, kinds)
    case Some(b) => Outbox.Apply(s.box, b)
    case None => s.box
  }

  function Released(lock: Option<Replica>, r: Replica): Option<Replica> {
    if lock == Some(r) then None else lock
  }

  function InPhase(s: State, r: Replica, p: Phase): State
    requires r in s.boots
  {
    s.(boots := s.boots[r := s.boots[r].(phase := p)])
  }

  ghost function Apply(s: State, step: Step, kinds: set<string>): State
    requires Enabled(s, step, kinds)
  {
    var box := BoxAfter(s, step, kinds);
    match step
    case Start(r, config) => s.(boots := s.boots[r := Boot(config, Started)])
    case Check(r) => InPhase(s, r, Checked)
    case Enter(r, tx) =>
      InPhase(s, r, Looking(tx)).(box := box,
                                  migrationLock := if s.boots[r].config.poolOfOne then s.migrationLock else Some(r))
    case Look(r) =>
      if s.river.None? then InPhase(s, r, Up).(box := box, migrationLock := Released(s.migrationLock, r))
      else InPhase(s, r, Seen(s.boots[r].phase.tx))
    case LockTable(r, ids) => InPhase(s, r, Moving(s.boots[r].phase.tx, ids, map[])).(tableLock := Some(r))
    case Move(r, id) =>
      var p := s.boots[r].phase;
      if s.river.value[p.todo[0]].kind in kinds
      then InPhase(s, r, Moving(p.tx, p.todo[1..], p.written[id := p.todo[0]])).(box := box)
      else InPhase(s, r, Moving(p.tx, p.todo[1..], p.written))
    case Finish(r) =>
      InPhase(s, r, Up).(box := box, river := None, tableLock := Released(s.tableLock, r),
                         migrationLock := Released(s.migrationLock, r),
                         moved := Some(Moved(s.river.value, s.boots[r].phase.written, s.boots[r].config)))
    case Fail(r) =>
      s.(boots := s.boots - {r}, box := box, tableLock := Released(s.tableLock, r),
        migrationLock := Released(s.migrationLock, r))
    case River(jobs) => s.(river := Some(jobs))
    case App(_) => s.(box := box)
  }

  ghost predicate Trace(s: State, steps: seq<Step>, kinds: set<string>, t: State)
    decreases |steps|
  {
    if steps == [] then s == t
    else Enabled(s, steps[0], kinds) && Trace(Apply(s, steps[0], kinds), steps[1..], kinds, t)
  }

  // ---------------------------------------------------------------- invariant

  /** The outbox rows a boot's transaction has inserted are exactly the ones it notes. */
  ghost predicate TxInv(tx: Outbox.TxId, written: map<Outbox.RowId, JobNo>, box: Outbox.State) {
    && tx in box.open
    && (forall id :: (id in box.pending && box.pending[id].tx == tx) <==> id in written)
  }

  /** rows come, one each and with its request, from the movable live jobs outside todo. */
  ghost predicate Faithful(rows: map<Outbox.RowId, JobNo>, todo: seq<JobNo>, jobs: map<JobNo, RiverJob>,
      kinds: set<string>)
  {
    && (forall id :: id in rows ==> rows[id] in jobs && Moves(jobs[rows[id]], kinds) && jobs[rows[id]].args.Some?
                                    && rows[id] !in todo)
    && (forall a, b :: a in rows && b in rows && rows[a] == rows[b] ==> a == b)
    && (forall j :: j in jobs && Moves(jobs[j], kinds) && j !in todo ==> exists id :: id in rows && rows[id] == j)
  }

  ghost predicate Carries(rows: map<Outbox.RowId, JobNo>, jobs: map<JobNo, RiverJob>,
      queued: map<Outbox.RowId, Outbox.Request>)
  {
    forall id :: id in rows ==> rows[id] in jobs && jobs[rows[id]].args.Some? && id in queued
                                && queued[id] == RequestOf(jobs[rows[id]])
  }

  ghost predicate AllLive(ids: seq<JobNo>, jobs: map<JobNo, RiverJob>) {
    forall k :: 0 <= k < |ids| ==> ids[k] in jobs && Live(jobs[ids[k]])
  }

  ghost predicate MovingInv(r: Replica, p: Phase, tableLock: Option<Replica>, river: Option<map<JobNo, RiverJob>>,
                            box: Outbox.State, kinds: set<string>)
    requires p.Moving?
  {
    && tableLock == Some(r) && river.Some?
    && Outbox.Distinct(p.todo) && AllLive(p.todo, river.value)
    && Faithful(p.written, p.todo, river.value, kinds)
    && Carries(p.written, river.value, Outbox.Requests(Outbox.Inserts(box, p.tx)))
  }

  ghost predicate BootInv(r: Replica, b: Boot, tableLock: Option<Replica>, river: Option<map<JobNo, RiverJob>>,
                          box: Outbox.State, kinds: set<string>)
  {
    && (!b.phase.Started? ==> Passes(b.config))
    && (HasTx(b.phase) ==> TxInv(b.phase.tx, if b.phase.Moving? then b.phase.written else map[], box))
    && (b.phase.Moving? ==> MovingInv(r, b.phase, tableLock, river, box, kinds))
    && (tableLock == Some(r) ==> b.phase.Moving?)
  }

  ghost predicate TxsApart(boots: map<Replica, Boot>) {
    forall q, r :: q in boots && r in boots && q != r && HasTx(boots[q].phase) && HasTx(boots[r].phase) ==>
      boots[q].phase.tx != boots[r].phase.tx
  }

  ghost predicate BootsInv(s: State, kinds: set<string>) {
    && (forall r :: r in s.boots ==> BootInv(r, s.boots[r], s.tableLock, s.river, s.box, kinds))
    && TxsApart(s.boots)
    && (s.tableLock.Some? ==> s.tableLock.value in s.boots)
  }

  ghost predicate MovedInv(moved: Option<Moved>, river: Option<map<JobNo, RiverJob>>,
      queued: map<Outbox.RowId, Outbox.Request>, kinds: set<string>)
  {
    && (moved.None? <==> river.Some?)
    && (moved.Some? ==> Passes(moved.value.config) && Faithful(moved.value.rows, [], moved.value.jobs, kinds)
                        && Carries(moved.value.rows, moved.value.jobs, queued))
  }

  ghost predicate Inv(s: State, kinds: set<string>) {
    Outbox.Inv(s.box) && BootsInv(s, kinds) && MovedInv(s.moved, s.river, Outbox.View(s.box), kinds)
  }

  // ---------------------------------------------------------------- steps keep it

  /** What a step adds to the plain queue the outbox stands for. */
  ghost function Added(s: State, step: Step, kinds: set<string>): map<Outbox.RowId, Outbox.Request>
    requires Enabled(s, step, kinds)
  {
    match BoxStep(s, step, kinds)
    case Some(b) => Outbox.Added(s.box, b)
    case None => map[]
  }

  lemma StepKeepsBox(s: State, step: Step, kinds: set<string>)
    requires Outbox.Inv(s.box) && Enabled(s, step, kinds)
    ensures Apply(s, step, kinds).box == BoxAfter(s, step, kinds) && Outbox.Inv(BoxAfter(s, step, kinds))
    ensures Added(s, step, kinds).Keys !! Outbox.View(s.box).Keys
    ensures Outbox.View(BoxAfter(s, step, kinds)) == Outbox.View(s.box) + Added(s, step, kinds)
  {
    match BoxStep(s, step, kinds)
    case Some(b) => hide Outbox.Inv; Outbox.StepRefinesQueue(s.box, b);
    case None => Outbox.PlusEmpty(Outbox.View(s.box));
  }

  /** An outbox step that is not a statement of transaction tx. */
  ghost predicate Apart(b: Outbox.Step, tx: Outbox.TxId) {
    match b
    case Begin(t) => t != tx
    case Write(t, _, _, _) => t != tx
    case Commit(t) => t != tx
    case Abort(t) => t != tx
    case _ => true
  }

  /** Nothing of transaction tx differs. */
  ghost predicate SameTx(box: Outbox.State, after: Outbox.State, tx: Outbox.TxId) {
    && (tx in box.open ==> tx in after.open)
    && (forall id :: (id in box.pending && box.pending[id].tx == tx) <==>
        (id in after.pending && after.pending[id].tx == tx))
    && (forall id :: id in box.pending && box.pending[id].tx == tx ==> after.pending[id] == box.pending[id])
  }

  lemma ApartIsSameTx(box: Outbox.State, b: Outbox.Step, tx: Outbox.TxId)
    requires forall id :: id in box.pending ==> id in box.used
    requires Outbox.Enabled(box, b) && Apart(b, tx)
    ensures SameTx(box, Outbox.Apply(box, b), tx)
  {
    match b
    case Write(t, id, req, key) => assert SameTx(box, Outbox.DoWrite(box, t, id, req, key), tx);
    case Commit(t) => assert SameTx(box, Outbox.DoCommit(box, t), tx);
    case Abort(t) => assert SameTx(box, Outbox.DoAbort(box, t), tx);
    case Begin(t) =>
    case _ => assert Outbox.Apply(box, b).pending == box.pending && Outbox.Apply(box, b).open == box.open;
  }

  lemma SameTxSameInserts(box: Outbox.State, after: Outbox.State, tx: Outbox.TxId, written: map<Outbox.RowId, JobNo>)
    requires SameTx(box, after, tx) && TxInv(tx, written, box)
    ensures TxInv(tx, written, after) && Outbox.Inserts(after, tx) == Outbox.Inserts(box, tx)
  {
  }

  lemma InsertGrowsTx(box: Outbox.State, after: Outbox.State, tx: Outbox.TxId, written: map<Outbox.RowId, JobNo>,
                      id: Outbox.RowId, row: Outbox.Row, j: JobNo)
    requires id !in box.pending && TxInv(tx, written, box)
    requires after.pending == box.pending[id := Outbox.Pending(tx, row)] && after.open == box.open
    ensures id !in written && TxInv(tx, written[id := j], after)
    ensures Outbox.Requests(Outbox.Inserts(after, tx)) == Outbox.Requests(Outbox.Inserts(box, tx))[id := row.req]
  {
    assert Outbox.Inserts(after, tx) == Outbox.Inserts(box, tx)[id := row];
  }

  lemma WriteGrowsTx(box: Outbox.State, tx: Outbox.TxId, written: map<Outbox.RowId, JobNo>, id: Outbox.RowId,
      req: Outbox.Request, j: JobNo)
    requires forall i :: i in box.pending ==> i in box.used
    requires Outbox.Enabled(box, Outbox.Write(tx, id, req, None)) && TxInv(tx, written, box)
    ensures var after := Outbox.Apply(box, Outbox.Write(tx, id, req, None));
            id !in written && TxInv(tx, written[id := j], after)
            && Outbox.Requests(Outbox.Inserts(after, tx)) == Outbox.Requests(Outbox.Inserts(box, tx))[id := req]
  {
    InsertGrowsTx(box, Outbox.Apply(box, Outbox.Write(tx, id, req, None)), tx, written, id,
      Outbox.NewRow(req, None, box.open[tx]), j);
  }

  /** A boot whose own phase a step leaves alone keeps its invariant. */
  lemma BootKeptApart(s: State, box: Outbox.State, q: Replica, lock: Option<Replica>,
      river: Option<map<JobNo, RiverJob>>, kinds: set<string>)
    requires q in s.boots && BootInv(q, s.boots[q], s.tableLock, s.river, s.box, kinds)
    requires HasTx(s.boots[q].phase) ==> SameTx(s.box, box, s.boots[q].phase.tx)
    requires lock == Some(q) <==> s.tableLock == Some(q)
    requires s.boots[q].phase.Moving? ==> river == s.river
    ensures BootInv(q, s.boots[q], lock, river, box, kinds)
  {
    var p := s.boots[q].phase;
    if HasTx(p) {
      SameTxSameInserts(s.box, box, p.tx, if p.Moving? then p.written else map[]);
    }
  }

  lemma BoxStepApart(s: State, step: Step, kinds: set<string>, q: Replica)
    requires forall i :: i in s.box.pending ==> i in s.box.used
    requires BootsInv(s, kinds) && Enabled(s, step, kinds)
    requires q in s.boots && HasTx(s.boots[q].phase) && (Acts(step) ==> q != step.r)
    ensures SameTx(s.box, BoxAfter(s, step, kinds), s.boots[q].phase.tx)
  {
    var tx := s.boots[q].phase.tx;
    assert BootInv(q, s.boots[q], s.tableLock, s.river, s.box, kinds);
    match BoxStep(s, step, kinds) {
      case None =>
      case Some(b) =>
        assert Apart(b, tx);
        ApartIsSameTx(s.box, b, tx);
    }
  }

  predicate Acts(step: Step) {
    !step.River? && !step.App?
  }

  lemma EnterActor(s: State, r: Replica, tx: Outbox.TxId, kinds: set<string>)
    requires Inv(s, kinds) && Enabled(s, Enter(r, tx), kinds)
    ensures TxInv(tx, map[], Outbox.Apply(s.box, Outbox.Begin(tx)))
  {
    assert Outbox.PendingInv(s.box.pending, s.box.open, s.box.rows, s.box.network, s.box.used);
  }

  lemma FirstListing(ids: seq<JobNo>, jobs: map<JobNo, RiverJob>, kinds: set<string>)
    requires IsListing(ids, jobs)
    ensures Outbox.Distinct(ids) && AllLive(ids, jobs) && Faithful(map[], ids, jobs, kinds)
  {
    assert forall k :: 0 <= k < |ids| ==> ids[k] in ids;
  }

  lemma TailOf(todo: seq<JobNo>)
    requires Outbox.Distinct(todo) && todo != []
    ensures Outbox.Distinct(todo[1..]) && todo[0] !in todo[1..]
    ensures forall j :: j in todo <==> j == todo[0] || j in todo[1..]
  {
    assert todo == [todo[0]] + todo[1..];
  }

  lemma MoveIsFaithful(rows: map<Outbox.RowId, JobNo>, todo: seq<JobNo>, jobs: map<JobNo, RiverJob>,
      kinds: set<string>, id: Outbox.RowId)
    requires Outbox.Distinct(todo) && todo != [] && Faithful(rows, todo, jobs, kinds)
    requires todo[0] in jobs && Live(jobs[todo[0]])
    ensures jobs[todo[0]].kind !in kinds ==> Faithful(rows, todo[1..], jobs, kinds)
    ensures jobs[todo[0]].kind in kinds && jobs[todo[0]].args.Some? && id !in rows ==>
              Faithful(rows[id := todo[0]], todo[1..], jobs, kinds)
  {
    TailOf(todo);
    var more := rows[id := todo[0]];
    if jobs[todo[0]].kind in kinds && id !in rows {
      forall j | j in jobs && Moves(jobs[j], kinds) && j !in todo[1..] ensures exists i :: i in more && more[i] == j {
        if j == todo[0] {
          assert more[id] == j;
        } else {
          var i :| i in rows && rows[i] == j;
          assert more[i] == j;
        }
      }
    }
  }

  lemma MoveKeepsMoving(r: Replica, p: Phase, lock: Option<Replica>, river: Option<map<JobNo, RiverJob>>,
      box: Outbox.State,
                        kinds: set<string>, id: Outbox.RowId)
    requires forall i :: i in box.pending ==> i in box.used
    requires p.Moving? && p.todo != [] && TxInv(p.tx, p.written, box) && MovingInv(r, p, lock, river, box, kinds)
    requires p.todo[0] in river.value
    requires var job := river.value[p.todo[0]];
             job.kind in kinds && job.args.Some? && Outbox.Enabled(box, Outbox.Write(p.tx, id, RequestOf(job), None))
    ensures var after := Outbox.Apply(box, Outbox.Write(p.tx, id, RequestOf(river.value[p.todo[0]]), None));
            TxInv(p.tx, p.written[id := p.todo[0]], after)
            && MovingInv(r, Moving(p.tx, p.todo[1..], p.written[id := p.todo[0]]), lock, river, after, kinds)
  {
    TailOf(p.todo);
    WriteGrowsTx(box, p.tx, p.written, id, RequestOf(river.value[p.todo[0]]), p.todo[0]);
    MoveIsFaithful(p.written, p.todo, river.value, kinds, id);
  }

  lemma SkipKeepsMoving(r: Replica, p: Phase, lock: Option<Replica>, river: Option<map<JobNo, RiverJob>>,
      box: Outbox.State,
                        kinds: set<string>)
    requires p.Moving? && p.todo != [] && MovingInv(r, p, lock, river, box, kinds)
    requires p.todo[0] in river.value && river.value[p.todo[0]].kind !in kinds
    ensures MovingInv(r, Moving(p.tx, p.todo[1..], p.written), lock, river, box, kinds)
  {
    TailOf(p.todo);
    MoveIsFaithful(p.written, p.todo, river.value, kinds, "");
  }

  lemma MoveActor(s: State, r: Replica, id: Outbox.RowId, kinds: set<string>)
    requires Inv(s, kinds) && Enabled(s, Move(r, id), kinds)
    ensures var t := Apply(s, Move(r, id), kinds); BootInv(r, t.boots[r], t.tableLock, t.river, t.box, kinds)
  {
    assert BootInv(r, s.boots[r], s.tableLock, s.river, s.box, kinds);
    var p := s.boots[r].phase;
    if s.river.value[p.todo[0]].kind in kinds {
      MoveKeepsMoving(r, p, s.tableLock, s.river, s.box, kinds, id);
    } else {
      SkipKeepsMoving(r, p, s.tableLock, s.river, s.box, kinds);
    }
  }

  lemma ActorKept(s: State, step: Step, kinds: set<string>)
    requires Inv(s, kinds) && Enabled(s, step, kinds) && Acts(step) && !step.Fail?
    ensures var t := Apply(s, step, kinds); BootInv(step.r, t.boots[step.r], t.tableLock, t.river, t.box, kinds)
  {
    hide Outbox.Inv;
    if step.r in s.boots { assert BootInv(step.r, s.boots[step.r], s.tableLock, s.river, s.box, kinds); }
    match step
    case Enter(r, tx) => EnterActor(s, r, tx, kinds);
    case LockTable(r, ids) => FirstListing(ids, s.river.value, kinds);
    case Move(r, id) => MoveActor(s, r, id, kinds);
    case _ =>
  }

  /** A step changes at most its own replica's boot, and only Enter gives a boot a new transaction. */
  lemma StepChangesOneBoot(s: State, step: Step, kinds: set<string>)
    requires Enabled(s, step, kinds)
    ensures var t := Apply(s, step, kinds);
            t.tableLock.Some? ==> if step.LockTable? then t.tableLock.value in t.boots
                                  else t.tableLock == s.tableLock && !(step.Fail? && t.tableLock.value == step.r)
    ensures forall q :: q in s.boots && (step.Fail? ==> q != step.r) ==> q in Apply(s, step, kinds).boots
    ensures var boots := Apply(s, step, kinds).boots;
            && (forall q :: q in boots && (Acts(step) ==> q != step.r) ==> q in s.boots && boots[q] == s.boots[q])
            && (step.Fail? ==> step.r !in boots)
            && (Acts(step) && !step.Enter? && step.r in boots && HasTx(boots[step.r].phase) ==>
                  step.r in s.boots && HasTx(s.boots[step.r].phase)
                    && s.boots[step.r].phase.tx == boots[step.r].phase.tx)
            && (step.Enter? ==> step.r in boots && boots[step.r].phase == Looking(step.tx))
  {
  }

  lemma TxsStayApart(s: State, step: Step, kinds: set<string>)
    requires Inv(s, kinds) && Enabled(s, step, kinds)
    ensures TxsApart(Apply(s, step, kinds).boots)
  {
    StepChangesOneBoot(s, step, kinds);
    if step.Enter? { EnterIsNewTx(s, step.r, step.tx, kinds); }
    hide Apply;
    hide Outbox.Inv;
  }

  lemma StepKeepsBoots(s: State, step: Step, kinds: set<string>)
    requires Inv(s, kinds) && Enabled(s, step, kinds)
    ensures BootsInv(Apply(s, step, kinds), kinds)
  {
    hide Apply;
    hide Outbox.Inv;
    hide BootInv;
    var t := Apply(s, step, kinds);
    TxsStayApart(s, step, kinds);
    StepChangesOneBoot(s, step, kinds);
    forall q | q in t.boots ensures BootInv(q, t.boots[q], t.tableLock, t.river, t.box, kinds) {
      if Acts(step) && q == step.r {
        ActorKept(s, step, kinds);
      } else {
        OtherKept(s, step, kinds, q);
      }
    }
  }

  lemma EnterIsNewTx(s: State, r: Replica, tx: Outbox.TxId, kinds: set<string>)
    requires Inv(s, kinds) && Enabled(s, Enter(r, tx), kinds)
    ensures forall q :: q in s.boots && HasTx(s.boots[q].phase) ==> s.boots[q].phase.tx != tx
  {
    forall q | q in s.boots && HasTx(s.boots[q].phase) ensures s.boots[q].phase.tx != tx {
      assert BootInv(q, s.boots[q], s.tableLock, s.river, s.box, kinds);
    }
  }

  lemma OtherKept(s: State, step: Step, kinds: set<string>, q: Replica)
    requires Inv(s, kinds) && Enabled(s, step, kinds) && q in s.boots && (Acts(step) ==> q != step.r)
    ensures var t := Apply(s, step, kinds); BootInv(q, s.boots[q], t.tableLock, t.river, t.box, kinds)
  {
    var t := Apply(s, step, kinds);
    if HasTx(s.boots[q].phase) { BoxStepApart(s, step, kinds, q); }
    assert BootInv(q, s.boots[q], s.tableLock, s.river, s.box, kinds);
    if step.Finish? { assert BootInv(step.r, s.boots[step.r], s.tableLock, s.river, s.box, kinds); }
    BootKeptApart(s, t.box, q, t.tableLock, t.river, kinds);
  }

  lemma CarriesMore(rows: map<Outbox.RowId, JobNo>, jobs: map<JobNo, RiverJob>,
      queued: map<Outbox.RowId, Outbox.Request>, more: map<Outbox.RowId, Outbox.Request>)
    requires Carries(rows, jobs, queued) && more.Keys !! queued.Keys
    ensures Carries(rows, jobs, queued + more)
  {
  }

  lemma FinishMoves(s: State, r: Replica, kinds: set<string>)
    requires Inv(s, kinds) && Enabled(s, Finish(r), kinds)
    ensures Faithful(s.boots[r].phase.written, [], s.river.value, kinds) && Passes(s.boots[r].config)
    ensures Carries(s.boots[r].phase.written, s.river.value, Added(s, Finish(r), kinds))
  {
    assert BootInv(r, s.boots[r], s.tableLock, s.river, s.box, kinds);
    assert s.boots[r].phase.todo == [];
  }

  lemma OnlyFinishMoves(s: State, step: Step, kinds: set<string>)
    requires Enabled(s, step, kinds)
    ensures var t := Apply(s, step, kinds);
            && (t.river.Some? <==> s.river.Some? && !step.Finish?)
            && t.moved == if step.Finish?
               then Some(Moved(s.river.value, s.boots[step.r].phase.written, s.boots[step.r].config))
                          else s.moved
  {
  }

  lemma StepKeepsMoved(s: State, step: Step, kinds: set<string>)
    requires Inv(s, kinds) && Enabled(s, step, kinds)
    ensures var t := Apply(s, step, kinds);
            Outbox.Inv(t.box) && MovedInv(t.moved, t.river, Outbox.View(t.box), kinds)
  {
    StepKeepsBox(s, step, kinds);
    OnlyFinishMoves(s, step, kinds);
    assert Outbox.IntakeInv(s.box.intake);
    assert Outbox.IntakeInv(Apply(s, step, kinds).box.intake);
    hide Outbox.Inv;
    hide BootsInv;
    hide Apply;
    hide BoxAfter;
    hide Outbox.View;
    if step.Finish? {
      FinishMoves(s, step.r, kinds);
    } else if s.moved.Some? {
      CarriesMore(s.moved.value.rows, s.moved.value.jobs, Outbox.View(s.box), Added(s, step, kinds));
    }
  }

  lemma StepKeepsInv(s: State, step: Step, kinds: set<string>)
    requires Inv(s, kinds) && Enabled(s, step, kinds)
    ensures Inv(Apply(s, step, kinds), kinds)
  {
    StepKeepsBoots(s, step, kinds);
    StepKeepsMoved(s, step, kinds);
  }

  // ---------------------------------------------------------------- whole runs

  /** What the application, and not the handover, added to the queue over a run. */
  ghost function AppAdded(s: State, steps: seq<Step>, kinds: set<string>, t: State): map<Outbox.RowId, Outbox.Request>
    requires Trace(s, steps, kinds, t)
    decreases |steps|
  {
    if steps == [] then map[]
    else
      (if steps[0].App? then Added(s, steps[0], kinds) else map[])
      + AppAdded(Apply(s, steps[0], kinds), steps[1..], kinds, t)
  }

  /** What the retirement added. */
  ghost function MovedRequests(moved: Option<Moved>): map<Outbox.RowId, Outbox.Request> {
    if moved.None? then map[]
    else map id | id in moved.value.rows && moved.value.rows[id] in moved.value.jobs
                  && moved.value.jobs[moved.value.rows[id]].args.Some? ::
           RequestOf(moved.value.jobs[moved.value.rows[id]])
  }

  ghost function NewlyMoved(s: State, t: State): map<Outbox.RowId, Outbox.Request> {
    if s.moved.None? then MovedRequests(t.moved) else map[]
  }

  /** A step adds what an application transaction commits, or what the one retirement moved, or nothing. */
  lemma StepAdds(s: State, step: Step, kinds: set<string>)
    requires Inv(s, kinds) && Enabled(s, step, kinds)
    ensures !step.App? ==> Added(s, step, kinds) == NewlyMoved(s, Apply(s, step, kinds))
    ensures step.App? ==> NewlyMoved(s, Apply(s, step, kinds)) == map[]
  {
    OnlyFinishMoves(s, step, kinds);
    if step.Finish? {
      FinishAdds(s, step.r, kinds);
    }
  }

  lemma FinishAdds(s: State, r: Replica, kinds: set<string>)
    requires Inv(s, kinds) && Enabled(s, Finish(r), kinds)
    ensures Added(s, Finish(r), kinds) ==
            MovedRequests(Some(Moved(s.river.value, s.boots[r].phase.written, s.boots[r].config)))
  {
    FinishMoves(s, r, kinds);
    assert BootInv(r, s.boots[r], s.tableLock, s.river, s.box, kinds);
  }

  lemma {:induction false} RunKeepsInv(s: State, steps: seq<Step>, kinds: set<string>, t: State)
    requires Inv(s, kinds) && Trace(s, steps, kinds, t)
    ensures Inv(t, kinds)
    ensures s.moved.Some? ==> t.moved == s.moved
    decreases |steps|
  {
    if steps != [] {
      StepKeepsInv(s, steps[0], kinds);
      OnlyFinishMoves(s, steps[0], kinds);
      assert s.moved.Some? ==> s.river.None?;
      hide Inv;
      RunKeepsInv(Apply(s, steps[0], kinds), steps[1..], kinds, t);
    }
  }

  /** View after = view before + what each step added, in any order since the keys are apart. */
  lemma Regroup<K, V>(view: map<K, V>, app: map<K, V>, moved: map<K, V>, laterApp: map<K, V>, laterMoved: map<K, V>)
    requires app == map[] || moved == map[]
    requires moved == map[] || laterMoved == map[]
    requires (app + moved).Keys !! view.Keys
    requires laterApp.Keys !! laterMoved.Keys && (laterApp + laterMoved).Keys !! (view + (app + moved)).Keys
    ensures (view + (app + moved)) + (laterApp + laterMoved) == view + ((app + laterApp) + (moved + laterMoved))
    ensures (app + laterApp).Keys !! (moved + laterMoved).Keys
    ensures ((app + laterApp) + (moved + laterMoved)).Keys !! view.Keys
  {
  }

  lemma {:induction false} RunConserves(s: State, steps: seq<Step>, kinds: set<string>, t: State)
    requires Inv(s, kinds) && Trace(s, steps, kinds, t)
    ensures Inv(t, kinds)
    ensures AppAdded(s, steps, kinds, t).Keys !! NewlyMoved(s, t).Keys
    ensures (AppAdded(s, steps, kinds, t) + NewlyMoved(s, t)).Keys !! Outbox.View(s.box).Keys
    ensures Outbox.View(t.box) == Outbox.View(s.box) + (AppAdded(s, steps, kinds, t) + NewlyMoved(s, t))
    decreases |steps|
  {
    RunKeepsInv(s, steps, kinds, t);
    if steps == [] {
      assert NewlyMoved(s, s) == map[];
      assert AppAdded(s, steps, kinds, t) + NewlyMoved(s, t) == map[];
      Outbox.PlusEmpty(Outbox.View(s.box));
    } else {
      var step, u := steps[0], Apply(s, steps[0], kinds);
      StepKeepsInv(s, step, kinds);
      StepKeepsBox(s, step, kinds);
      StepAdds(s, step, kinds);
      MovedSplits(s, step, steps[1..], kinds, t);
      RunConserves(u, steps[1..], kinds, t);
      var app := if step.App? then Added(s, step, kinds) else map[];
      AppOrMoved(app, NewlyMoved(s, u), Added(s, step, kinds), step.App?);
      Regroup(Outbox.View(s.box), app, NewlyMoved(s, u), AppAdded(u, steps[1..], kinds, t), NewlyMoved(u, t));
    }
  }

  lemma AppOrMoved<K, V>(app: map<K, V>, moved: map<K, V>, added: map<K, V>, isApp: bool)
    requires if isApp then app == added && moved == map[] else app == map[] && moved == added
    ensures added == app + moved
  {
  }

  lemma MovedSplits(s: State, step: Step, rest: seq<Step>, kinds: set<string>, t: State)
    requires Inv(s, kinds) && Enabled(s, step, kinds) && Trace(Apply(s, step, kinds), rest, kinds, t)
    ensures NewlyMoved(s, Apply(s, step, kinds)) == map[] || NewlyMoved(Apply(s, step, kinds), t) == map[]
    ensures NewlyMoved(s, t) == NewlyMoved(s, Apply(s, step, kinds)) + NewlyMoved(Apply(s, step, kinds), t)
  {
    var u := Apply(s, step, kinds);
    StepKeepsInv(s, step, kinds);
    RunKeepsInv(u, rest, kinds, t);
    OnlyFinishMoves(s, step, kinds);
    Outbox.PlusEmpty(NewlyMoved(s, t));
    assert s.moved.Some? ==> s.river.None?;
    hide Inv;
  }

  lemma InitHolds(s: State, kinds: set<string>)
    requires IsInit(s)
    ensures Inv(s, kinds) && Outbox.View(s.box) == map[]
  {
    Outbox.InitIsEmpty(s.box);
  }

  /**
   However many replicas boot and crash, wherever they crash: River is gone exactly when one retirement
   committed, by a replica whose check passed; each job live at that moment then has exactly one row if its
   kind moves, and none otherwise; and the queue is what the application committed plus those rows' jobs.
   */
  lemma HandoverConserves(s: State, steps: seq<Step>, kinds: set<string>, t: State)
    requires IsInit(s) && Trace(s, steps, kinds, t)
    ensures Outbox.Inv(t.box) && (t.river.None? <==> t.moved.Some?)
    ensures AppAdded(s, steps, kinds, t).Keys !! MovedRequests(t.moved).Keys
    ensures Outbox.View(t.box) == AppAdded(s, steps, kinds, t) + MovedRequests(t.moved)
    ensures t.moved.Some? ==>
              && Passes(t.moved.value.config)
              && Faithful(t.moved.value.rows, [], t.moved.value.jobs, kinds)
              && Carries(t.moved.value.rows, t.moved.value.jobs, Outbox.View(t.box))
  {
    InitHolds(s, kinds);
    RunConserves(s, steps, kinds, t);
    Outbox.PlusEmpty(AppAdded(s, steps, kinds, t) + MovedRequests(t.moved));
  }

  lemma CountRows(rows: map<Outbox.RowId, JobNo>, jobs: map<JobNo, RiverJob>, kinds: set<string>, j: JobNo)
    requires Faithful(rows, [], jobs, kinds) && j in jobs && Live(jobs[j])
    ensures |set id | id in rows && rows[id] == j| == (if jobs[j].kind in kinds then 1 else 0)
    ensures jobs[j].kind in kinds ==> jobs[j].args.Some?
  {
    var own := set id | id in rows && rows[id] == j;
    if jobs[j].kind in kinds {
      assert Moves(jobs[j], kinds);
      var id :| id in rows && rows[id] == j;
      assert own == {id};
    } else {
      assert own == {};
    }
  }

  lemma RowsBecomeJobs(rows: map<Outbox.RowId, JobNo>, jobs: map<JobNo, RiverJob>,
      outbox: map<Outbox.RowId, Outbox.Row>, intake: Outbox.Intake)
    requires Outbox.IntakeInv(intake) && Carries(rows, jobs, Outbox.Queue(outbox, intake))
    ensures forall id :: id in rows && id in intake.byKey ==>
              intake.byKey[id] in intake.jobs && rows[id] in jobs && jobs[rows[id]].args.Some?
              && intake.jobs[intake.byKey[id]] == Outbox.Job(id, RequestOf(jobs[rows[id]]))
  {
  }

  /**
   One row for each job that was live and whose kind moves, none for the rest; the row's request is the job's,
   and whatever river-service makes of the row is that one job.
   */
  lemma OneRowPerJob(s: State, steps: seq<Step>, kinds: set<string>, t: State, j: JobNo)
    requires IsInit(s) && Trace(s, steps, kinds, t)
    requires t.moved.Some? && j in t.moved.value.jobs && Live(t.moved.value.jobs[j])
    ensures var m := t.moved.value; var rows := set id | id in m.rows && m.rows[id] == j;
            && |rows| == (if m.jobs[j].kind in kinds then 1 else 0)
            && (m.jobs[j].kind in kinds ==> m.jobs[j].args.Some?)
            && (forall id :: id in rows && id in t.box.intake.byKey ==>
                  t.box.intake.byKey[id] in t.box.intake.jobs && m.jobs[j].args.Some?
                  && t.box.intake.jobs[t.box.intake.byKey[id]] == Outbox.Job(id, RequestOf(m.jobs[j])))
  {
    HandoverConserves(s, steps, kinds, t);
    assert Outbox.IntakeInv(t.box.intake);
    hide Outbox.Inv;
    hide Faithful;
    CountRows(t.moved.value.rows, t.moved.value.jobs, kinds, j);
    RowsBecomeJobs(t.moved.value.rows, t.moved.value.jobs, t.box.rows, t.box.intake);
    hide Carries;
  }

  /** The River job a row was written for, and what river-service made of the row. */
  ghost function Source(t: State, id: Outbox.RowId): Option<RiverJob> {
    if t.moved.Some? && id in t.moved.value.rows && t.moved.value.rows[id] in t.moved.value.jobs
    then Some(t.moved.value.jobs[t.moved.value.rows[id]]) else None
  }

  ghost function Delivered(t: State, id: Outbox.RowId): Option<Outbox.Request> {
    var intake := t.box.intake;
    if id in intake.byKey && intake.byKey[id] in intake.jobs then Some(intake.jobs[intake.byKey[id]].req) else None
  }

  /**
   What river-service holds for a moved row, after any run, is what River had to do: the same kind and args, at the
   same time, or at no set time exactly when River's was the zero time.
   */
  lemma DeliveredAsScheduled(s: State, steps: seq<Step>, kinds: set<string>, t: State, id: Outbox.RowId)
    requires IsInit(s) && Trace(s, steps, kinds, t) && Source(t, id).Some? && Delivered(t, id).Some?
    ensures var job, req := Source(t, id).value, Delivered(t, id).value;
            && req.kind == job.kind && Some(req.args) == job.args && job.kind in kinds && Live(job)
            && (req.scheduledAt == Some(job.scheduledAt) <==> job.scheduledAt != ZERO_TIME)
            && (req.scheduledAt.None? <==> job.scheduledAt == ZERO_TIME)
  {
    HandoverConserves(s, steps, kinds, t);
    assert Outbox.IntakeInv(t.box.intake);
    hide Outbox.Inv;
    RowsBecomeJobs(t.moved.value.rows, t.moved.value.jobs, t.box.rows, t.box.intake);
    hide Carries;
    ScheduleKept(Source(t, id).value);
  }

  /**
   In terms of River's own states: once a run has dropped River, each job that was available, running, retryable,
   scheduled or waiting has exactly one row if ogen still enqueues its kind, with its kind, args and time; and no
   other job has any.
   */
  lemma UnfinishedGetOneRow(s: State, steps: seq<Step>, kinds: set<string>, t: State, j: JobNo)
    requires IsInit(s) && Trace(s, steps, kinds, t) && t.river.None?
    ensures t.moved.Some? && Outbox.Inv(t.box)
    ensures j in t.moved.value.jobs ==>
              var job, rows := t.moved.value.jobs[j], set id | id in t.moved.value.rows && t.moved.value.rows[id] == j;
              if job.state in {Available, Running, Retryable, Scheduled, Waiting} && job.kind in kinds
              then |rows| == 1 && forall id :: id in rows ==>
                     id in Outbox.View(t.box) && var req := Outbox.View(t.box)[id];
                     req.kind == job.kind && Some(req.args) == job.args
                     && req.scheduledAt == if job.scheduledAt == ZERO_TIME then None else Some(job.scheduledAt)
              else rows == {}
  {
    HandoverConserves(s, steps, kinds, t);
    hide Outbox.Inv;
    hide Trace;
    var m := t.moved.value;
    if j in m.jobs {
      if m.jobs[j].state in {Available, Running, Retryable, Scheduled, Waiting} {
        CountRows(m.rows, m.jobs, kinds, j);
      }
    }
  }

  /** What is moved is what River held when it was dropped: nothing changes a job between the listing and the drop. */
  lemma DropMovesWhatIsThere(s: State, steps: seq<Step>, kinds: set<string>, u: State, r: Replica)
    requires IsInit(s) && Trace(s, steps, kinds, u) && Enabled(u, Finish(r), kinds)
    ensures var t := Apply(u, Finish(r), kinds);
            && t.river.None? && t.moved.Some? && t.moved.value.jobs == u.river.value
            && forall id :: id in t.moved.value.rows ==> id in t.box.rows && id !in u.box.rows
  {
    hide Inv;
    hide Trace;
    InitHolds(s, kinds);
    RunKeepsInv(s, steps, kinds, u);
    DropRecords(u, r, kinds);
  }

  lemma DropRecords(u: State, r: Replica, kinds: set<string>)
    requires Inv(u, kinds) && Enabled(u, Finish(r), kinds)
    ensures var t := Apply(u, Finish(r), kinds);
            && t.river.None? && t.moved == Some(Moved(u.river.value, u.boots[r].phase.written, u.boots[r].config))
            && forall id :: id in t.moved.value.rows ==> id in t.box.rows && id !in u.box.rows
  {
    assert BootInv(r, u.boots[r], u.tableLock, u.river, u.box, kinds);
    assert TxInv(u.boots[r].phase.tx, u.boots[r].phase.written, u.box);
    assert Outbox.PendingInv(u.box.pending, u.box.open, u.box.rows, u.box.network, u.box.used);
    hide Inv;
    hide BootInv;
    hide Outbox.Inv;
  }
}
