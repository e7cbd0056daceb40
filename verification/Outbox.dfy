/**
 The transactional job outbox, its relays and river-service's intake, as one state machine.

 Application transactions insert rows, any number of relay passes claim rows with SKIP LOCKED and deliver
 them, the network may lose answers and replay requests at any later time, passes crash, and retention
 deletes delivered rows.  Every step below is one database statement, one message or one crash.
 */
module Outbox {
  import opened Common

  type RowId = string
  type TxId = nat
  type PassId = nat
  type JobId = nat

  datatype Request = Request(kind: string, args: string, scheduledAt: Option<int>)

  /** One job_outbox row. Times are milliseconds on the database clock. */
  datatype Row = Row(req: Request, dedupeKey: Option<string>, createdAt: int, nextAttemptAt: int,
                     attempts: nat, sentAt: Option<int>, jobId: Option<JobId>)

  function NewRow(req: Request, key: Option<string>, at: int): Row {
    Row(req, key, at, at, 0, None, None)
  }

  // ---------------------------------------------------------------- backoff

  function Pow2(n: nat): nat {
    if n == 0 then 1 else 2 * Pow2(n - 1)
  }

  const MAX_BACKOFF: nat := 300

  /** The wait in seconds before the given attempt, from 1: one second doubling up to the cap. */
  function Backoff(attempt: nat): nat {
    var doubled := Pow2(if attempt == 0 then 0 else attempt - 1);
    if doubled < MAX_BACKOFF then doubled else MAX_BACKOFF
  }

  lemma {:induction false} Pow2Grows(m: nat, n: nat)
    requires m <= n
    ensures 1 <= Pow2(m) <= Pow2(n)
    decreases n
  {
    if m < n { Pow2Grows(m, n - 1); } else if m > 0 { Pow2Grows(m - 1, n - 1); }
  }

  lemma Pow2At8()
    ensures Pow2(8) == 256 && Pow2(9) == 512
  {
    assert Pow2(4) == 16;
    assert Pow2(8) == 16 * Pow2(4);
  }

  lemma WaitBounds(attempt: nat)
    ensures 1 <= Backoff(attempt) <= 300
  {
    Pow2Grows(0, if attempt == 0 then 0 else attempt - 1);
  }

  /** One second at first, doubling up to the ninth attempt's 256, and five minutes from the tenth on. */
  lemma BackoffDoubles(attempt: nat)
    ensures Backoff(0) == Backoff(1) == 1 && Backoff(9) == 256
    ensures 1 <= attempt < 9 ==> Backoff(attempt + 1) == 2 * Backoff(attempt)
    ensures attempt >= 10 ==> Backoff(attempt) == 300
  {
    Pow2At8();
    if attempt >= 10 { Pow2Grows(9, attempt - 1); }
    if 1 <= attempt < 9 { Pow2Grows(attempt, 8); }
  }

  // ---------------------------------------------------------------- intake

  /** A job in river-service's queue, under the idempotency key it was enqueued with. */
  datatype Job = Job(key: RowId, req: Request)

  datatype Intake = Intake(jobs: map<JobId, Job>, byKey: map<RowId, JobId>, next: JobId, known: set<string>)

  datatype Answer = Accepted(job: JobId, duplicate: bool) | Unimplemented

  /** Enqueue: an unknown kind is refused, a repeated key returns the first call's job. */
  function Enqueue(i: Intake, key: RowId, req: Request): (Intake, Answer) {
    if req.kind !in i.known then (i, Unimplemented)
    else if key in i.byKey then (i, Accepted(i.byKey[key], true))
    else (i.(jobs := i.jobs[i.next := Job(key, req)], byKey := i.byKey[key := i.next], next := i.next + 1),
          Accepted(i.next, false))
  }

  ghost predicate IntakeInv(i: Intake) {
    && (forall j :: j in i.jobs ==> j < i.next && i.jobs[j].key in i.byKey && i.byKey[i.jobs[j].key] == j)
    && (forall k :: k in i.byKey ==> i.byKey[k] in i.jobs && i.jobs[i.byKey[k]].key == k)
  }

  // ---------------------------------------------------------------- state

  /** An insert that its application transaction has not committed yet. */
  datatype Pending = Pending(tx: TxId, row: Row)

  /**
   A relay pass: its transaction's start, the rows still to send, and whether an answer is awaited.
   Postgres' now() is the transaction's start, so every time a pass writes is startedAt-based.
   */
  datatype Pass = Pass(startedAt: int, todo: seq<RowId>, waiting: bool)

  datatype State = State(
    now: int,
    rows: map<RowId, Row>,            // committed job_outbox rows
    open: map<TxId, int>,             // open application transactions and their start
    pending: map<RowId, Pending>,     // their uncommitted inserts
    passes: map<PassId, Pass>,
    locks: map<RowId, PassId>,        // row locks the claims took
    writes: map<RowId, Row>,          // uncommitted updates of locked rows
    network: map<RowId, Request>,     // requests ever sent; any may arrive, and arrive again, at any time
    intake: Intake,
    used: set<RowId>)                 // ids handed out so far: a new row's id is fresh

  datatype Step =
    | Begin(tx: TxId)
    | Write(tx: TxId, id: RowId, req: Request, key: Option<string>)
    | Commit(tx: TxId)
    | Abort(tx: TxId)
    | Claim(pass: PassId, ids: seq<RowId>, limit: nat)
    | Send(pass: PassId)
    | Arrive(id: RowId)
    | AnswerOk(pass: PassId)
    | AnswerFail(pass: PassId)
    | PassCommit(pass: PassId)
    | PassCrash(pass: PassId)
    | Cleanup(retention: nat)
    | Tick(ms: nat)
    | Deploy(known: set<string>)

  ghost predicate IsInit(s: State) {
    s.rows == map[] && s.open == map[] && s.pending == map[] && s.passes == map[] && s.locks == map[]
    && s.writes == map[] && s.network == map[] && s.intake.jobs == map[] && s.intake.byKey == map[]
  }

  predicate Due(rows: map<RowId, Row>, id: RowId, at: int) {
    id in rows && rows[id].sentAt.None? && rows[id].nextAttemptAt <= at
  }

  predicate Earlier(a: Row, b: Row) {
    a.nextAttemptAt < b.nextAttemptAt || (a.nextAttemptAt == b.nextAttemptAt && a.createdAt <= b.createdAt)
  }

  predicate Distinct<T(==)>(s: seq<T>) {
    forall i, j :: 0 <= i < j < |s| ==> s[i] != s[j]
  }

  /** The claim query's answer: the earliest due rows nobody has locked, at most limit of them. */
  ghost predicate IsClaim(rows: map<RowId, Row>, locked: set<RowId>, at: int, ids: seq<RowId>, limit: nat) {
    && |ids| <= limit
    && Distinct(ids)
    && (forall k :: 0 <= k < |ids| ==> Due(rows, ids[k], at) && ids[k] !in locked)
    && (forall j, k :: 0 <= j < k < |ids| ==> Earlier(rows[ids[j]], rows[ids[k]]))
    && (forall id :: Due(rows, id, at) && id !in locked && id !in ids ==>
          |ids| == limit && forall k :: 0 <= k < |ids| ==> Earlier(rows[ids[k]], rows[id]))
  }

  /** The unique index sees the key on a committed row or on this transaction's own insert. */
  ghost predicate KeyTaken(s: State, tx: TxId, key: Option<string>) {
    key.Some? &&
    ((exists id :: id in s.rows && s.rows[id].dedupeKey == key)
     || exists id :: id in s.pending && s.pending[id].tx == tx && s.pending[id].row.dedupeKey == key)
  }

  /** Another open transaction holds the key: the insert waits until that one ends. */
  ghost predicate KeyBlocked(s: State, tx: TxId, key: Option<string>) {
    key.Some? && exists id :: id in s.pending && s.pending[id].tx != tx && s.pending[id].row.dedupeKey == key
  }

  predicate HasNext(s: State, p: PassId) {
    p in s.passes && s.passes[p].todo != [] && s.passes[p].todo[0] in s.rows
  }

  ghost predicate Enabled(s: State, step: Step) {
    match step
    case Begin(tx) => tx !in s.open
    case Write(tx, id, _, key) => tx in s.open && id !in s.used && !KeyBlocked(s, tx, key)
    case Commit(tx) => tx in s.open
    case Abort(tx) => tx in s.open
    case Claim(p, ids, limit) => p !in s.passes && IsClaim(s.rows, s.locks.Keys, s.now, ids, limit)
    case Send(p) => HasNext(s, p) && !s.passes[p].waiting
    case Arrive(id) => id in s.network
    case AnswerOk(p) => HasNext(s, p) && s.passes[p].waiting && s.passes[p].todo[0] in s.intake.byKey
    case AnswerFail(p) => HasNext(s, p)
    case PassCommit(p) => p in s.passes && s.passes[p].todo == []
    case PassCrash(p) => p in s.passes
    case Cleanup(_) => true
    case Tick(_) => true
    case Deploy(_) => true
  }

  function MarkSent(row: Row, at: int, job: JobId): Row {
    row.(sentAt := Some(at), jobId := Some(job))
  }

  function MarkFailed(row: Row, at: int): Row {
    row.(attempts := row.attempts + 1, nextAttemptAt := at + 1000 * Backoff(row.attempts + 1))
  }

  predicate Expired(row: Row, now: int, retention: nat) {
    row.sentAt.Some? && row.sentAt.value < now - retention
  }

  /** The rows a transaction inserts when it commits. */
  function Inserts(s: State, tx: TxId): map<RowId, Row> {
    map id | id in s.pending && s.pending[id].tx == tx :: s.pending[id].row
  }

  function Without(s: State, tx: TxId): map<RowId, Pending> {
    map id | id in s.pending && s.pending[id].tx != tx :: s.pending[id]
  }

  function OtherLocks(s: State, p: PassId): map<RowId, PassId> {
    map id | id in s.locks && s.locks[id] != p :: s.locks[id]
  }

  function OwnWrites(s: State, p: PassId): map<RowId, Row> {
    map id | id in s.writes && id in s.locks && s.locks[id] == p :: s.writes[id]
  }

  function OtherWrites(s: State, p: PassId): map<RowId, Row> {
    map id | id in s.writes && !(id in s.locks && s.locks[id] == p) :: s.writes[id]
  }

  ghost function DoWrite(s: State, tx: TxId, id: RowId, req: Request, key: Option<string>): State
    requires tx in s.open
  {
    if KeyTaken(s, tx, key) then s
    else s.(pending := s.pending[id := Pending(tx, NewRow(req, key, s.open[tx]))], used := s.used + {id})
  }

  function DoCommit(s: State, tx: TxId): State {
    s.(rows := s.rows + Inserts(s, tx), pending := Without(s, tx), open := s.open - {tx})
  }

  function DoAbort(s: State, tx: TxId): State {
    s.(pending := Without(s, tx), open := s.open - {tx})
  }

  function DoArrive(s: State, id: RowId): State
    requires id in s.network
  {
    s.(intake := Enqueue(s.intake, id, s.network[id]).0)
  }

  function DoClaim(s: State, p: PassId, ids: seq<RowId>): State {
    s.(passes := s.passes[p := Pass(s.now, ids, false)], locks := s.locks + map id | id in ids :: p)
  }

  function DoSend(s: State, p: PassId): State
    requires HasNext(s, p)
  {
    var id := s.passes[p].todo[0];
    s.(network := s.network[id := s.rows[id].req], passes := s.passes[p := s.passes[p].(waiting := true)])
  }

  /** Records the head row's outcome in the pass's transaction and leaves rest to send. */
  function DoRecord(s: State, p: PassId, row: Row, rest: seq<RowId>): State
    requires HasNext(s, p)
  {
    s.(writes := s.writes[s.passes[p].todo[0] := row],
       passes := s.passes[p := s.passes[p].(todo := rest, waiting := false)])
  }

  function SentHead(s: State, p: PassId): Row
    requires HasNext(s, p) && s.passes[p].todo[0] in s.intake.byKey
  {
    MarkSent(s.rows[s.passes[p].todo[0]], s.passes[p].startedAt, s.intake.byKey[s.passes[p].todo[0]])
  }

  function FailedHead(s: State, p: PassId): Row
    requires HasNext(s, p)
  {
    MarkFailed(s.rows[s.passes[p].todo[0]], s.passes[p].startedAt)
  }

  function EndPass(s: State, p: PassId, rows: map<RowId, Row>): State {
    s.(rows := rows, writes := OtherWrites(s, p), locks := OtherLocks(s, p), passes := s.passes - {p})
  }

  function Kept(s: State, retention: nat): map<RowId, Row> {
    map id | id in s.rows && !Expired(s.rows[id], s.now, retention) :: s.rows[id]
  }

  ghost function Apply(s: State, step: Step): State
    requires Enabled(s, step)
  {
    match step
    case Begin(tx) => s.(open := s.open[tx := s.now])
    case Write(tx, id, req, key) => DoWrite(s, tx, id, req, key)
    case Commit(tx) => DoCommit(s, tx)
    case Abort(tx) => DoAbort(s, tx)
    case Claim(p, ids, _) => DoClaim(s, p, ids)
    case Send(p) => DoSend(s, p)
    case Arrive(id) => DoArrive(s, id)
    case AnswerOk(p) => DoRecord(s, p, SentHead(s, p), s.passes[p].todo[1..])
    case AnswerFail(p) => DoRecord(s, p, FailedHead(s, p), [])
    case PassCommit(p) => EndPass(s, p, s.rows + OwnWrites(s, p))
    case PassCrash(p) => EndPass(s, p, s.rows)
    case Cleanup(retention) => s.(rows := Kept(s, retention))
    case Tick(ms) => s.(now := s.now + ms)
    case Deploy(known) => s.(intake := s.intake.(known := known))
  }

  ghost predicate Trace(s: State, steps: seq<Step>, t: State)
    decreases |steps|
  {
    if steps == [] then s == t
    else Enabled(s, steps[0]) && Trace(Apply(s, steps[0]), steps[1..], t)
  }

  // ---------------------------------------------------------------- invariant

  /** A row's delivery columns agree with the intake: sent exactly with its job's id. */
  predicate RowAgrees(row: Row, id: RowId, intake: Intake) {
    match row.sentAt
    case None => row.jobId.None?
    case Some(_) => id in intake.byKey && row.jobId == Some(intake.byKey[id])
  }

  ghost predicate RowsInv(rows: map<RowId, Row>, network: map<RowId, Request>, intake: Intake, used: set<RowId>) {
    && IntakeInv(intake)
    && (forall id :: id in rows ==> id in used && RowAgrees(rows[id], id, intake))
    && (forall id :: id in network ==>
          id in used && if id in rows then rows[id].req == network[id] else id in intake.byKey)
    && (forall id :: id in intake.byKey ==> id in network && intake.jobs[intake.byKey[id]].req == network[id])
  }

  ghost predicate PendingInv(pending: map<RowId, Pending>, open: map<TxId, int>, rows: map<RowId, Row>,
                             network: map<RowId, Request>, used: set<RowId>)
  {
    forall id :: id in pending ==>
      id in used && id !in rows && id !in network && pending[id].tx in open
      && pending[id].row.sentAt.None? && pending[id].row.jobId.None?
  }

  ghost predicate LocksInv(locks: map<RowId, PassId>, passes: map<PassId, Pass>, rows: map<RowId, Row>) {
    forall id :: id in locks ==> locks[id] in passes && id in rows && rows[id].sentAt.None?
  }

  ghost predicate WritesInv(writes: map<RowId, Row>, locks: map<RowId, PassId>, rows: map<RowId, Row>, intake: Intake) {
    forall id :: id in writes ==>
      id in locks && id in rows && writes[id].req == rows[id].req && writes[id].dedupeKey == rows[id].dedupeKey
      && RowAgrees(writes[id], id, intake)
  }

  ghost predicate TodoInv(p: PassId, pass: Pass, locks: map<RowId, PassId>, writes: map<RowId, Row>,
      network: map<RowId, Request>)
  {
    && Distinct(pass.todo)
    && (forall k :: 0 <= k < |pass.todo| ==>
          pass.todo[k] in locks && locks[pass.todo[k]] == p && pass.todo[k] !in writes)
    && (pass.waiting ==> pass.todo != [] && pass.todo[0] in network)
  }

  ghost predicate PassesInv(passes: map<PassId, Pass>, locks: map<RowId, PassId>, writes: map<RowId, Row>,
      network: map<RowId, Request>)
  {
    forall p :: p in passes ==> TodoInv(p, passes[p], locks, writes, network)
  }

  /** Rows kept or about to be inserted carry pairwise different dedupe keys. */
  ghost predicate KeysInv(rows: map<RowId, Row>, pending: map<RowId, Pending>) {
    && (forall a, b :: a in rows && b in rows && a != b ==> Differ(rows[a], rows[b]))
    && (forall a, b :: a in rows && b in pending ==> Differ(rows[a], pending[b].row))
    && (forall a, b :: a in pending && b in pending && a != b ==> Differ(pending[a].row, pending[b].row))
  }

  predicate Differ(a: Row, b: Row) {
    a.dedupeKey.Some? ==> a.dedupeKey != b.dedupeKey
  }

  ghost predicate Inv(s: State) {
    && RowsInv(s.rows, s.network, s.intake, s.used)
    && PendingInv(s.pending, s.open, s.rows, s.network, s.used)
    && LocksInv(s.locks, s.passes, s.rows)
    && WritesInv(s.writes, s.locks, s.rows, s.intake)
    && PassesInv(s.passes, s.locks, s.writes, s.network)
    && KeysInv(s.rows, s.pending)
  }

  lemma EnqueueKeeps(i: Intake, key: RowId, req: Request)
    requires IntakeInv(i)
    ensures IntakeInv(Enqueue(i, key, req).0)
    ensures forall k :: k in i.byKey ==>
            k in Enqueue(i, key, req).0.byKey && Enqueue(i, key, req).0.byKey[k] == i.byKey[k]
    ensures forall j :: j in i.jobs ==> j in Enqueue(i, key, req).0.jobs && Enqueue(i, key, req).0.jobs[j] == i.jobs[j]
  {
  }

  lemma WriteKeepsInv(s: State, tx: TxId, id: RowId, req: Request, key: Option<string>)
    requires Inv(s) && Enabled(s, Write(tx, id, req, key))
    ensures Inv(DoWrite(s, tx, id, req, key))
  {
    if KeyTaken(s, tx, key) { return; }
    var t := DoWrite(s, tx, id, req, key);
    var row := NewRow(req, key, s.open[tx]);
    assert forall a :: a in s.rows ==> Differ(s.rows[a], row);
    assert forall b :: b in s.pending ==> Differ(s.pending[b].row, row) && Differ(row, s.pending[b].row);
    assert PendingInv(t.pending, t.open, t.rows, t.network, t.used);
    assert KeysInv(t.rows, t.pending);
  }

  lemma CommitKeepsInv(s: State, tx: TxId)
    requires Inv(s) && tx in s.open
    ensures Inv(DoCommit(s, tx))
  {
  }

  lemma AbortKeepsInv(s: State, tx: TxId)
    requires Inv(s) && tx in s.open
    ensures Inv(DoAbort(s, tx))
  {
  }

  lemma ClaimKeepsPasses(passes: map<PassId, Pass>, locks: map<RowId, PassId>, writes: map<RowId, Row>,
                         network: map<RowId, Request>, p: PassId, ids: seq<RowId>, at: int)
    requires PassesInv(passes, locks, writes, network) && p !in passes && writes.Keys <= locks.Keys
    requires Distinct(ids) && forall k :: 0 <= k < |ids| ==> ids[k] !in locks
    ensures PassesInv(passes[p := Pass(at, ids, false)], locks + (map id | id in ids :: p), writes, network)
  {
    var locks' := locks + (map id | id in ids :: p);
    forall q | q in passes ensures TodoInv(q, passes[q], locks', writes, network) {
      assert TodoInv(q, passes[q], locks, writes, network);
    }
    assert TodoInv(p, Pass(at, ids, false), locks', writes, network);
  }

  lemma ClaimKeepsInv(s: State, p: PassId, ids: seq<RowId>)
    requires Inv(s) && p !in s.passes && Distinct(ids)
    requires forall k :: 0 <= k < |ids| ==> ids[k] in s.rows && s.rows[ids[k]].sentAt.None? && ids[k] !in s.locks
    ensures Inv(DoClaim(s, p, ids))
  {
    ClaimKeepsPasses(s.passes, s.locks, s.writes, s.network, p, ids, s.now);
    ClaimKeepsLocks(s.locks, s.passes, s.rows, p, ids, s.now);
    ClaimKeepsWrites(s.writes, s.locks, s.locks + (map id | id in ids :: p), s.rows, s.intake);
  }

  lemma ClaimKeepsLocks(locks: map<RowId, PassId>, passes: map<PassId, Pass>, rows: map<RowId, Row>,
                        p: PassId, ids: seq<RowId>, at: int)
    requires LocksInv(locks, passes, rows)
    requires forall k :: 0 <= k < |ids| ==> ids[k] in rows && rows[ids[k]].sentAt.None?
    ensures LocksInv(locks + (map id | id in ids :: p), passes[p := Pass(at, ids, false)], rows)
  {
  }

  lemma ClaimKeepsWrites(writes: map<RowId, Row>, locks: map<RowId, PassId>, locks': map<RowId, PassId>,
                         rows: map<RowId, Row>, intake: Intake)
    requires WritesInv(writes, locks, rows, intake) && locks.Keys <= locks'.Keys
    ensures WritesInv(writes, locks', rows, intake)
  {
  }

  lemma SendKeepsInv(s: State, p: PassId)
    requires Inv(s) && HasNext(s, p) && !s.passes[p].waiting
    ensures Inv(DoSend(s, p))
  {
  }

  lemma AnswerKeepsPasses(passes: map<PassId, Pass>, locks: map<RowId, PassId>, writes: map<RowId, Row>,
                          network: map<RowId, Request>, p: PassId, row: Row, rest: seq<RowId>)
    requires PassesInv(passes, locks, writes, network) && p in passes && passes[p].todo != []
    requires rest == passes[p].todo[1..] || rest == []
    ensures PassesInv(passes[p := passes[p].(todo := rest, waiting := false)], locks, writes[passes[p].todo[0] := row],
            network)
  {
    var id := passes[p].todo[0];
    assert TodoInv(p, passes[p], locks, writes, network);
    forall q | q in passes && q != p ensures TodoInv(q, passes[q], locks, writes[id := row], network) {
      assert TodoInv(q, passes[q], locks, writes, network);
    }
    forall k | 0 <= k < |rest| ensures rest[k] in locks && locks[rest[k]] == p && rest[k] !in writes[id := row] {
      assert rest[k] == passes[p].todo[k + 1];
    }
  }

  lemma RecordKeepsInv(s: State, p: PassId, row: Row, rest: seq<RowId>)
    requires Inv(s) && HasNext(s, p) && (rest == s.passes[p].todo[1..] || rest == [])
    requires var id := s.passes[p].todo[0];
             row.req == s.rows[id].req && row.dedupeKey == s.rows[id].dedupeKey && RowAgrees(row, id, s.intake)
    ensures Inv(DoRecord(s, p, row, rest))
  {
    AnswerKeepsPasses(s.passes, s.locks, s.writes, s.network, p, row, rest);
    assert TodoInv(p, s.passes[p], s.locks, s.writes, s.network);
  }

  lemma ArriveKeepsInv(s: State, id: RowId)
    requires Inv(s) && id in s.network
    ensures Inv(DoArrive(s, id))
  {
    EnqueueKeeps(s.intake, id, s.network[id]);
  }

  lemma EndKeepsPasses(s: State, p: PassId)
    requires Inv(s) && p in s.passes
    ensures PassesInv(s.passes - {p}, OtherLocks(s, p), OtherWrites(s, p), s.network)
  {
    forall q | q in s.passes && q != p ensures TodoInv(q, s.passes[q], OtherLocks(s, p), OtherWrites(s, p), s.network) {
      assert TodoInv(q, s.passes[q], s.locks, s.writes, s.network);
    }
  }

  /** What a commit of updates changes: delivery columns only, and they agree with the intake. */
  lemma UpdatesKeepRows(rows: map<RowId, Row>, own: map<RowId, Row>, network: map<RowId, Request>, intake: Intake,
                        used: set<RowId>, pending: map<RowId, Pending>, open: map<TxId, int>)
    requires RowsInv(rows, network, intake, used) && PendingInv(pending, open, rows, network, used)
             && KeysInv(rows, pending)
    requires forall id :: id in own ==>
               id in rows && own[id].req == rows[id].req && own[id].dedupeKey == rows[id].dedupeKey
                 && RowAgrees(own[id], id, intake)
    ensures RowsInv(rows + own, network, intake, used) && PendingInv(pending, open, rows + own, network, used)
    ensures KeysInv(rows + own, pending)
  {
    var rows' := rows + own;
    assert rows'.Keys == rows.Keys;
    forall a | a in rows' ensures rows'[a].dedupeKey == rows[a].dedupeKey && rows'[a].req == rows[a].req {}
    forall a, b | a in rows' && b in rows' && a != b ensures Differ(rows'[a], rows'[b]) {
      assert Differ(rows[a], rows[b]);
    }
  }

  /** The locks and updates of the other passes survive: they belong to rows this pass does not touch. */
  lemma EndKeepsLocks(s: State, p: PassId)
    requires Inv(s) && p in s.passes
    ensures LocksInv(OtherLocks(s, p), s.passes - {p}, s.rows + OwnWrites(s, p))
    ensures LocksInv(OtherLocks(s, p), s.passes - {p}, s.rows)
  {
  }

  lemma EndKeepsWrites(s: State, p: PassId)
    requires Inv(s) && p in s.passes
    ensures WritesInv(OtherWrites(s, p), OtherLocks(s, p), s.rows + OwnWrites(s, p), s.intake)
    ensures WritesInv(OtherWrites(s, p), OtherLocks(s, p), s.rows, s.intake)
  {
    forall id | id in OtherWrites(s, p)
      ensures id in OtherLocks(s, p) && id !in OwnWrites(s, p) && id in s.rows
    {
    }
  }

  lemma PassCommitKeepsInv(s: State, p: PassId)
    requires Inv(s) && p in s.passes
    ensures Inv(EndPass(s, p, s.rows + OwnWrites(s, p)))
  {
    EndKeepsPasses(s, p);
    EndKeepsLocks(s, p);
    EndKeepsWrites(s, p);
    OwnWritesAgree(s, p);
    UpdatesKeepRows(s.rows, OwnWrites(s, p), s.network, s.intake, s.used, s.pending, s.open);
  }

  lemma OwnWritesAgree(s: State, p: PassId)
    requires Inv(s)
    ensures forall id :: id in OwnWrites(s, p) ==>
              id in s.rows && OwnWrites(s, p)[id].req == s.rows[id].req
              && OwnWrites(s, p)[id].dedupeKey == s.rows[id].dedupeKey && RowAgrees(OwnWrites(s, p)[id], id, s.intake)
  {
  }

  lemma PassCrashKeepsInv(s: State, p: PassId)
    requires Inv(s) && p in s.passes
    ensures Inv(EndPass(s, p, s.rows))
  {
    EndKeepsPasses(s, p);
    EndKeepsLocks(s, p);
    EndKeepsWrites(s, p);
  }

  lemma CleanupKeepsInv(s: State, retention: nat)
    requires Inv(s)
    ensures Inv(s.(rows := Kept(s, retention)))
  {
  }

  lemma StepKeepsInv(s: State, step: Step)
    requires Inv(s) && Enabled(s, step)
    ensures Inv(Apply(s, step))
  {
    match step
    case Begin(_) =>
    case Write(tx, id, req, key) => WriteKeepsInv(s, tx, id, req, key);
    case Commit(tx) => CommitKeepsInv(s, tx);
    case Abort(tx) => AbortKeepsInv(s, tx);
    case Claim(p, ids, limit) => ClaimKeepsInv(s, p, ids);
    case Send(p) => SendKeepsInv(s, p);
    case Arrive(id) => ArriveKeepsInv(s, id);
    case AnswerOk(p) => RecordKeepsInv(s, p, SentHead(s, p), s.passes[p].todo[1..]);
    case AnswerFail(p) => RecordKeepsInv(s, p, FailedHead(s, p), []);
    case PassCommit(p) => PassCommitKeepsInv(s, p);
    case PassCrash(p) => PassCrashKeepsInv(s, p);
    case Cleanup(retention) => CleanupKeepsInv(s, retention);
    case Tick(_) =>
    case Deploy(_) =>
  }

  // ---------------------------------------------------------------- refinement of a plain queue

  /** The queue as its users see it: every job, and every row that has yet to become one. */
  ghost function Queue(rows: map<RowId, Row>, intake: Intake): map<RowId, Request>
    requires IntakeInv(intake)
  {
    map id | id in rows.Keys + intake.byKey.Keys ::
      if id in intake.byKey then intake.jobs[intake.byKey[id]].req else rows[id].req
  }

  ghost function View(s: State): map<RowId, Request>
    requires IntakeInv(s.intake)
  {
    Queue(s.rows, s.intake)
  }

  /** What a step adds to the plain queue: a commit its inserts, any other step nothing. */
  ghost function Added(s: State, step: Step): map<RowId, Request> {
    if step.Commit? then Requests(Inserts(s, step.tx)) else map[]
  }

  function Requests(rows: map<RowId, Row>): map<RowId, Request> {
    map id | id in rows :: rows[id].req
  }

  lemma ArriveKeepsQueue(rows: map<RowId, Row>, network: map<RowId, Request>, intake: Intake, used: set<RowId>,
      id: RowId)
    requires RowsInv(rows, network, intake, used) && id in network
    ensures IntakeInv(Enqueue(intake, id, network[id]).0)
    ensures Queue(rows, Enqueue(intake, id, network[id]).0) == Queue(rows, intake)
  {
    EnqueueKeeps(intake, id, network[id]);
  }

  lemma UpdatesKeepQueue(rows: map<RowId, Row>, own: map<RowId, Row>, intake: Intake)
    requires IntakeInv(intake) && forall id :: id in own ==> id in rows && own[id].req == rows[id].req
    ensures Queue(rows + own, intake) == Queue(rows, intake)
  {
    assert (rows + own).Keys == rows.Keys;
  }

  lemma CleanupKeepsQueue(rows: map<RowId, Row>, kept: map<RowId, Row>, intake: Intake)
    requires IntakeInv(intake)
    requires forall id :: id in rows ==> if id in kept then kept[id] == rows[id] else id in intake.byKey
    requires kept.Keys <= rows.Keys
    ensures Queue(kept, intake) == Queue(rows, intake)
  {
  }

  lemma InsertsGrowQueue(rows: map<RowId, Row>, inserts: map<RowId, Row>, intake: Intake)
    requires IntakeInv(intake) && inserts.Keys !! rows.Keys && inserts.Keys !! intake.byKey.Keys
    ensures Requests(inserts).Keys !! Queue(rows, intake).Keys
    ensures Queue(rows + inserts, intake) == Queue(rows, intake) + Requests(inserts)
  {
  }

  lemma CommitAddsToQueue(s: State, tx: TxId)
    requires Inv(s)
    ensures Requests(Inserts(s, tx)).Keys !! View(s).Keys
    ensures Queue(s.rows + Inserts(s, tx), s.intake) == View(s) + Requests(Inserts(s, tx))
  {
    assert forall id :: id in Inserts(s, tx) ==> id !in s.rows && id !in s.network;
    InsertsGrowQueue(s.rows, Inserts(s, tx), s.intake);
  }

  /** Only these five steps touch what the queue is read from. */
  lemma QuietStep(s: State, step: Step)
    requires Enabled(s, step)
    requires !step.Commit? && !step.Arrive? && !step.PassCommit? && !step.Cleanup? && !step.Deploy?
    ensures Apply(s, step).rows == s.rows && Apply(s, step).intake == s.intake
  {
  }

  lemma StepRefinesQueue(s: State, step: Step)
    requires Inv(s) && Enabled(s, step)
    ensures Inv(Apply(s, step))
    ensures Added(s, step).Keys !! View(s).Keys
    ensures View(Apply(s, step)) == View(s) + Added(s, step)
  {
    StepKeepsInv(s, step);
    match step {
      case Commit(tx) => CommitAddsToQueue(s, tx);
      case Arrive(id) => ArriveKeepsQueue(s.rows, s.network, s.intake, s.used, id);
      case PassCommit(p) => UpdatesKeepQueue(s.rows, OwnWrites(s, p), s.intake);
      case Cleanup(retention) => CleanupKeepsQueue(s.rows, Kept(s, retention), s.intake);
      case Deploy(_) =>
      case _ => QuietStep(s, step);
    }
    PlusEmpty(View(s));
  }

  lemma InitIsEmpty(s: State)
    requires IsInit(s)
    ensures Inv(s) && View(s) == map[]
  {
  }

  lemma PlusEmpty<K, V>(a: map<K, V>)
    ensures a + map[] == a && map[] + a == a
  {
  }

  ghost function AddedBy(s: State, steps: seq<Step>, t: State): map<RowId, Request>
    requires Trace(s, steps, t)
    decreases |steps|
  {
    if steps == [] then map[] else Added(s, steps[0]) + AddedBy(Apply(s, steps[0]), steps[1..], t)
  }

  lemma {:induction false} RunRefinesQueue(s: State, steps: seq<Step>, t: State)
    requires Inv(s) && Trace(s, steps, t)
    ensures Inv(t) && View(t) == View(s) + AddedBy(s, steps, t)
    decreases |steps|
  {
    if steps == [] {
      assert View(s) + map[] == View(s);
    } else {
      var u := Apply(s, steps[0]);
      StepRefinesQueue(s, steps[0]);
      RunRefinesQueue(u, steps[1..], t);
      PlusAssociates(View(s), Added(s, steps[0]), AddedBy(u, steps[1..], t));
    }
  }

  lemma PlusAssociates<K, V>(a: map<K, V>, b: map<K, V>, c: map<K, V>)
    ensures (a + b) + c == a + (b + c)
  {
  }

  /** In every run from an empty database: the queue holds exactly what was committed, however it was delivered. */
  lemma OutboxRefinesQueue(s: State, steps: seq<Step>, t: State)
    requires IsInit(s) && Trace(s, steps, t)
    ensures Inv(t) && View(t) == AddedBy(s, steps, t)
  {
    InitIsEmpty(s);
    RunRefinesQueue(s, steps, t);
    PlusEmpty(AddedBy(s, steps, t));
  }

  /** Rows that no request has turned into a job yet. */
  ghost function Undelivered(s: State): set<RowId> {
    set id | id in s.rows && id !in s.intake.byKey
  }

  lemma {:induction false} JobsMatchKeys(i: Intake, jobs: set<JobId>)
    requires IntakeInv(i) && jobs <= i.jobs.Keys
    ensures |set j | j in jobs :: i.jobs[j].key| == |jobs|
    decreases jobs
  {
    if jobs != {} {
      var j :| j in jobs;
      JobsMatchKeys(i, jobs - {j});
      assert (set k | k in jobs :: i.jobs[k].key) == (set k | k in jobs - {j} :: i.jobs[k].key) + {i.jobs[j].key};
    }
  }

  lemma SplitQueue(rows: map<RowId, Row>, intake: Intake)
    requires IntakeInv(intake)
    ensures var undelivered := set id | id in rows && id !in intake.byKey;
            Queue(rows, intake).Keys == undelivered + intake.byKey.Keys
            && |Queue(rows, intake)| == |undelivered| + |intake.byKey.Keys|
  {
    var undelivered := set id | id in rows && id !in intake.byKey;
    assert Queue(rows, intake).Keys == undelivered + intake.byKey.Keys;
    assert |Queue(rows, intake)| == |Queue(rows, intake).Keys|;
  }

  lemma JobsEqualKeys(i: Intake)
    requires IntakeInv(i)
    ensures |i.jobs| == |i.byKey.Keys|
  {
    JobsMatchKeys(i, i.jobs.Keys);
    assert (set j | j in i.jobs.Keys :: i.jobs[j].key) == i.byKey.Keys;
  }

  lemma SentRowsHaveJobs(s: State)
    requires Inv(s)
    ensures IntakeInv(s.intake)
    ensures forall id :: id in s.rows && s.rows[id].sentAt.Some? ==>
              && s.rows[id].jobId.Some? && s.rows[id].jobId.value in s.intake.jobs
              && s.intake.jobs[s.rows[id].jobId.value] == Job(id, s.rows[id].req)
  {
    hide PendingInv;
    hide LocksInv;
    hide WritesInv;
    hide PassesInv;
    hide KeysInv;
  }

  /**
   Each committed row yields at most one job, each job comes from exactly one committed row and carries its
   request, a row marked sent has its job, and committed rows = undelivered rows + jobs, whatever aborted,
   crashed, was lost, refused, replayed or deleted by retention on the way.
   */
  lemma ExactlyOnce(s: State, steps: seq<Step>, t: State)
    requires IsInit(s) && Trace(s, steps, t)
    ensures var committed := AddedBy(s, steps, t);
            && (forall j :: j in t.intake.jobs ==>
                  t.intake.jobs[j].key in committed && t.intake.jobs[j].req == committed[t.intake.jobs[j].key])
            && (forall j, k ::
                  j in t.intake.jobs && k in t.intake.jobs && t.intake.jobs[j].key == t.intake.jobs[k].key ==> j == k)
            && (forall id :: id in t.rows && t.rows[id].sentAt.Some? ==>
                  t.rows[id].jobId.Some? && t.rows[id].jobId.value in t.intake.jobs
                  && t.intake.jobs[t.rows[id].jobId.value] == Job(id, t.rows[id].req))
            && committed.Keys == Undelivered(t) + t.intake.byKey.Keys
            && |committed| == |Undelivered(t)| + |t.intake.jobs|
  {
    hide Inv;
    hide Trace;
    OutboxRefinesQueue(s, steps, t);
    SentRowsHaveJobs(t);
    SplitQueue(t.rows, t.intake);
    JobsEqualKeys(t.intake);
  }

  /** Jobs and the keys that led to them stay. */
  ghost predicate IntakeGrows(i: Intake, j: Intake) {
    && (forall key :: key in i.byKey ==> key in j.byKey && j.byKey[key] == i.byKey[key])
    && (forall job :: job in i.jobs ==> job in j.jobs && j.jobs[job] == i.jobs[job])
  }

  lemma StepGrowsIntake(s: State, step: Step)
    requires IntakeInv(s.intake) && Enabled(s, step)
    ensures IntakeGrows(s.intake, Apply(s, step).intake) && IntakeInv(Apply(s, step).intake)
  {
    match step
    case Arrive(id) => EnqueueKeeps(s.intake, id, s.network[id]);
    case Deploy(_) =>
    case Write(tx, id, req, key) => assert DoWrite(s, tx, id, req, key).intake == s.intake;
    case _ =>
  }

  lemma {:induction false} RunGrowsIntake(s: State, steps: seq<Step>, t: State)
    requires IntakeInv(s.intake) && Trace(s, steps, t)
    ensures IntakeGrows(s.intake, t.intake)
    decreases |steps|
  {
    hide Apply;
    hide Enabled;
    hide IntakeInv;
    if steps != [] {
      StepGrowsIntake(s, steps[0]);
      RunGrowsIntake(Apply(s, steps[0]), steps[1..], t);
    }
  }

  /**
   However long after and whatever came between: a request delivered again under a key that once made a job
   gets that job, flagged as a duplicate, and changes nothing.
   */
  lemma EnqueueAgain(s: State, id: RowId, steps: seq<Step>, t: State, again: Request)
    requires IntakeInv(s.intake) && Enabled(s, Arrive(id)) && Trace(Apply(s, Arrive(id)), steps, t)
    requires s.network[id].kind in s.intake.known && again.kind in t.intake.known
    ensures var first := Enqueue(s.intake, id, s.network[id]).1;
            && first.Accepted? && (first.duplicate <==> id in s.intake.byKey)
            && Enqueue(t.intake, id, again) == (t.intake, Accepted(first.job, true))
  {
    StepGrowsIntake(s, Arrive(id));
    RunGrowsIntake(Apply(s, Arrive(id)), steps, t);
    hide Trace;
  }

  /** While a row with the key is kept or about to be, a keyed write is dropped or waits: one row per key. */
  lemma OneRowPerKey(s: State, steps: seq<Step>, t: State, a: RowId, b: RowId)
    requires IsInit(s) && Trace(s, steps, t)
    requires a in t.rows && b in t.rows && t.rows[a].dedupeKey.Some? && t.rows[a].dedupeKey == t.rows[b].dedupeKey
    ensures a == b
  {
    OutboxRefinesQueue(s, steps, t);
    assert KeysInv(t.rows, t.pending);
  }

  // ---------------------------------------------------------------- what the statements do

  /** A write waits for another open transaction's insert under its key, and for nothing else. */
  lemma WriteEnabledIff(s: State, tx: TxId, id: RowId, req: Request, key: Option<string>)
    requires tx in s.open && id !in s.used
    ensures Enabled(s, Write(tx, id, req, key)) <==>
            key.None? || forall a :: a in s.pending && s.pending[a].row.dedupeKey == key ==> s.pending[a].tx == tx
  {
  }

  /** The key is on a committed row, or on a row tx is about to commit. */
  ghost predicate Carried(s: State, tx: TxId, key: string) {
    || (exists a :: a in s.rows && s.rows[a].dedupeKey == Some(key))
    || (exists a :: a in s.pending && s.pending[a].tx == tx && s.pending[a].row.dedupeKey == Some(key))
  }

  /** The write inserts the row, due at once: unless its key is carried, and then it changes nothing. */
  lemma WriteInserts(s: State, tx: TxId, id: RowId, req: Request, key: Option<string>)
    requires Enabled(s, Write(tx, id, req, key))
    ensures var t, at := Apply(s, Write(tx, id, req, key)), s.open[tx];
            && t.rows == s.rows && t.open == s.open
            && (key.Some? ==> Carried(t, tx, key.value))
            && (key.Some? && Carried(s, tx, key.value) ==> t == s)
            && (key.None? || !Carried(s, tx, key.value) ==>
                  t.pending == s.pending[id := Pending(tx, Row(req, key, at, at, 0, None, None))])
  {
    if key.Some? && !Carried(s, tx, key.value) {
      assert Apply(s, Write(tx, id, req, key)).pending[id].row.dedupeKey == key;
    }
  }

  /** Neither the end of the transaction, nor a cleanup that deletes a row with the key. */
  ghost predicate Spares(s: State, step: Step, key: string) {
    step.Cleanup? ==> forall a :: a in s.rows && s.rows[a].dedupeKey == Some(key) && s.rows[a].sentAt.Some? ==>
                        s.rows[a].sentAt.value >= s.now - step.retention
  }

  ghost predicate SparesAll(s: State, steps: seq<Step>, key: string, t: State)
    requires Trace(s, steps, t)
    decreases |steps|
  {
    steps != [] ==> Spares(s, steps[0], key) && SparesAll(Apply(s, steps[0]), steps[1..], key, t)
  }

  predicate Ends(step: Step, tx: TxId) {
    step == Commit(tx) || step == Abort(tx)
  }

  /** Only its own end takes an insert or the start away from a transaction. */
  lemma PendingStays(s: State, step: Step, tx: TxId)
    requires Inv(s) && Enabled(s, step) && tx in s.open && !Ends(step, tx)
    ensures var t := Apply(s, step);
            && tx in t.open && t.open[tx] == s.open[tx]
            && forall a :: a in s.pending && s.pending[a].tx == tx ==> a in t.pending && t.pending[a] == s.pending[a]
  {
    hide RowsInv;
    hide LocksInv;
    hide WritesInv;
    hide PassesInv;
    hide KeysInv;
    hide IsClaim;
    hide KeyTaken;
    hide KeyBlocked;
    match step
    case Begin(_) =>
    case Write(_, _, _, _) =>
    case Commit(_) =>
    case Abort(_) =>
    case Send(_) =>
    case AnswerOk(_) =>
    case AnswerFail(_) =>
    case _ =>
  }

  /** A committed row keeps its request and its key until a cleanup deletes it. */
  lemma RowStays(s: State, step: Step, a: RowId)
    requires Inv(s) && Enabled(s, step) && a in s.rows
    requires step.Cleanup? && s.rows[a].sentAt.Some? ==> s.rows[a].sentAt.value >= s.now - step.retention
    ensures var t := Apply(s, step);
            a in t.rows && t.rows[a].req == s.rows[a].req && t.rows[a].dedupeKey == s.rows[a].dedupeKey
  {
    hide Inv;
    hide Enabled;
    match step
    case Commit(tx) => CommitLeavesRow(s, tx, a);
    case PassCommit(p) => UpdateLeavesRow(s, p, a);
    case Cleanup(_) =>
    case PassCrash(_) =>
    case Arrive(_) =>
    case Deploy(_) =>
    case _ => QuietStep(s, step);
  }

  lemma CommitLeavesRow(s: State, tx: TxId, a: RowId)
    requires Inv(s) && a in s.rows
    ensures a in DoCommit(s, tx).rows && DoCommit(s, tx).rows[a] == s.rows[a]
  {
    assert a !in s.pending by { assert PendingInv(s.pending, s.open, s.rows, s.network, s.used); }
    hide Inv;
  }

  lemma UpdateLeavesRow(s: State, p: PassId, a: RowId)
    requires Inv(s) && a in s.rows
    ensures var rows := s.rows + OwnWrites(s, p);
            a in rows && rows[a].req == s.rows[a].req && rows[a].dedupeKey == s.rows[a].dedupeKey
  {
    OwnWritesAgree(s, p);
    hide Inv;
  }

  /** A key that is carried stays so, but for its transaction's end and for cleanups. */
  lemma {:induction false} CarriedStays(s: State, steps: seq<Step>, t: State, tx: TxId, key: string)
    requires Inv(s) && Trace(s, steps, t) && SparesAll(s, steps, key, t) && tx in s.open && Carried(s, tx, key)
    requires forall step :: step in steps ==> !Ends(step, tx)
    ensures Inv(t) && tx in t.open && t.open[tx] == s.open[tx] && Carried(t, tx, key)
    decreases |steps|
  {
    hide Inv;
    hide Apply;
    hide Enabled;
    if steps != [] {
      var step, u := steps[0], Apply(s, steps[0]);
      assert step in steps && forall next :: next in steps[1..] ==> next in steps;
      StepKeepsInv(s, step);
      PendingStays(s, step, tx);
      if a :| a in s.rows && s.rows[a].dedupeKey == Some(key) {
        RowStays(s, step, a);
      }
      CarriedStays(u, steps[1..], t, tx, key);
    }
  }

  lemma {:induction false} PendingStaysAlong(s: State, steps: seq<Step>, t: State, tx: TxId, a: RowId)
    requires Inv(s) && Trace(s, steps, t) && tx in s.open && forall step :: step in steps ==> !Ends(step, tx)
    requires a in s.pending && s.pending[a].tx == tx
    ensures Inv(t) && tx in t.open && a in t.pending && t.pending[a] == s.pending[a]
    decreases |steps|
  {
    hide Inv;
    hide Apply;
    hide Enabled;
    if steps != [] {
      assert steps[0] in steps && forall next :: next in steps[1..] ==> next in steps;
      StepKeepsInv(s, steps[0]);
      PendingStays(s, steps[0], tx);
      PendingStaysAlong(Apply(s, steps[0]), steps[1..], t, tx, a);
    }
  }

  lemma {:induction false} ViewStays(s: State, steps: seq<Step>, t: State, id: RowId)
    requires Inv(s) && Trace(s, steps, t) && id in View(s)
    ensures Inv(t) && id in View(t) && View(t)[id] == View(s)[id]
    decreases |steps|
  {
    hide Apply;
    hide Enabled;
    hide Queue;
    if steps != [] {
      StepRefinesQueue(s, steps[0]);
      ViewStays(Apply(s, steps[0]), steps[1..], t, id);
    }
  }

  /** Committed, a transaction's insert is a row, and its request is queued from then on. */
  lemma CommitQueues(s: State, tx: TxId, a: RowId, later: seq<Step>, t: State)
    requires Inv(s) && tx in s.open && a in s.pending && s.pending[a].tx == tx
    requires Trace(Apply(s, Commit(tx)), later, t)
    ensures a in Apply(s, Commit(tx)).rows && Apply(s, Commit(tx)).rows[a] == s.pending[a].row
    ensures Inv(t) && a in View(t) && View(t)[a] == s.pending[a].row.req
  {
    var u := Apply(s, Commit(tx));
    assert a !in s.network && a !in s.intake.byKey;
    StepKeepsInv(s, Commit(tx));
    assert View(u)[a] == s.pending[a].row.req;
    hide Inv;
    hide Apply;
    ViewStays(u, later, t, a);
  }

  /**
   A write nothing carries the key of yet, or without a key: once its transaction commits, whatever came between,
   the row is there as written, due at the transaction's start, and its request is queued for ever.
   */
  lemma WrittenIsQueued(s: State, tx: TxId, id: RowId, req: Request, key: Option<string>, steps: seq<Step>, u: State,
                        later: seq<Step>, t: State)
    requires Inv(s) && Enabled(s, Write(tx, id, req, key)) && (key.Some? ==> !Carried(s, tx, key.value))
    requires Trace(Apply(s, Write(tx, id, req, key)), steps, u) && forall step :: step in steps ==> !Ends(step, tx)
    requires Enabled(u, Commit(tx)) && Trace(Apply(u, Commit(tx)), later, t)
    ensures var done := Apply(u, Commit(tx)).rows;
            id in done && done[id] == Row(req, key, s.open[tx], s.open[tx], 0, None, None)
    ensures Inv(t) && id in View(t) && View(t)[id] == req
  {
    var w := Apply(s, Write(tx, id, req, key));
    StepKeepsInv(s, Write(tx, id, req, key));
    WriteInserts(s, tx, id, req, key);
    hide Inv;
    hide Apply;
    hide Enabled;
    hide Carried;
    PendingStaysAlong(w, steps, u, tx, id);
    CommitQueues(u, tx, id, later, t);
  }

  lemma WriterIsOpen(s: State, tx: TxId, id: RowId, req: Request, key: Option<string>)
    requires Enabled(s, Write(tx, id, req, key))
    ensures tx in s.open
  {
  }

  lemma CommitCarries(s: State, tx: TxId, key: string)
    requires Inv(s) && tx in s.open && Carried(s, tx, key)
    ensures exists a :: a in Apply(s, Commit(tx)).rows && Apply(s, Commit(tx)).rows[a].dedupeKey == Some(key)
  {
    hide Inv;
    var t := Apply(s, Commit(tx));
    if a :| a in s.rows && s.rows[a].dedupeKey == Some(key) {
      assert Inv(s);
      RowStays(s, Commit(tx), a);
      assert a in t.rows;
    } else {
      var a :| a in s.pending && s.pending[a].tx == tx && s.pending[a].row.dedupeKey == Some(key);
      assert t.rows[a] == s.pending[a].row;
    }
  }

  lemma {:induction false} KeyStays(s: State, steps: seq<Step>, t: State, key: string, a: RowId)
    requires Inv(s) && Trace(s, steps, t) && SparesAll(s, steps, key, t)
    requires a in s.rows && s.rows[a].dedupeKey == Some(key)
    ensures Inv(t) && a in t.rows && t.rows[a].dedupeKey == Some(key)
    decreases |steps|
  {
    hide Inv;
    hide Apply;
    hide Enabled;
    if steps != [] {
      StepKeepsInv(s, steps[0]);
      RowStays(s, steps[0], a);
      KeyStays(Apply(s, steps[0]), steps[1..], t, key, a);
    }
  }

  /**
   A write under a key, inserted or dropped: once its transaction commits, exactly one kept row carries the key,
   until a cleanup deletes it.
   */
  lemma KeyedWriteLeavesOne(s: State, tx: TxId, id: RowId, req: Request, key: string, steps: seq<Step>, u: State,
                            later: seq<Step>, t: State)
    requires Inv(s) && Enabled(s, Write(tx, id, req, Some(key)))
    requires Trace(Apply(s, Write(tx, id, req, Some(key))), steps, u) && forall step :: step in steps ==>
             !Ends(step, tx)
    requires SparesAll(Apply(s, Write(tx, id, req, Some(key))), steps, key, u)
    requires Enabled(u, Commit(tx)) && Trace(Apply(u, Commit(tx)), later, t)
    requires SparesAll(Apply(u, Commit(tx)), later, key, t)
    ensures |set a | a in t.rows && t.rows[a].dedupeKey == Some(key)| == 1
  {
    hide *;
    var w, v := Apply(s, Write(tx, id, req, Some(key))), Apply(u, Commit(tx));
    StepKeepsInv(s, Write(tx, id, req, Some(key)));
    WriteInserts(s, tx, id, req, Some(key));
    WriterIsOpen(s, tx, id, req, Some(key));
    CarriedStays(w, steps, u, tx, key);
    StepKeepsInv(u, Commit(tx));
    CommitCarries(u, tx, key);
    var a :| a in v.rows && v.rows[a].dedupeKey == Some(key);
    KeyStays(v, later, t, key, a);
    OneWithKey(t, a, key);
  }

  lemma OneWithKey(s: State, a: RowId, key: string)
    requires Inv(s) && a in s.rows && s.rows[a].dedupeKey == Some(key)
    ensures (set b | b in s.rows && s.rows[b].dedupeKey == Some(key)) == {a}
  {
    assert KeysInv(s.rows, s.pending);
    hide RowsInv;
    hide PendingInv;
    hide LocksInv;
    hide WritesInv;
    hide PassesInv;
  }

  /** A cleanup deletes exactly the rows delivered longer ago than it retains, and nothing else. */
  lemma CleanupDeletes(s: State, retention: nat)
    ensures var t := Apply(s, Cleanup(retention));
            && (forall a :: a in t.rows ==> a in s.rows && t.rows[a] == s.rows[a])
            && (forall a :: a in s.rows ==>
                  (a !in t.rows <==> s.rows[a].sentAt.Some? && s.now > s.rows[a].sentAt.value + retention))
            && t.intake == s.intake && t.network == s.network && t.passes == s.passes
  {
  }

  /** The row waits for delivery, its time has come, and no pass holds it. */
  predicate Free(s: State, a: RowId) {
    a in s.rows && a !in s.locks && s.rows[a].sentAt.None? && s.rows[a].nextAttemptAt <= s.now
  }

  predicate NoLater(a: Row, b: Row) {
    if a.nextAttemptAt == b.nextAttemptAt then a.createdAt <= b.createdAt else a.nextAttemptAt <= b.nextAttemptAt
  }

  /** A new pass takes free rows, once each and the longest due first, and leaves none out while there is room. */
  lemma ClaimIff(s: State, p: PassId, ids: seq<RowId>, limit: nat)
    ensures Enabled(s, Claim(p, ids, limit)) <==>
            && p !in s.passes && |ids| <= limit
            && (forall k :: 0 <= k < |ids| ==> Free(s, ids[k]))
            && (forall j, k :: 0 <= j < k < |ids| ==> ids[j] != ids[k] && NoLater(s.rows[ids[j]], s.rows[ids[k]]))
            && (forall a :: Free(s, a) && a !in ids ==>
                  |ids| == limit && forall k :: 0 <= k < |ids| ==> NoLater(s.rows[ids[k]], s.rows[a]))
  {
    forall a ensures Free(s, a) <==> Due(s.rows, a, s.now) && a !in s.locks.Keys {}
    forall a, b ensures NoLater(a, b) <==> Earlier(a, b) {}
    hide Due;
    hide Free;
    hide NoLater;
    hide Earlier;
  }

  /** A kind river-service does not know is refused and leaves no trace. */
  lemma UnknownIsRefused(i: Intake, key: RowId, req: Request)
    ensures Enqueue(i, key, req).1.Unimplemented? <==> req.kind !in i.known
    ensures req.kind !in i.known ==> Enqueue(i, key, req).0 == i
    ensures req.kind in i.known && key !in i.byKey ==>
              var (after, answer) := Enqueue(i, key, req);
              !answer.duplicate && after.jobs == i.jobs[answer.job := Job(key, req)] && after.byKey[key] == answer.job
  {
  }

  // ---------------------------------------------------------------- what one pass does to the table

  /** The pass's answers so far, and what it still holds. */
  ghost predicate Holds(s: State, p: PassId, a: RowId) {
    a in s.locks && s.locks[a] == p
  }

  /** An answer about the head row is noted in the pass, which still holds the row; nothing shows yet. */
  ghost predicate Notes(s: State, t: State, p: PassId, row: Row, todo: seq<RowId>)
    requires HasNext(s, p)
  {
    var id := s.passes[p].todo[0];
    && t.rows == s.rows && t.intake == s.intake && t.locks == s.locks && Holds(s, p, id) && id !in s.writes
    && t.writes == s.writes[id := row]
    && t.passes == s.passes[p := Pass(s.passes[p].startedAt, todo, false)]
  }

  /** A delivery is noted with the pass's start and the job's id, and the pass goes on. */
  lemma DeliveryNotes(s: State, p: PassId)
    requires Inv(s) && Enabled(s, AnswerOk(p))
    ensures var id := s.passes[p].todo[0];
            id in s.intake.byKey
            && Notes(s, Apply(s, AnswerOk(p)), p,
                     s.rows[id].(sentAt := Some(s.passes[p].startedAt), jobId := Some(s.intake.byKey[id])),
                     s.passes[p].todo[1..])
  {
    HeadIsHeld(s, p);
    hide Inv;
  }

  /** A failure is noted with one attempt more and a wait of one second to five minutes, and the rest is let go. */
  lemma FailureNotes(s: State, p: PassId) returns (wait: int)
    requires Inv(s) && Enabled(s, AnswerFail(p))
    ensures 1000 <= wait <= 300000
    ensures var row, at := s.rows[s.passes[p].todo[0]], s.passes[p].startedAt;
            Notes(s, Apply(s, AnswerFail(p)), p, row.(attempts := row.attempts + 1, nextAttemptAt := at + wait), [])
  {
    HeadIsHeld(s, p);
    hide Inv;
    var attempts := s.rows[s.passes[p].todo[0]].attempts;
    WaitBounds(attempts + 1);
    hide Backoff;
    wait := 1000 * Backoff(attempts + 1);
  }

  lemma HeadIsHeld(s: State, p: PassId)
    requires Inv(s) && HasNext(s, p)
    ensures Holds(s, p, s.passes[p].todo[0]) && s.passes[p].todo[0] !in s.writes
  {
    assert TodoInv(p, s.passes[p], s.locks, s.writes, s.network) by {
      assert PassesInv(s.passes, s.locks, s.writes, s.network);
    }
  }

  /** A commit shows exactly what the pass noted, a crash nothing; either way the pass lets go of what it held. */
  lemma PassEnds(s: State, p: PassId, commits: bool)
    requires Inv(s) && Enabled(s, if commits then PassCommit(p) else PassCrash(p))
    ensures var t := Apply(s, if commits then PassCommit(p) else PassCrash(p));
            && t.rows.Keys == s.rows.Keys && t.intake == s.intake && t.network == s.network && t.pending == s.pending
            && (forall a :: a in s.rows ==>
                  t.rows[a] == if commits && a in s.writes && Holds(s, p, a) then s.writes[a] else s.rows[a])
            && t.passes == s.passes - {p}
            && (forall a :: a in t.locks <==> a in s.locks && !Holds(s, p, a))
            && (forall a :: a in t.locks ==> t.locks[a] == s.locks[a])
            && (forall a :: a in t.writes <==> a in s.writes && !Holds(s, p, a))
            && (forall a :: a in t.writes ==> t.writes[a] == s.writes[a])
  {
    hide RowsInv;
    hide PendingInv;
    hide KeysInv;
    hide PassesInv;
  }

  // ---------------------------------------------------------------- nothing is assumed of the surroundings

  /** Transactions end as they like, a pass may crash anywhere, and a request once sent may arrive at any time. */
  lemma AnythingMayHappen(s: State, tx: TxId, p: PassId, id: RowId, ms: nat, known: set<string>)
    ensures tx in s.open ==> Enabled(s, Commit(tx)) && Enabled(s, Abort(tx))
    ensures tx !in s.open ==> Enabled(s, Begin(tx)) && Apply(s, Begin(tx)) == s.(open := s.open[tx := s.now])
    ensures p in s.passes ==> Enabled(s, PassCrash(p)) && (HasNext(s, p) ==> Enabled(s, AnswerFail(p)))
    ensures Enabled(s, PassCommit(p)) <==> p in s.passes && s.passes[p].todo == []
    ensures id in s.network ==> Enabled(s, Arrive(id))
    ensures Enabled(s, Cleanup(ms)) && Enabled(s, Tick(ms)) && Enabled(s, Deploy(known))
    ensures Apply(s, Tick(ms)) == s.(now := s.now + ms)
    ensures Apply(s, Deploy(known)).intake.known == known && Apply(s, Deploy(known)).rows == s.rows
  {
    hide IsClaim;
    hide KeyBlocked;
    hide Kept;
    hide DoWrite;
    hide DoCommit;
  }

  /** A pass sends its next row once and then waits; it hears of a delivery only when the job is there. */
  lemma OneAtATime(s: State, p: PassId)
    requires IntakeInv(s.intake) && p in s.passes && s.passes[p].todo != [] && s.passes[p].todo[0] in s.rows
    ensures var id := s.passes[p].todo[0];
            && (Enabled(s, Send(p)) <==> !s.passes[p].waiting)
            && (Enabled(s, AnswerOk(p)) <==>
                  s.passes[p].waiting && exists j :: j in s.intake.jobs && s.intake.jobs[j].key == id)
    ensures Enabled(s, Send(p)) ==>
              var t := Apply(s, Send(p));
              && t.passes == s.passes[p := s.passes[p].(waiting := true)] && t.rows == s.rows && t.locks == s.locks
              && t.network == s.network[s.passes[p].todo[0] := s.rows[s.passes[p].todo[0]].req]
  {
    var id := s.passes[p].todo[0];
    if id in s.intake.byKey { assert s.intake.byKey[id] in s.intake.jobs; }
  }

  /** An aborted transaction leaves nothing: its inserts go, and everybody else's stay. */
  lemma AbortLeavesNothing(s: State, tx: TxId)
    requires Enabled(s, Abort(tx))
    ensures var t := Apply(s, Abort(tx));
            && t.rows == s.rows && t.intake == s.intake && tx !in t.open
            && (forall a :: a in t.pending <==> a in s.pending && s.pending[a].tx != tx)
            && (forall a :: a in t.pending ==> t.pending[a] == s.pending[a])
  {
  }

  lemma WriteFresh(s: State, tx: TxId, id: RowId, req: Request, key: Option<string>)
    requires tx in s.open && id !in s.used
    requires forall a :: a in s.rows && key.Some? ==> s.rows[a].dedupeKey != key
    requires forall a :: a in s.pending && key.Some? ==> s.pending[a].row.dedupeKey != key
    ensures Enabled(s, Write(tx, id, req, key))
    ensures var t := Apply(s, Write(tx, id, req, key));
            t.pending == s.pending[id := Pending(tx, Row(req, key, s.open[tx], s.open[tx], 0, None, None))]
            && t.open == s.open && t.rows == s.rows
  {
  }

  lemma CommitOne(s: State, tx: TxId, id: RowId)
    requires tx in s.open && id in s.pending && s.pending[id].tx == tx
    requires forall a :: a in s.pending && s.pending[a].tx == tx ==> a == id
    ensures Enabled(s, Commit(tx)) && Apply(s, Commit(tx)).rows == s.rows[id := s.pending[id].row]
  {
    assert Inserts(s, tx) == map[id := s.pending[id].row];
  }

  /** Three statements enqueue a job: from any state, for any new row and any key nobody carries or waits with. */
  lemma EnqueuesInThree(s: State, tx: TxId, id: RowId, req: Request, key: Option<string>)
    requires tx !in s.open && id !in s.used && !(exists a :: a in s.pending && s.pending[a].tx == tx)
    requires forall a :: a in s.rows && key.Some? ==> s.rows[a].dedupeKey != key
    requires forall a :: a in s.pending && key.Some? ==> s.pending[a].row.dedupeKey != key
    ensures var steps := [Begin(tx), Write(tx, id, req, key), Commit(tx)];
            exists t :: Trace(s, steps, t) && t.rows == s.rows[id := Row(req, key, s.now, s.now, 0, None, None)]
  {
    AnythingMayHappen(s, tx, 0, id, 0, {});
    var begun := Apply(s, Begin(tx));
    hide *;
    WriteFresh(begun, tx, id, req, key);
    var written := Apply(begun, Write(tx, id, req, key));
    CommitOne(written, tx, id);
    ThreeSteps(s, Begin(tx), Write(tx, id, req, key), Commit(tx));
  }

  lemma ThreeSteps(s: State, a: Step, b: Step, c: Step)
    requires Enabled(s, a) && Enabled(Apply(s, a), b) && Enabled(Apply(Apply(s, a), b), c)
    ensures Trace(s, [a, b, c], Apply(Apply(Apply(s, a), b), c))
  {
    hide Enabled;
    hide Apply;
    var t := Apply(Apply(Apply(s, a), b), c);
    assert [a, b, c][1..] == [b, c] && [b, c][1..] == [c] && [c][1..] == [];
    assert Trace(Apply(Apply(s, a), b), [c], t);
    assert Trace(Apply(s, a), [b, c], t);
  }
}
