/**
 The relay's own code: its backoff loop, one RelayOnce pass, and what a series of polls achieves.
 The pass is the imperative loop; PassIsARun shows it is a run of the Outbox machine, so everything
 proved there holds of it.
 */
module Relay {
  import opened Common
  import opened Outbox

  // ---------------------------------------------------------------- backoff

  method BackoffSeconds(attempt: nat) returns (d: nat)
    ensures d == Backoff(attempt)
  {
    d := 1;
    var i := 1;
    while i < attempt && d < MAX_BACKOFF
      invariant 1 <= i && (i <= attempt || i == 1)
      invariant d == Pow2(i - 1)
    {
      d := d * 2;
      i := i + 1;
    }
    if i < attempt { Pow2Grows(i - 1, attempt - 1); }
    d := if d < MAX_BACKOFF then d else MAX_BACKOFF;
  }

  /** The seconds a row waits in all over its first n failures. */
  function TotalWait(n: nat): nat {
    if n == 0 then 0 else TotalWait(n - 1) + Backoff(n)
  }

  lemma {:induction false} TotalWaitClosedForm(n: nat)
    ensures TotalWait(n) == if n <= 9 then Pow2(n) - 1 else 511 + MAX_BACKOFF * (n - 9)
  {
    Pow2At8();
    if n > 0 {
      TotalWaitClosedForm(n - 1);
      if n <= 9 { Pow2Grows(n - 1, 8); } else { Pow2Grows(9, n - 1); }
    }
  }

  // ---------------------------------------------------------------- one pass

  /**
   The table and river-service as a pass meets them. refused and lost say how often each row's send still
   fails: refused sends never reach the queue, lost ones reach it but their answer does not come back.
   */
  datatype Desk = Desk(rows: map<RowId, Row>, intake: Intake, refused: multiset<RowId>, lost: multiset<RowId>)

  function Sent(d: Desk, id: RowId, at: int): Desk
    requires id in d.rows
  {
    var (i, answer) := Enqueue(d.intake, id, d.rows[id].req);
    match answer
    case Accepted(job, _) => d.(rows := d.rows[id := MarkSent(d.rows[id], at, job)], intake := i)
    case Unimplemented => d.(rows := d.rows[id := MarkFailed(d.rows[id], at)])
  }

  function Failed(d: Desk, id: RowId, at: int): Desk
    requires id in d.rows && Fails(d, id)
  {
    var rows := d.rows[id := MarkFailed(d.rows[id], at)];
    if id in d.refused then d.(rows := rows, refused := d.refused - multiset{id})
    else d.(rows := rows, lost := d.lost - multiset{id}, intake := Enqueue(d.intake, id, d.rows[id].req).0)
  }

  predicate Fails(d: Desk, id: RowId) {
    id in d.refused || id in d.lost
  }

  predicate Stops(d: Desk, id: RowId)
    requires id in d.rows
  {
    Fails(d, id) || d.rows[id].req.kind !in d.intake.known
  }

  function Attempt(d: Desk, id: RowId, at: int): Desk
    requires id in d.rows
  {
    if Fails(d, id) then Failed(d, id, at) else Sent(d, id, at)
  }

  /** A pass over the claimed rows: deliver each in turn, stop after the first that fails. */
  function PassOver(d: Desk, ids: seq<RowId>, at: int): Desk
    requires forall id :: id in ids ==> id in d.rows
    decreases |ids|
  {
    if ids == [] then d
    else if Stops(d, ids[0]) then Attempt(d, ids[0], at)
    else PassOver(Attempt(d, ids[0], at), ids[1..], at)
  }

  /** How many rows a pass delivers or records a failure for. */
  function PassCount(d: Desk, ids: seq<RowId>, at: int): nat
    requires forall id :: id in ids ==> id in d.rows
    decreases |ids|
  {
    if ids == [] then 0
    else if Stops(d, ids[0]) then 1
    else 1 + PassCount(Attempt(d, ids[0], at), ids[1..], at)
  }

  class RelayWorker {
    var rows: map<RowId, Row>
    var intake: Intake
    var refused: multiset<RowId>
    var lost: multiset<RowId>

    constructor (d: Desk)
      ensures State() == d
    {
      rows, intake, refused, lost := d.rows, d.intake, d.refused, d.lost;
    }

    function State(): Desk
      reads this
    {
      Desk(rows, intake, refused, lost)
    }

    /** One Enqueue call; failed covers a refusal, a timeout and a lost answer. */
    method Send(id: RowId) returns (job: Option<JobId>)
      requires id in rows
      modifies this
      ensures rows == old(rows)
      ensures job.None? <==> Stops(old(State()), id)
      ensures forall at :: (if job.Some? then State().(rows := rows[id := MarkSent(rows[id], at, job.value)])
                            else State().(rows := rows[id := MarkFailed(rows[id], at)])) ==
                              Attempt(old(State()), id, at)
    {
      job := None;
      if id in refused {
        refused := refused - multiset{id};
      } else {
        var (i, answer) := Enqueue(intake, id, rows[id].req);
        intake := i;
        if id in lost {
          lost := lost - multiset{id};
        } else if answer.Accepted? {
          job := Some(answer.job);
        }
      }
    }

    /**
     Claims ids, delivers each and records the outcome, stopping at the first failed send.  When the
     transaction does not commit the table is as before, but the jobs river-service took stay.
     */
    method RelayOnce(ids: seq<RowId>, at: int, commits: bool) returns (done: Result<nat, string>)
      requires Distinct(ids) && forall id :: id in ids ==> id in rows
      modifies this
      ensures var after := PassOver(old(State()), ids, at);
              State() == if commits then after else after.(rows := old(rows))
      ensures done == if commits then Ok(PassCount(old(State()), ids, at)) else Err("commit")
    {
      ghost var start := State();
      var before := rows;
      var n := 0;
      var k := 0;
      var stopped := false;
      while k < |ids| && !stopped
        invariant 0 <= k <= |ids| && n == k
        invariant rows.Keys == start.rows.Keys
        invariant PassOver(start, ids, at) == if stopped then State() else PassOver(State(), ids[k..], at)
        invariant PassCount(start, ids, at) == if stopped then n else n + PassCount(State(), ids[k..], at)
        decreases |ids| - k, !stopped
      {
        var id := ids[k];
        assert ids[k..][0] == id && ids[k..][1..] == ids[k + 1..];
        var job := Send(id);
        match job {
          case Some(j) => rows := rows[id := MarkSent(rows[id], at, j)];
          case None =>
            rows := rows[id := MarkFailed(rows[id], at)];
            stopped := true;
        }
        n := n + 1;
        k := k + 1;
      }
      if commits {
        done := Ok(n);
      } else {
        rows := before;
        done := Err("commit");
      }
    }
  }

  // ---------------------------------------------------------------- the pass is a run of the machine

  lemma {:induction false} TraceAppend(s: State, a: seq<Step>, t: State, b: seq<Step>, u: State)
    requires Trace(s, a, t) && Trace(t, b, u)
    ensures Trace(s, a + b, u)
    decreases |a|
  {
    if a == [] {
      assert a + b == b;
    } else {
      assert (a + b)[1..] == a[1..] + b;
      TraceAppend(Apply(s, a[0]), a[1..], t, b, u);
    }
  }

  lemma TraceOne(s: State, step: Step)
    requires Enabled(s, step)
    ensures Trace(s, [step], Apply(s, step))
  {
    assert Trace(Apply(s, step), [][..], Apply(s, step));
  }

  /** The machine stands where the pass stands: same intake, and the table plus the pass's own updates. */
  ghost predicate Stands(u: State, p: PassId, d: Desk, ids: seq<RowId>, at: int) {
    && Inv(u) && p in u.passes && u.passes[p] == Pass(at, ids, false)
    && d.intake == u.intake && d.rows == u.rows + OwnWrites(u, p)
  }

  lemma RecordGrowsOwnWrites(u: State, p: PassId, row: Row, rest: seq<RowId>)
    requires Inv(u) && HasNext(u, p)
    ensures OwnWrites(DoRecord(u, p, row, rest), p) == OwnWrites(u, p)[u.passes[p].todo[0] := row]
  {
    assert TodoInv(p, u.passes[p], u.locks, u.writes, u.network);
  }

  lemma HeadLocked(u: State, p: PassId, d: Desk, ids: seq<RowId>, at: int)
    requires Stands(u, p, d, ids, at) && ids != []
    ensures HasNext(u, p) && d.rows[ids[0]] == u.rows[ids[0]]
  {
    assert TodoInv(p, u.passes[p], u.locks, u.writes, u.network);
    assert u.passes[p].todo[0] in u.locks;
  }

  /** Sends the head row and lets the request arrive unless it is refused. */
  lemma SendHead(u: State, p: PassId, d: Desk, ids: seq<RowId>, at: int, arrives: bool)
    returns (steps: seq<Step>, v: State)
    requires Stands(u, p, d, ids, at) && ids != []
    ensures HasNext(u, p) && Trace(u, steps, v) && Inv(v)
    ensures v.passes == u.passes[p := Pass(at, ids, true)] && v.rows == u.rows && v.locks == u.locks
            && v.writes == u.writes
    ensures v.intake == if arrives then Enqueue(u.intake, ids[0], u.rows[ids[0]].req).0 else u.intake
  {
    HeadLocked(u, p, d, ids, at);
    StepKeepsInv(u, Step.Send(p));
    TraceOne(u, Step.Send(p));
    var sent := Apply(u, Step.Send(p));
    if arrives {
      StepKeepsInv(sent, Arrive(ids[0]));
      TraceOne(sent, Arrive(ids[0]));
      TraceAppend(u, [Step.Send(p)], sent, [Arrive(ids[0])], Apply(sent, Arrive(ids[0])));
      return [Step.Send(p)] + [Arrive(ids[0])], Apply(sent, Arrive(ids[0]));
    } else {
      return [Step.Send(p)], sent;
    }
  }

  lemma RecordStands(w: State, p: PassId, rows: map<RowId, Row>, ids: seq<RowId>, at: int, row: Row, rest: seq<RowId>)
    requires Inv(w) && HasNext(w, p) && w.passes[p] == Pass(at, ids, true) && w.rows + OwnWrites(w, p) == rows
    ensures var v := DoRecord(w, p, row, rest);
            v.rows == w.rows && v.intake == w.intake && v.passes == w.passes[p := Pass(at, rest, false)]
            && v.rows + OwnWrites(v, p) == rows[ids[0] := row]
  {
    RecordGrowsOwnWrites(w, p, row, rest);
    PlusUpdate(w.rows, OwnWrites(w, p), ids[0], row);
  }

  lemma PlusUpdate<K, V>(a: map<K, V>, b: map<K, V>, k: K, v: V)
    ensures a + b[k := v] == (a + b)[k := v]
  {
  }

  /** What Attempt records, in the machine's terms. */
  lemma AttemptRecords(d: Desk, id: RowId, at: int)
    requires id in d.rows
    ensures var arrived := Enqueue(d.intake, id, d.rows[id].req).0;
            && Attempt(d, id, at).intake == (if id in d.refused then d.intake else arrived)
            && (Stops(d, id) ==> Attempt(d, id, at).rows == d.rows[id := MarkFailed(d.rows[id], at)])
            && (!Stops(d, id) ==> id in arrived.byKey
                                  && Attempt(d, id, at).rows ==
                                     d.rows[id := MarkSent(d.rows[id], at, arrived.byKey[id])])
  {
  }

  lemma HeadIsARun(u: State, p: PassId, d: Desk, ids: seq<RowId>, at: int) returns (steps: seq<Step>, v: State)
    requires Stands(u, p, d, ids, at) && ids != []
    ensures ids[0] in d.rows && Trace(u, steps, v) && v.rows == u.rows && v.passes.Keys == u.passes.Keys
    ensures Stands(v, p, Attempt(d, ids[0], at), if Stops(d, ids[0]) then [] else ids[1..], at)
  {
    hide Inv;
    HeadLocked(u, p, d, ids, at);
    var id := ids[0];
    var before, w := SendHead(u, p, d, ids, at, id !in d.refused);
    AttemptRecords(d, id, at);
    assert OwnWrites(w, p) == OwnWrites(u, p);
    var last := if Stops(d, id) then AnswerFail(p) else AnswerOk(p);
    var rest := if Stops(d, id) then [] else ids[1..];
    var row := if Stops(d, id) then FailedHead(w, p) else SentHead(w, p);
    RecordStands(w, p, d.rows, ids, at, row, rest);
    v := DoRecord(w, p, row, rest);
    TakeStep(u, before, w, last, v);
    steps := before + [last];
  }

  lemma TakeStep(u: State, before: seq<Step>, w: State, last: Step, v: State)
    requires Trace(u, before, w) && Inv(w) && Enabled(w, last) && v == Apply(w, last)
    ensures Trace(u, before + [last], v) && Inv(v)
  {
    StepKeepsInv(w, last);
    TraceOne(w, last);
    TraceAppend(u, before, w, [last], v);
  }

  lemma {:induction false} RestIsARun(u: State, p: PassId, d: Desk, ids: seq<RowId>, at: int)
    returns (steps: seq<Step>, t: State)
    requires Stands(u, p, d, ids, at) && forall id :: id in ids ==> id in d.rows
    ensures Trace(u, steps, t) && t.rows == u.rows && t.passes.Keys == u.passes.Keys
    ensures Stands(t, p, PassOver(d, ids, at), [], at)
    decreases |ids|
  {
    if ids == [] {
      return [], u;
    }
    var head, v := HeadIsARun(u, p, d, ids, at);
    if Stops(d, ids[0]) {
      return head, v;
    }
    var rest;
    rest, t := RestIsARun(v, p, Attempt(d, ids[0], at), ids[1..], at);
    TraceAppend(u, head, v, rest, t);
    steps := head + rest;
  }

  /**
   Whatever a RelayOnce pass does to the table and the intake is a run of the machine: claim, the sends and
   answers of the loop, and the commit, or the crash that leaves the table alone.
   */
  lemma PassIsARun(s: State, p: PassId, d: Desk, ids: seq<RowId>, limit: nat, commits: bool)
    returns (steps: seq<Step>, t: State)
    requires Inv(s) && Enabled(s, Claim(p, ids, limit)) && d.rows == s.rows && d.intake == s.intake
    requires forall id :: id in ids ==> id in d.rows
    ensures Trace(s, steps, t) && Inv(t)
    ensures t.intake == PassOver(d, ids, s.now).intake
    ensures t.rows == if commits then PassOver(d, ids, s.now).rows else s.rows
    ensures t.passes.Keys == s.passes.Keys
  {
    hide Inv;
    var u := ClaimStands(s, p, d, ids, limit);
    var body, v := RestIsARun(u, p, d, ids, s.now);
    var last;
    last, t := EndIsAStep(v, p, PassOver(d, ids, s.now), s.now, commits);
    TraceAppend(u, body, v, [last], t);
    TraceAppend(s, [Claim(p, ids, limit)], u, body + [last], t);
    steps := [Claim(p, ids, limit)] + (body + [last]);
  }

  lemma EndIsAStep(v: State, p: PassId, d: Desk, at: int, commits: bool) returns (end: Step, t: State)
    requires Stands(v, p, d, [], at)
    ensures Trace(v, [end], t) && Inv(t)
    ensures t.intake == d.intake && t.rows == (if commits then d.rows else v.rows)
            && t.passes.Keys == v.passes.Keys - {p}
  {
    end := if commits then PassCommit(p) else PassCrash(p);
    t := EndPass(v, p, if commits then v.rows + OwnWrites(v, p) else v.rows);
    assert v.passes[p].todo == [];
    StepKeepsInv(v, end);
    TraceOne(v, end);
  }

  lemma ClaimStands(s: State, p: PassId, d: Desk, ids: seq<RowId>, limit: nat) returns (u: State)
    requires Inv(s) && Enabled(s, Claim(p, ids, limit)) && d.rows == s.rows && d.intake == s.intake
    ensures Trace(s, [Claim(p, ids, limit)], u) && Stands(u, p, d, ids, s.now)
    ensures u.rows == s.rows && u.passes.Keys == s.passes.Keys + {p}
  {
    StepKeepsInv(s, Claim(p, ids, limit));
    TraceOne(s, Claim(p, ids, limit));
    u := Apply(s, Claim(p, ids, limit));
    FreshLocksHaveNoWrites(s, p, ids);
    PlusEmpty(u.rows);
  }

  lemma FreshLocksHaveNoWrites(s: State, p: PassId, ids: seq<RowId>)
    requires LocksInv(s.locks, s.passes, s.rows) && WritesInv(s.writes, s.locks, s.rows, s.intake)
    requires p !in s.passes && forall k :: 0 <= k < |ids| ==> ids[k] !in s.locks
    ensures OwnWrites(DoClaim(s, p, ids), p) == map[]
  {
  }
}
