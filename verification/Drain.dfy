/** Polling drains the outbox once every row is refused or lost only finitely often, in any order of polls. */
module Drain {
  import Common
  import opened Outbox
  import opened Relay

  function Unsent(d: Desk): set<RowId> {
    set id | id in d.rows && d.rows[id].sentAt.None?
  }

  /** What is left to do: failures still to come, and rows still to deliver. */
  function Left(d: Desk): nat {
    |d.refused| + |d.lost| + |Unsent(d)|
  }

  ghost predicate AllKnown(d: Desk) {
    forall id :: id in d.rows ==> d.rows[id].req.kind in d.intake.known
  }

  /** Failures are only ahead of rows that have yet to be delivered. */
  ghost predicate Clean(d: Desk) {
    forall id :: id in d.refused || id in d.lost ==> id in Unsent(d)
  }

  /** The attempts a row will have used when it is through; no pass changes it. */
  function Tries(d: Desk, id: RowId): nat
    requires id in d.rows
  {
    d.rows[id].attempts + d.refused[id] + d.lost[id]
  }

  ghost predicate SameTries(d: Desk, t: Desk) {
    d.rows.Keys == t.rows.Keys && forall id :: id in d.rows ==> Tries(t, id) == Tries(d, id)
  }

  /** A series of productive polls, each claiming a batch at its own time. */
  ghost predicate Polls(d: Desk, polls: seq<(int, seq<RowId>)>, batch: nat, t: Desk)
    decreases |polls|
  {
    if polls == [] then d == t
    else
      var (at, ids) := polls[0];
      && ids != [] && IsClaim(d.rows, {}, at, ids, batch)
      && (assert forall id :: id in ids ==> id in d.rows; Polls(PassOver(d, ids, at), polls[1..], batch, t))
  }

  /** One attempt does one unit of work, and leaves the other rows and their failures alone. */
  ghost predicate Progress(d: Desk, id: RowId, t: Desk) {
    && Left(t) == Left(d) - 1
    && (Clean(d) ==> Clean(t)) && AllKnown(t) && SameTries(d, t)
    && Unsent(t) == if Fails(d, id) then Unsent(d) else Unsent(d) - {id}
  }

  lemma AttemptProgress(d: Desk, id: RowId, at: int)
    requires AllKnown(d) && id in Unsent(d)
    ensures Progress(d, id, Attempt(d, id, at))
  {
    if id in d.refused {
      RefusalProgress(d, id, at);
    } else if id in d.lost {
      LossProgress(d, id, at);
    } else {
      DeliveryProgress(d, id, at);
    }
  }

  lemma RefusalProgress(d: Desk, id: RowId, at: int)
    requires AllKnown(d) && id in Unsent(d) && id in d.refused
    ensures Progress(d, id, Failed(d, id, at))
  {
    TakeOne(d.refused, id);
    assert Unsent(Failed(d, id, at)) == Unsent(d);
  }

  lemma LossProgress(d: Desk, id: RowId, at: int)
    requires AllKnown(d) && id in Unsent(d) && id !in d.refused && id in d.lost
    ensures Progress(d, id, Failed(d, id, at))
  {
    TakeOne(d.lost, id);
    assert Unsent(Failed(d, id, at)) == Unsent(d);
  }

  lemma DeliveryProgress(d: Desk, id: RowId, at: int)
    requires AllKnown(d) && id in Unsent(d) && !Fails(d, id)
    ensures Progress(d, id, Sent(d, id, at))
  {
    assert Unsent(Sent(d, id, at)) == Unsent(d) - {id};
  }

  lemma TakeOne<T>(m: multiset<T>, x: T)
    requires x in m
    ensures |m - multiset{x}| == |m| - 1
  {
    assert m == (m - multiset{x}) + multiset{x};
  }

  lemma {:induction false} PassProgress(d: Desk, ids: seq<RowId>, at: int)
    requires forall id :: id in ids ==> id in d.rows && id in Unsent(d)
    requires AllKnown(d) && Distinct(ids)
    ensures Left(PassOver(d, ids, at)) == Left(d) - PassCount(d, ids, at)
    ensures Clean(d) ==> Clean(PassOver(d, ids, at))
    ensures AllKnown(PassOver(d, ids, at)) && SameTries(d, PassOver(d, ids, at))
    decreases |ids|
  {
    if ids != [] {
      AttemptProgress(d, ids[0], at);
      hide Attempt;
      hide Left;
      hide AllKnown;
      hide Clean;
      if !Stops(d, ids[0]) {
        forall id | id in ids[1..] ensures id in Attempt(d, ids[0], at).rows && id in Unsent(Attempt(d, ids[0], at)) {
          var k :| 0 <= k < |ids| - 1 && ids[1..][k] == id;
          assert ids[k + 1] != ids[0];
        }
        PassProgress(Attempt(d, ids[0], at), ids[1..], at);
      }
    }
  }

  /** Every schedule of productive polls is bounded by the work left, and never changes a row's total tries. */
  lemma {:induction false} PollsAreBounded(d: Desk, polls: seq<(int, seq<RowId>)>, batch: nat, t: Desk)
    requires Clean(d) && AllKnown(d) && Polls(d, polls, batch, t)
    ensures |polls| + Left(t) <= Left(d)
    ensures Clean(t) && AllKnown(t) && SameTries(d, t)
    decreases |polls|
  {
    if polls != [] {
      var (at, ids) := polls[0];
      assert forall id :: id in ids ==> id in d.rows && id in Unsent(d);
      PassProgress(d, ids, at);
      PollsAreBounded(PassOver(d, ids, at), polls[1..], batch, t);
    }
  }

  // ---------------------------------------------------------------- a claim exists whenever something is due

  lemma {:induction false} EarliestOf(rows: map<RowId, Row>, s: set<RowId>) returns (least: RowId)
    requires s != {} && s <= rows.Keys
    ensures least in s && forall id :: id in s ==> Earlier(rows[least], rows[id])
    decreases s
  {
    var x :| x in s;
    if s == {x} {
      least := x;
    } else {
      var y := EarliestOf(rows, s - {x});
      least := if Earlier(rows[x], rows[y]) then x else y;
    }
  }

  lemma {:induction false} SortRows(rows: map<RowId, Row>, s: set<RowId>) returns (ids: seq<RowId>)
    requires s <= rows.Keys
    ensures Distinct(ids) && (forall id :: id in ids <==> id in s)
    ensures forall j, k :: 0 <= j < k < |ids| ==> Earlier(rows[ids[j]], rows[ids[k]])
    decreases s
  {
    if s == {} {
      ids := [];
    } else {
      var least := EarliestOf(rows, s);
      var rest := SortRows(rows, s - {least});
      assert forall k :: 0 <= k < |rest| ==> rest[k] in s - {least};
      ids := [least] + rest;
    }
  }

  lemma ClaimExists(rows: map<RowId, Row>, at: int, limit: nat) returns (ids: seq<RowId>)
    ensures IsClaim(rows, {}, at, ids, limit)
    ensures limit > 0 && (exists id :: Due(rows, id, at)) ==> ids != []
  {
    var due := set id | id in rows && Due(rows, id, at);
    var all := SortRows(rows, due);
    var n := if |all| < limit then |all| else limit;
    ids := all[..n];
    assert forall k :: 0 <= k < n ==> ids[k] == all[k] && all[k] in due;
    forall id | Due(rows, id, at) && id !in ids
      ensures |ids| == limit && forall k :: 0 <= k < |ids| ==> Earlier(rows[ids[k]], rows[id])
    {
      assert id in due;
      var m :| 0 <= m < |all| && all[m] == id;
      assert forall k :: 0 <= k < n ==> all[k] in ids;
    }
    if limit > 0 && exists id :: Due(rows, id, at) {
      var id :| Due(rows, id, at);
      assert id in all;
    }
  }

  // ---------------------------------------------------------------- how long failures take

  /** No row's next attempt moved by less than the waits its new failures call for. */
  ghost predicate Waited(d: Desk, t: Desk) {
    && d.rows.Keys == t.rows.Keys
    && forall id :: id in d.rows ==>
         d.rows[id].attempts <= t.rows[id].attempts
         && t.rows[id].nextAttemptAt >= d.rows[id].nextAttemptAt
                                        + 1000 * (TotalWait(t.rows[id].attempts) - TotalWait(d.rows[id].attempts))
  }

  /** A failure puts the row off by one second doubled for each earlier one, and by five minutes from the tenth on. */
  lemma FailureWaits(d: Desk, id: RowId, at: int)
    requires id in d.rows && Stops(d, id)
    ensures var before, after := d.rows[id], Attempt(d, id, at).rows[id];
            && after.attempts == before.attempts + 1 && after.sentAt == before.sentAt
            && after.nextAttemptAt == at + 1000 * (if before.attempts < 9 then Pow2(before.attempts) else 300)
  {
    Pow2At8();
    if d.rows[id].attempts < 9 { Pow2Grows(d.rows[id].attempts, 8); } else { Pow2Grows(9, d.rows[id].attempts); }
  }

  lemma OneRowWaits(d: Desk, t: Desk, id: RowId, at: int)
    requires Due(d.rows, id, at)
    requires t.rows == d.rows[id := MarkFailed(d.rows[id], at)]
             || exists job :: t.rows == d.rows[id := MarkSent(d.rows[id], at, job)]
    ensures Waited(d, t)
  {
    assert TotalWait(d.rows[id].attempts + 1) == TotalWait(d.rows[id].attempts) + Backoff(d.rows[id].attempts + 1);
    hide Backoff;
  }

  lemma AttemptWaits(d: Desk, id: RowId, at: int)
    requires Due(d.rows, id, at)
    ensures Waited(d, Attempt(d, id, at))
  {
    hide Waited;
    hide TotalWait;
    AttemptRecords(d, id, at);
    hide Attempt;
    hide MarkFailed;
    hide MarkSent;
    OneRowWaits(d, Attempt(d, id, at), id, at);
  }

  lemma WaitedTransitive(d: Desk, t: Desk, u: Desk)
    requires Waited(d, t) && Waited(t, u)
    ensures Waited(d, u)
  {
    hide TotalWait;
  }

  lemma {:induction false} PassWaits(d: Desk, ids: seq<RowId>, at: int)
    requires (forall id :: id in ids ==> id in d.rows) && Distinct(ids)
    requires forall k :: 0 <= k < |ids| ==> Due(d.rows, ids[k], at)
    ensures Waited(d, PassOver(d, ids, at))
    decreases |ids|
  {
    hide Waited;
    if ids == [] {
      WaitedItself(d);
    } else {
      AttemptWaits(d, ids[0], at);
      if !Stops(d, ids[0]) {
        var next := Attempt(d, ids[0], at);
        forall k | 0 <= k < |ids| - 1 ensures Due(next.rows, ids[1..][k], at) {
          assert ids[1..][k] == ids[k + 1] && ids[k + 1] != ids[0];
        }
        PassWaits(next, ids[1..], at);
        WaitedTransitive(d, next, PassOver(d, ids, at));
      }
    }
  }

  lemma WaitedItself(d: Desk)
    ensures Waited(d, d)
  {
  }

  /** Whatever the polls: n failures of a row put its next attempt off by at least their waits added up. */
  lemma {:induction false} PollsWait(d: Desk, polls: seq<(int, seq<RowId>)>, batch: nat, t: Desk)
    requires Polls(d, polls, batch, t)
    ensures Waited(d, t)
    decreases |polls|
  {
    hide Waited;
    if polls == [] {
      WaitedItself(d);
    } else {
      var (at, ids) := polls[0];
      assert forall id :: id in ids ==> id in d.rows;
      PassWaits(d, ids, at);
      PollsWait(PassOver(d, ids, at), polls[1..], batch, t);
      WaitedTransitive(d, PassOver(d, ids, at), t);
    }
  }

  // ---------------------------------------------------------------- polling for ever

  /** When each poll starts, whether its transaction commits, how the claim query answers, and the batch size. */
  datatype Schedule = Schedule(clock: nat -> int, commits: nat -> bool, query: (map<RowId, Row>, int) -> seq<RowId>,
                               batch: nat)

  ghost predicate Answering(s: Schedule) {
    s.batch > 0 && forall rows, at :: IsClaim(rows, {}, at, s.query(rows, at), s.batch)
  }

  /** The m-th poll, at or after the n-th, commits and starts no earlier than the time. */
  predicate Reaches(s: Schedule, n: nat, m: nat, at: int) {
    m >= n && s.commits(m) && s.clock(m) >= at
  }

  ghost predicate ReachedAfter(s: Schedule, n: nat, at: int) {
    exists m: nat :: Reaches(s, n, m, at)
  }

  /** Time passes and some polls commit: every time is reached again and again. */
  ghost predicate Fair(s: Schedule) {
    Answering(s) && forall n: nat, at: int :: ReachedAfter(s, n, at)
  }

  lemma ShortClaimIsAll(rows: map<RowId, Row>, at: int, ids: seq<RowId>, batch: nat)
    requires IsClaim(rows, {}, at, ids, batch)
    ensures (forall id :: id in ids ==> id in rows) && Distinct(ids)
    ensures |ids| < batch ==> forall id :: Due(rows, id, at) ==> id in ids
  {
  }

  /** One poll; uncommitted it leaves the rows as they were, but the jobs it sent and the failures it met stay. */
  function Poll(d: Desk, ids: seq<RowId>, at: int, commits: bool): Desk
    requires forall id :: id in ids ==> id in d.rows
  {
    var t := PassOver(d, ids, at);
    if commits then t else t.(rows := d.rows)
  }

  /** The state after the first n polls. */
  ghost function After(d: Desk, s: Schedule, n: nat): (t: Desk)
    requires Answering(s)
  {
    if n == 0 then d
    else
      var t := After(d, s, n - 1);
      var ids := s.query(t.rows, s.clock(n - 1));
      ShortClaimIsAll(t.rows, s.clock(n - 1), ids, s.batch);
      Poll(t, ids, s.clock(n - 1), s.commits(n - 1))
  }

  ghost predicate Shrinks(d: Desk, t: Desk) {
    t.refused <= d.refused && t.lost <= d.lost && t.intake.known == d.intake.known
  }

  lemma AttemptShrinks(d: Desk, id: RowId, at: int)
    requires id in d.rows
    ensures Shrinks(d, Attempt(d, id, at))
  {
    KnownKept(d.intake, id, d.rows[id].req);
    hide Enqueue;
    hide MarkSent;
    hide MarkFailed;
  }

  lemma KnownKept(i: Intake, key: RowId, req: Request)
    ensures Enqueue(i, key, req).0.known == i.known
  {
  }

  /** Failures are only ever used up. */
  lemma {:induction false} FailuresShrink(d: Desk, ids: seq<RowId>, at: int)
    requires forall id :: id in ids ==> id in d.rows
    ensures Shrinks(d, PassOver(d, ids, at))
    decreases |ids|
  {
    if ids != [] {
      AttemptShrinks(d, ids[0], at);
      if !Stops(d, ids[0]) { FailuresShrink(Attempt(d, ids[0], at), ids[1..], at); }
    }
    hide Attempt;
  }

  lemma FewerOf<T>(a: multiset<T>, b: multiset<T>)
    requires a <= b
    ensures |a| <= |b|
  {
    assert b == a + (b - a);
  }

  /** What a poll keeps, committed or not. */
  ghost predicate Ahead(d: Desk, t: Desk) {
    && AllKnown(t) && (Clean(d) ==> Clean(t)) && d.rows.Keys == t.rows.Keys
    && Left(t) <= Left(d) && forall id :: id in d.rows ==> Tries(t, id) <= Tries(d, id)
  }

  lemma ClaimedAreUnsent(d: Desk, at: int, ids: seq<RowId>, batch: nat)
    requires IsClaim(d.rows, {}, at, ids, batch)
    ensures Distinct(ids) && forall id :: id in ids ==> id in d.rows && id in Unsent(d)
  {
    forall id | id in ids ensures id in d.rows && id in Unsent(d) {
      var k :| 0 <= k < |ids| && ids[k] == id;
      assert Due(d.rows, ids[k], at);
    }
  }

  /** A committed poll that changes the work left not at all had nothing to do. */
  lemma PollAhead(d: Desk, at: int, ids: seq<RowId>, batch: nat, commits: bool)
    requires IsClaim(d.rows, {}, at, ids, batch) && AllKnown(d)
    ensures forall id :: id in ids ==> id in d.rows
    ensures Ahead(d, Poll(d, ids, at, commits))
    ensures commits ==> SameTries(d, Poll(d, ids, at, commits))
    ensures commits && ids != [] ==> Left(Poll(d, ids, at, commits)) < Left(d)
    ensures !commits || ids == [] ==> Poll(d, ids, at, commits).rows == d.rows
  {
    ClaimedAreUnsent(d, at, ids, batch);
    var t := PassOver(d, ids, at);
    PassProgress(d, ids, at);
    if !commits {
      assert forall k :: 0 <= k < |ids| ==> Due(d.rows, ids[k], at);
      PassWaits(d, ids, at);
      FailuresShrink(d, ids, at);
      FewerOf(t.refused, d.refused);
      FewerOf(t.lost, d.lost);
      UncommittedAhead(d, t);
    }
  }

  lemma UncommittedAhead(d: Desk, t: Desk)
    requires AllKnown(d) && AllKnown(t) && t.refused <= d.refused && t.lost <= d.lost && d.rows.Keys == t.rows.Keys
    requires |t.refused| <= |d.refused| && |t.lost| <= |d.lost| && t.intake.known == d.intake.known
    ensures Ahead(d, t.(rows := d.rows))
  {
    assert Unsent(t.(rows := d.rows)) == Unsent(d);
  }

  lemma AfterAhead(d: Desk, s: Schedule, n: nat)
    requires Answering(s) && AllKnown(d)
    ensures AllKnown(After(d, s, n)) && Ahead(d, After(d, s, n))
    decreases n
  {
    hide Ahead;
    hide After;
    hide IsClaim;
    if n == 0 {
      AfterNone(d, s);
      AheadItself(d);
    } else {
      AfterAhead(d, s, n - 1);
      NextPoll(d, s, n - 1);
      AheadTransitive(d, After(d, s, n - 1), After(d, s, n));
    }
  }

  lemma AheadItself(d: Desk)
    requires AllKnown(d)
    ensures Ahead(d, d)
  {
  }

  lemma AheadTransitive(d: Desk, t: Desk, u: Desk)
    requires Ahead(d, t) && Ahead(t, u)
    ensures AllKnown(u) && Ahead(d, u)
  {
    hide Left;
    hide Tries;
  }

  /** The n-th poll, in the terms of the schedule. */
  lemma NextPoll(d: Desk, s: Schedule, n: nat)
    requires Answering(s) && AllKnown(After(d, s, n))
    ensures var t, u := After(d, s, n), After(d, s, n + 1);
            && Ahead(t, u) && (s.commits(n) ==> SameTries(t, u))
            && (u.rows == t.rows || Left(u) < Left(t))
            && (Unsent(t) == {} ==> u == t)
            && (s.commits(n) && (exists id :: Due(t.rows, id, s.clock(n))) ==> Left(u) < Left(t))
  {
    var t := After(d, s, n);
    var ids := s.query(t.rows, s.clock(n));
    assert IsClaim(t.rows, {}, s.clock(n), ids, s.batch);
    PollAhead(t, s.clock(n), ids, s.batch, s.commits(n));
    ClaimedAreUnsent(t, s.clock(n), ids, s.batch);
    assert |ids| > 0 ==> ids[0] in ids;
    if exists id :: Due(t.rows, id, s.clock(n)) {
      var id :| Due(t.rows, id, s.clock(n));
      assert ids != [];
    }
    hide Ahead;
    hide SameTries;
    hide Left;
  }

  /** By the time a row is due at a committed poll, some poll since the n-th has done work. */
  lemma {:induction false} WorkIsDone(d: Desk, s: Schedule, n: nat, m: nat, id: RowId)
    requires Answering(s) && AllKnown(d) && id in Unsent(After(d, s, n))
    requires Reaches(s, n, m, After(d, s, n).rows[id].nextAttemptAt)
    ensures Left(After(d, s, m + 1)) < Left(After(d, s, n))
    decreases m - n
  {
    hide After;
    hide Left;
    hide IsClaim;
    AfterAhead(d, s, n);
    NextPoll(d, s, n);
    if n == m {
      assert Due(After(d, s, n).rows, id, s.clock(n));
    } else if After(d, s, n + 1).rows == After(d, s, n).rows {
      WorkIsDone(d, s, n + 1, m, id);
    } else {
      LeftFalls(d, s, n + 1, m + 1);
    }
  }

  lemma {:induction false} LeftFalls(d: Desk, s: Schedule, n: nat, m: nat)
    requires Answering(s) && AllKnown(d) && n <= m
    ensures Left(After(d, s, m)) <= Left(After(d, s, n))
    decreases m
  {
    hide After;
    hide Left;
    hide IsClaim;
    if n < m {
      LeftFalls(d, s, n, m - 1);
      AfterAhead(d, s, m - 1);
      NextPoll(d, s, m - 1);
    }
  }

  lemma {:induction false} DrainsFrom(d: Desk, s: Schedule, n: nat) returns (m: nat)
    requires Fair(s) && AllKnown(d)
    ensures m >= n && Unsent(After(d, s, m)) == {}
    decreases Left(After(d, s, n))
  {
    hide After;
    hide Left;
    hide IsClaim;
    if Unsent(After(d, s, n)) == {} {
      return n;
    }
    var id :| id in Unsent(After(d, s, n));
    var at := After(d, s, n).rows[id].nextAttemptAt;
    assert ReachedAfter(s, n, at);
    var k: nat :| Reaches(s, n, k, at);
    WorkIsDone(d, s, n, k, id);
    m := DrainsFrom(d, s, k + 1);
  }

  lemma {:induction false} StaysDrained(d: Desk, s: Schedule, n: nat, m: nat)
    requires Answering(s) && AllKnown(d) && n <= m && Unsent(After(d, s, n)) == {}
    ensures After(d, s, m) == After(d, s, n)
    decreases m
  {
    hide After;
    hide Left;
    hide IsClaim;
    if n < m {
      StaysDrained(d, s, n, m - 1);
      AfterAhead(d, s, m - 1);
      NextPoll(d, s, m - 1);
    }
  }

  lemma SameTriesTransitive(d: Desk, t: Desk, u: Desk)
    requires SameTries(d, t) && SameTries(t, u)
    ensures SameTries(d, u)
  {
    hide Tries;
  }

  lemma AfterNone(d: Desk, s: Schedule)
    requires Answering(s)
    ensures After(d, s, 0) == d && SameTries(d, d)
  {
  }

  lemma {:induction false} TriesKept(d: Desk, s: Schedule, n: nat)
    requires Answering(s) && AllKnown(d) && forall k: nat :: k < n ==> s.commits(k)
    ensures SameTries(d, After(d, s, n))
    decreases n
  {
    hide IsClaim;
    hide After;
    hide SameTries;
    hide Left;
    if n == 0 {
      AfterNone(d, s);
    } else {
      TriesKept(d, s, n - 1);
      AfterAhead(d, s, n - 1);
      NextPoll(d, s, n - 1);
      SameTriesTransitive(d, After(d, s, n - 1), After(d, s, n));
    }
  }

  /**
   On every schedule that keeps reaching every time with polls that commit, and whatever the claim query's
   answers: when each row is refused, or its answer lost, only finitely often, from some poll on every row is
   delivered.  A row then shows no more attempts than it had failures, and as many when every poll committed.
   */
  lemma DrainsEverything(d: Desk, s: Schedule) returns (n: nat)
    requires Clean(d) && AllKnown(d) && Fair(s)
    ensures forall m :: m >= n ==> Unsent(After(d, s, m)) == {}
    ensures forall m :: m >= n ==> After(d, s, m) == After(d, s, n)
    ensures After(d, s, n).rows.Keys == d.rows.Keys
    ensures forall id :: id in d.rows ==> After(d, s, n).rows[id].attempts <= Tries(d, id)
    ensures (forall k: nat :: s.commits(k)) ==>
              forall id :: id in d.rows ==> After(d, s, n).rows[id].attempts == Tries(d, id)
  {
    n := DrainsFrom(d, s, 0);
    AfterAhead(d, s, n);
    forall m | m >= n ensures After(d, s, m) == After(d, s, n) { StaysDrained(d, s, n, m); }
    var t := After(d, s, n);
    assert forall id :: id in d.rows ==> id !in t.refused && id !in t.lost;
    if forall k: nat :: s.commits(k) { TriesKept(d, s, n); }
    hide After;
    hide IsClaim;
  }

  /** An answer to the claim query. */
  ghost function ClaimOf(rows: map<RowId, Row>, at: int, limit: nat): (ids: seq<RowId>)
    ensures IsClaim(rows, {}, at, ids, limit)
  {
    assert exists found :: IsClaim(rows, {}, at, found, limit) by { var found := ClaimExists(rows, at, limit); }
    var found :| IsClaim(rows, {}, at, found, limit);
    found
  }

  /** A poll a second, of which every other one fails to commit: a fair schedule, of any batch size. */
  lemma FairExists(batch: nat) returns (s: Schedule)
    requires batch > 0
    ensures Fair(s) && s.batch == batch && forall k: nat :: s.commits(k) <==> k % 2 == 0
  {
    s := Schedule(n => n, n => n % 2 == 0, (rows, at) => ClaimOf(rows, at, batch), batch);
    forall rows, at ensures IsClaim(rows, {}, at, s.query(rows, at), s.batch) {
      assert s.query(rows, at) == ClaimOf(rows, at, batch);
    }
    forall n: nat, at: int ensures ReachedAfter(s, n, at) {
      var m: nat := 2 * (n + if at > 0 then at else 0);
      assert Reaches(s, n, m, at);
    }
  }

  /** One new row whose first sends are refused or get no answer, as often as one likes. */
  function Troubled(id: RowId, req: Request, refusals: nat, losses: nat): Desk {
    Desk(map[id := NewRow(req, Common.None, 0)], Intake(map[], map[], 0, {req.kind}),
         multiset{}[id := refusals], multiset{}[id := losses])
  }

  /** So the result above meets failures and uncommitted polls: such a row is delivered on such a schedule. */
  lemma DrainsThroughTrouble(id: RowId, req: Request, refusals: nat, losses: nat, batch: nat)
    returns (s: Schedule, n: nat)
    requires batch > 0
    ensures Fair(s) && !s.commits(1)
    ensures var d, t := Troubled(id, req, refusals, losses), After(Troubled(id, req, refusals, losses), s, n);
            && Unsent(d) == {id} && |d.refused| == refusals && |d.lost| == losses
            && Unsent(t) == {} && id in t.rows && t.rows[id].attempts <= refusals + losses
  {
    var d := Troubled(id, req, refusals, losses);
    assert Unsent(d) == {id};
    s := FairExists(batch);
    assert s.commits(1) <==> 1 % 2 == 0;
    n := DrainsEverything(d, s);
    hide After;
    hide Fair;
  }

  // ---------------------------------------------------------------- one drain

  /** Some send of the pass failed, so it stopped there. */
  predicate Halts(d: Desk, ids: seq<RowId>, at: int)
    requires forall id :: id in ids ==> id in d.rows
    decreases |ids|
  {
    ids != [] && (Stops(d, ids[0]) || Halts(Attempt(d, ids[0], at), ids[1..], at))
  }

  /** Rows outside ids stay, and inside each row stays, is delivered, or shows one failure more. */
  ghost predicate Worked(d: Desk, ids: seq<RowId>, t: Desk) {
    && d.rows.Keys == t.rows.Keys
    && (forall id :: id in d.rows && id !in ids ==> t.rows[id] == d.rows[id])
    && (forall id :: id in d.rows ==> d.rows[id].attempts <= t.rows[id].attempts)
  }

  lemma AttemptWorks(d: Desk, id: RowId, at: int)
    requires id in d.rows
    ensures var t := Attempt(d, id, at);
            && Worked(d, [id], t)
            && (if Stops(d, id) then t.rows[id].attempts == d.rows[id].attempts + 1 else t.rows[id].sentAt.Some?)
  {
    AttemptRecords(d, id, at);
    hide Attempt;
    hide Enqueue;
    hide Backoff;
  }

  lemma WorkedOnward(d: Desk, id: RowId, rest: seq<RowId>, t: Desk, u: Desk)
    requires Worked(d, [id], t) && Worked(t, rest, u)
    ensures Worked(d, [id] + rest, u)
  {
  }

  /** A pass that meets no failure delivers every row it claimed; one that does records it on a row. */
  lemma {:induction false} PassWorks(d: Desk, ids: seq<RowId>, at: int)
    requires Distinct(ids) && forall id :: id in ids ==> id in d.rows
    ensures var t := PassOver(d, ids, at);
            && Worked(d, ids, t) && PassCount(d, ids, at) <= |ids|
            && (!Halts(d, ids, at) ==>
                PassCount(d, ids, at) == |ids| && forall id :: id in ids ==> t.rows[id].sentAt.Some?)
            && (Halts(d, ids, at) ==> exists id :: id in ids && d.rows[id].attempts < t.rows[id].attempts)
    decreases |ids|
  {
    if ids != [] {
      var next, rest := Attempt(d, ids[0], at), ids[1..];
      assert ids == [ids[0]] + rest && ids[0] in ids;
      AttemptWorks(d, ids[0], at);
      hide Attempt;
      if Stops(d, ids[0]) {
        WorkedItself(next);
        WorkedOnward(d, ids[0], [], next, next);
        assert forall id :: id in [ids[0]] + [] ==> id in ids;
      } else {
        assert forall k :: 0 <= k < |rest| ==> rest[k] == ids[k + 1];
        PassWorks(next, rest, at);
        WorkedOnward(d, ids[0], rest, next, PassOver(next, rest, at));
      }
    }
  }

  lemma WorkedItself(d: Desk)
    ensures Worked(d, [], d)
  {
  }

  ghost predicate NoneDue(rows: map<RowId, Row>, at: int) {
    forall id :: id in rows ==> !Due(rows, id, at)
  }

  ghost predicate FailureRecorded(rows: map<RowId, Row>, after: map<RowId, Row>) {
    exists id :: id in rows && id in after && rows[id].attempts < after[id].attempts
  }

  /** No row comes or goes, attempts only grow, and a delivered row is not touched again. */
  ghost predicate SentStay(rows: map<RowId, Row>, after: map<RowId, Row>) {
    && rows.Keys == after.Keys
    && (forall id :: id in rows ==> rows[id].attempts <= after[id].attempts)
    && (forall id :: id in rows && rows[id].sentAt.Some? ==> after[id] == rows[id])
  }

  lemma SentStayTransitive(a: map<RowId, Row>, b: map<RowId, Row>, c: map<RowId, Row>)
    requires SentStay(a, b) && SentStay(b, c)
    ensures SentStay(a, c)
    ensures FailureRecorded(b, c) ==> FailureRecorded(a, c)
  {
  }

  lemma SentStayItself(rows: map<RowId, Row>)
    ensures SentStay(rows, rows)
  {
  }

  lemma WorkedSentStays(d: Desk, ids: seq<RowId>, t: Desk)
    requires Worked(d, ids, t) && forall id :: id in ids ==> id in Unsent(d)
    ensures SentStay(d.rows, t.rows)
  {
  }

  /** A batch cut short left a failure on record, or delivered all there was. */
  lemma ShortBatch(d: Desk, at: int, ids: seq<RowId>, batch: nat)
    requires IsClaim(d.rows, {}, at, ids, batch) && forall id :: id in ids ==> id in d.rows
    requires PassCount(d, ids, at) < batch
    ensures FailureRecorded(d.rows, PassOver(d, ids, at).rows) || NoneDue(PassOver(d, ids, at).rows, at)
  {
    hide PassOver;
    hide PassCount;
    hide Halts;
    hide IsClaim;
    ShortClaimIsAll(d.rows, at, ids, batch);
    PassWorks(d, ids, at);
    var t := PassOver(d, ids, at);
    if Halts(d, ids, at) {
      var id :| id in ids && d.rows[id].attempts < t.rows[id].attempts;
      assert id in d.rows && id in t.rows;
    } else {
      forall id | id in t.rows ensures !Due(t.rows, id, at) {
        if id !in ids { assert t.rows[id] == d.rows[id]; }
      }
    }
  }

  lemma QuietBatch(d: Desk, t: Desk)
    requires d.refused == d.lost == multiset{} && SameTries(d, t) && Shrinks(d, t)
    ensures t.refused == t.lost == multiset{} && !FailureRecorded(d.rows, t.rows)
  {
    forall id | id in d.rows ensures d.rows[id].attempts == t.rows[id].attempts {
      assert Tries(t, id) == Tries(d, id);
    }
  }

  /** What one batch does, in the terms of the loop. */
  lemma OneBatch(d: Desk, at: int, ids: seq<RowId>, batch: nat)
    requires IsClaim(d.rows, {}, at, ids, batch) && AllKnown(d)
    ensures Distinct(ids) && forall id :: id in ids ==> id in d.rows
    ensures var t := PassOver(d, ids, at);
            && AllKnown(t) && SentStay(d.rows, t.rows) && Left(t) == Left(d) - PassCount(d, ids, at)
            && (PassCount(d, ids, at) < batch ==> FailureRecorded(d.rows, t.rows) || NoneDue(t.rows, at))
            && (d.refused == d.lost == multiset{} ==>
                t.refused == t.lost == multiset{} && !FailureRecorded(d.rows, t.rows))
  {
    hide *;
    ClaimedAreUnsent(d, at, ids, batch);
    PassProgress(d, ids, at);
    PassWorks(d, ids, at);
    FailuresShrink(d, ids, at);
    WorkedSentStays(d, ids, PassOver(d, ids, at));
    if PassCount(d, ids, at) < batch { ShortBatch(d, at, ids, batch); }
    if d.refused == d.lost == multiset{} { QuietBatch(d, PassOver(d, ids, at)); }
  }

  /**
   Relays batches, the k-th at clock(k), until one does not commit or records less than a full batch.  Unless
   the last did not commit, it then left a failure on record or nothing due.
   */
  method DrainDue(w: RelayWorker, s: Schedule) returns (polls: nat, ok: bool)
    requires Answering(s) && AllKnown(w.State())
    modifies w
    ensures polls >= 1 && SentStay(old(w.rows), w.rows)
    ensures ok <==> s.commits(polls - 1)
    ensures ok ==> FailureRecorded(old(w.rows), w.rows) || NoneDue(w.rows, s.clock(polls - 1))
    ensures ok && old(w.refused == w.lost == multiset{}) ==> NoneDue(w.rows, s.clock(polls - 1))
    ensures s.batch * (polls - 1) <= old(Left(w.State()))
  {
    hide PassOver;
    hide PassCount;
    hide IsClaim;
    hide SentStay;
    hide Left;
    hide AllKnown;
    hide NoneDue;
    hide FailureRecorded;
    polls := 0;
    ghost var all := Left(w.State());
    ghost var quiet := w.refused == w.lost == multiset{};
    SentStayItself(w.rows);
    while true
      invariant AllKnown(w.State()) && SentStay(old(w.rows), w.rows)
      invariant s.batch * polls + Left(w.State()) <= all
      invariant quiet ==> w.refused == w.lost == multiset{}
      decreases Left(w.State())
    {
      ghost var before := w.State();
      var at := s.clock(polls);
      var ids := s.query(w.rows, at);
      OneBatch(before, at, ids, s.batch);
      var done := w.RelayOnce(ids, at, s.commits(polls));
      polls := polls + 1;
      if done.Err? {
        return polls, false;
      }
      SentStayTransitive(old(w.rows), before.rows, w.rows);
      if done.value < s.batch {
        return polls, true;
      }
    }
  }
}
