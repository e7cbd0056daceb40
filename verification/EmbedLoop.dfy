/** Embedding a run's staged chunks a batch at a time, and a failed batch's texts one by one. */
module EmbedLoop {
  import opened Common

  const BATCH: nat := 50

  type Index = nat
  type Vector = seq<real>

  /** A staged text: still to embed, embedded, or left out. */
  datatype Stage = Pending | Embedded(v: Vector) | Failed
  type Stages = map<Index, Stage>

  /** The embedder's answer to the n-th call with these texts; a wrong number of vectors counts as none. */
  type Embedder = (nat, seq<Index>) -> Option<seq<Vector>>

  function Begin(texts: set<Index>): Stages {
    map i | i in texts :: Pending
  }

  predicate Good(answer: Option<seq<Vector>>, batch: seq<Index>) {
    answer.Some? && |answer.value| == |batch|
  }

  function Open(stages: Stages): set<Index> {
    set i | i in stages && stages[i].Pending?
  }

  ghost predicate Ascending(s: seq<Index>) {
    forall a, b :: 0 <= a < b < |s| ==> s[a] < s[b]
  }

  /** The query's answer: the first limit open texts, in order. */
  ghost predicate FirstOpen(stages: Stages, limit: nat, rows: seq<Index>) {
    && |rows| <= limit && Ascending(rows)
    && (forall i :: i in rows ==> i in Open(stages))
    && (forall i :: i in Open(stages) && i !in rows ==> |rows| == limit && forall j :: j in rows ==> j < i)
  }

  /** A call carries the fifty lowest open texts, or all of them when they are fewer. */
  lemma FiftyAtATime(stages: Stages, rows: seq<Index>)
    requires FirstOpen(stages, BATCH, rows)
    ensures |rows| <= 50 && forall a, b :: 0 <= a < b < |rows| ==> rows[a] < rows[b]
    ensures forall i :: i in rows ==> i in stages && stages[i].Pending?
    ensures forall i :: i in stages && stages[i].Pending? && i !in rows ==>
              |rows| == 50 && forall j :: j in rows ==> j < i
  {
    assert forall i :: i in stages && stages[i].Pending? ==> i in Open(stages);
  }

  /** Calls left: each open text costs at most two, its batch's and its own. */
  function Left(stages: Stages, single: seq<Index>): nat {
    2 * |Open(stages)| + if single == [] then 1 else 0
  }

  function WithVectors(stages: Stages, batch: seq<Index>, vecs: seq<Vector>): Stages
    requires |vecs| == |batch|
  {
    map i | i in stages :: if i in batch then Embedded(vecs[At(batch, i)]) else stages[i]
  }

  function WithFailed(stages: Stages, batch: seq<Index>): Stages {
    map i | i in stages :: if i in batch then Failed else stages[i]
  }

  function At(s: seq<Index>, i: Index): (k: nat)
    requires i in s
    ensures k < |s| && s[k] == i
  {
    if s[0] == i then 0 else 1 + At(s[1..], i)
  }

  /** A settled text was settled by a call: embedded with its vector, or failed alone. */
  ghost predicate ExplainedAt(embed: Embedder, calls: nat, i: Index, st: Stage) {
    match st
    case Pending => true
    case Embedded(v) => exists n, batch, k :: FromCall(embed, calls, n, batch, k, i, v)
    case Failed => exists n :: FailedAlone(embed, calls, n, i)
  }

  ghost predicate Explained(stages: Stages, embed: Embedder, calls: nat) {
    forall i :: i in stages ==> ExplainedAt(embed, calls, i, stages[i])
  }

  predicate FromCall(embed: Embedder, calls: nat, n: nat, batch: seq<Index>, k: nat, i: Index, v: Vector) {
    n < calls && Good(embed(n, batch), batch) && k < |batch| && batch[k] == i && embed(n, batch).value[k] == v
  }

  predicate FailedAlone(embed: Embedder, calls: nat, n: nat, i: Index) {
    n < calls && !Good(embed(n, [i]), [i])
  }

  /** What a run carries from call to call: the stages, the batch in flight and the texts to retry alone. */
  datatype Progress = Progress(stages: Stages, batch: seq<Index>, single: seq<Index>)

  /** The texts of the next call. */
  function Rows(single: seq<Index>, pending: seq<Index>): seq<Index> {
    if single != [] then [single[0]] else pending
  }

  /** The batch in flight settled: stored, split into its texts, or a single text left out. */
  function After(p: Progress, answer: Option<seq<Vector>>): Progress {
    var rest := if p.single != [] then p.single[1..] else [];
    if Good(answer, p.batch) then Progress(WithVectors(p.stages, p.batch, answer.value), [], rest)
    else if |p.batch| > 1 && p.single == [] then Progress(p.stages, [], p.batch)
    else Progress(WithFailed(p.stages, p.batch), [], rest)
  }

  ghost predicate AllOpen(stages: Stages, rows: seq<Index>) {
    Ascending(rows) && forall i :: i in rows ==> i in Open(stages)
  }

  ghost predicate Sound(p: Progress) {
    && AllOpen(p.stages, p.single) && AllOpen(p.stages, p.batch)
    && (p.batch != [] && p.single != [] ==> p.batch == [p.single[0]])
  }

  class EmbedRun {
    var stages: Stages
    var batch: seq<Index>
    var single: seq<Index>

    ghost function Now(): Progress
      reads this
    {
      Progress(stages, batch, single)
    }

    ghost predicate Valid()
      reads this
    {
      Sound(Now())
    }

    constructor (texts: set<Index>)
      ensures Valid() && stages == Begin(texts) && batch == [] && single == []
    {
      stages, batch, single := Begin(texts), [], [];
    }

    /** Plans the next call: the head of the singles, or the next batch; nothing once every text is settled. */
    method Next(pending: seq<Index>) returns (more: bool)
      requires Valid() && batch == [] && FirstOpen(stages, BATCH, pending)
      modifies this`batch
      ensures Valid() && batch == Rows(single, pending)
      ensures more <==> batch != []
      ensures !more <==> Open(stages) == {}
    {
      PlanIsSound(Now(), pending);
      var rows := if single != [] then single[..1] else pending;
      if rows == [] {
        return false;
      }
      batch := rows;
      return true;
    }

    /** Settles the call in flight. */
    method Settle(answer: Option<seq<Vector>>)
      requires Valid() && batch != []
      modifies this
      ensures Valid() && Now() == After(old(Now()), answer) && batch == []
      ensures if Good(answer, old(batch)) then stages == WithVectors(old(stages), old(batch), answer.value)
              else if |old(batch)| > 1 then stages == old(stages)
              else stages == WithFailed(old(stages), old(batch))
      ensures single == if old(single) != [] then old(single)[1..]
                        else if !Good(answer, old(batch)) && |old(batch)| > 1 then old(batch) else []
    {
      AfterIsSound(Now(), answer);
      hide AllOpen;
      hide WithVectors;
      hide WithFailed;
      var inFlight, solo := batch, single != [];
      batch := [];
      if Good(answer, inFlight) {
        stages := WithVectors(stages, inFlight, answer.value);
      } else if |inFlight| > 1 && !solo {
        single := inFlight;
        return;
      } else {
        stages := WithFailed(stages, inFlight);
      }
      if solo {
        single := single[1..];
      }
    }
  }

  /** A planned batch is open texts, and there is none only when every text is settled. */
  lemma PlanIsSound(p: Progress, pending: seq<Index>)
    requires Sound(p) && p.batch == [] && FirstOpen(p.stages, BATCH, pending)
    ensures Sound(p.(batch := Rows(p.single, pending)))
    ensures Rows(p.single, pending) == [] <==> Open(p.stages) == {}
  {
    if p.single != [] { assert p.single[0] in p.single; }
    if pending != [] { assert pending[0] in pending; }
  }

  /** Settling a call leaves the other singles open, so the next plan finds what it needs. */
  lemma AfterIsSound(p: Progress, answer: Option<seq<Vector>>)
    requires Sound(p) && p.batch != []
    ensures Sound(After(p, answer)) && After(p, answer).batch == [] && After(p, answer).stages.Keys == p.stages.Keys
  {
    var after := After(p, answer);
    if p.single != [] {
      forall i | i in p.single[1..] ensures i in Open(after.stages) {
        var k :| 0 <= k < |p.single| - 1 && p.single[1..][k] == i;
        assert p.single[k + 1] == i && i != p.single[0] && i in p.single;
      }
    }
  }

  // ---------------------------------------------------------------- the query always has an answer

  lemma {:induction false} Least(open: set<Index>) returns (m: Index)
    requires open != {}
    ensures m in open && forall i :: i in open ==> m <= i
    decreases open
  {
    m :| m in open;
    if open != {m} {
      var n := Least(open - {m});
      assert forall i :: i in open ==> i == m || i in open - {m};
      if n < m { m := n; }
    }
  }

  lemma {:induction false} FirstOf(open: set<Index>, limit: nat) returns (rows: seq<Index>)
    ensures |rows| <= limit && Ascending(rows) && forall i :: i in rows ==> i in open
    ensures forall i :: i in open && i !in rows ==> |rows| == limit && forall j :: j in rows ==> j < i
  {
    if open == {} || limit == 0 { return []; }
    var m := Least(open);
    var rest := FirstOf(open - {m}, limit - 1);
    forall k | 0 <= k < |rest| ensures m < rest[k] { assert rest[k] in rest && rest[k] in open - {m}; }
    rows := [m] + rest;
  }

  lemma FirstOpenExists(stages: Stages, limit: nat) returns (rows: seq<Index>)
    ensures FirstOpen(stages, limit, rows)
  {
    rows := FirstOf(Open(stages), limit);
  }

  // ---------------------------------------------------------------- the whole loop

  lemma OpenShrinks(stages: Stages, after: Stages, batch: seq<Index>)
    requires batch != [] && after.Keys == stages.Keys && forall i :: i in batch ==> i in Open(stages)
    requires forall i :: i in stages ==> if i in batch then !after[i].Pending? else after[i] == stages[i]
    ensures |Open(after)| < |Open(stages)|
  {
    assert batch[0] in batch;
    Smaller(Open(after), Open(stages), batch[0]);
  }

  lemma Smaller<T>(a: set<T>, b: set<T>, x: T)
    requires a <= b && x in b && x !in a
    ensures |a| < |b|
  {
    assert b == a + (b - a);
    assert x in b - a;
  }

  /** Each call uses up at least one of the calls left. */
  lemma AfterUsesUp(p: Progress, answer: Option<seq<Vector>>)
    requires Sound(p) && p.batch != []
    ensures Left(After(p, answer).stages, After(p, answer).single) < Left(p.stages, p.single)
  {
    var after := After(p, answer);
    if Good(answer, p.batch) || |p.batch| == 1 { OpenShrinks(p.stages, after.stages, p.batch); }
  }

  /** The calls that can still come: one for each open text, and one for each fifty not yet being retried alone. */
  function AtMost(stages: Stages, single: seq<Index>): int {
    |Open(stages)| + (|Open(stages)| - |single| + 49) / 50
  }

  function Elements(rows: seq<Index>): set<Index> {
    set i | i in rows
  }

  lemma LastApart(rows: seq<Index>)
    requires Ascending(rows) && rows != []
    ensures var init, last := rows[..|rows| - 1], rows[|rows| - 1];
            Ascending(init) && last !in Elements(init) && Elements(rows) == Elements(init) + {last}
  {
    assert rows == rows[..|rows| - 1] + [rows[|rows| - 1]];
  }

  lemma {:induction false} AscendingSize(rows: seq<Index>)
    requires Ascending(rows)
    ensures |Elements(rows)| == |rows|
    decreases |rows|
  {
    if rows == [] {
      assert Elements(rows) == {};
    } else {
      LastApart(rows);
      hide Elements;
      hide Ascending;
      AscendingSize(rows[..|rows| - 1]);
    }
  }

  lemma OpenShrinksBy(stages: Stages, after: Stages, batch: seq<Index>)
    requires Ascending(batch) && after.Keys == stages.Keys && forall i :: i in batch ==> i in Open(stages)
    requires forall i :: i in stages ==> if i in batch then !after[i].Pending? else after[i] == stages[i]
    ensures |Open(after)| == |Open(stages)| - |batch|
  {
    AscendingSize(batch);
    assert Open(after) == Open(stages) - Elements(batch);
    assert Elements(batch) <= Open(stages);
    Split(Elements(batch), Open(stages));
  }

  lemma Split<T>(a: set<T>, b: set<T>)
    requires a <= b
    ensures |b| == |a| + |b - a|
  {
    assert b == a + (b - a);
  }

  lemma BatchSize(stages: Stages, rows: seq<Index>)
    requires FirstOpen(stages, BATCH, rows)
    ensures |rows| == if |Open(stages)| < 50 then |Open(stages)| else 50
  {
    AscendingSize(rows);
    var taken := Elements(rows);
    assert taken <= Open(stages);
    if i :| i in Open(stages) && i !in rows {
      Smaller(taken, Open(stages), i);
    } else {
      assert taken == Open(stages);
    }
  }

  lemma FewerLeft(open: int, single: int, batch: int)
    requires open >= single >= 0 && 0 < batch <= open
    ensures single > 0 ==> open - 1 + (open - 1 - (single - 1) + 49) / 50 < open + (open - single + 49) / 50
    ensures open - batch + (open - batch + 49) / 50 < open + (open + 49) / 50
    ensures batch == 50 || batch == open ==> (open - batch + 49) / 50 < (open + 49) / 50
  {
  }

  /** A batch's texts are tried together once and then, if that failed, alone once each: no call is repeated. */
  lemma AfterIsCloser(p: Progress, answer: Option<seq<Vector>>)
    requires Sound(p) && p.batch != [] && (p.single == [] ==> FirstOpen(p.stages, BATCH, p.batch))
    ensures AtMost(After(p, answer).stages, After(p, answer).single) < AtMost(p.stages, p.single)
    ensures AtMost(p.stages, p.single) > 0
  {
    var after := After(p, answer);
    if p.single == [] { BatchSize(p.stages, p.batch); }
    if Good(answer, p.batch) || |p.batch| == 1 { OpenShrinksBy(p.stages, after.stages, p.batch); }
    SinglesAreOpen(p.stages, p.single);
    SinglesAreOpen(p.stages, p.batch);
    FewerLeft(|Open(p.stages)|, |p.single|, |p.batch|);
    hide Open;
    hide AllOpen;
    hide FirstOpen;
    hide WithVectors;
    hide WithFailed;
  }

  lemma SinglesAreOpen(stages: Stages, rows: seq<Index>)
    requires AllOpen(stages, rows)
    ensures |rows| <= |Open(stages)|
  {
    AscendingSize(rows);
    assert Elements(rows) <= Open(stages);
    Split(Elements(rows), Open(stages));
  }

  lemma MoreCalls(embed: Embedder, calls: nat, i: Index, st: Stage)
    requires ExplainedAt(embed, calls, i, st)
    ensures ExplainedAt(embed, calls + 1, i, st)
  {
    match st
    case Pending =>
    case Embedded(v) =>
      var n, batch, k :| FromCall(embed, calls, n, batch, k, i, v);
      assert FromCall(embed, calls + 1, n, batch, k, i, v);
    case Failed =>
      var n :| FailedAlone(embed, calls, n, i);
      assert FailedAlone(embed, calls + 1, n, i);
  }

  lemma SettleExplains(stages: Stages, batch: seq<Index>, embed: Embedder, calls: nat, after: Stages)
    requires Explained(stages, embed, calls) && Ascending(batch)
    requires var answer := embed(calls, batch);
             if Good(answer, batch) then after == WithVectors(stages, batch, answer.value)
             else if |batch| > 1 then after == stages
             else after == WithFailed(stages, batch)
    ensures Explained(after, embed, calls + 1)
  {
    var answer := embed(calls, batch);
    forall i | i in after ensures ExplainedAt(embed, calls + 1, i, after[i]) {
      if i in batch && Good(answer, batch) {
        assert FromCall(embed, calls + 1, calls, batch, At(batch, i), i, answer.value[At(batch, i)]);
      } else if i in batch && |batch| == 1 {
        assert batch == [i];
        assert FailedAlone(embed, calls + 1, calls, i);
      } else {
        MoreCalls(embed, calls, i, stages[i]);
      }
    }
  }

  /**
   However the embedder answers, the loop ends after at most one call a text and one for each fifty; each text then
   has the vector some call returned in its place, or failed in a call of its own.
   */
  method EmbedAll(texts: set<Index>, embed: Embedder, query: Stages -> seq<Index>) returns (stages: Stages, calls: nat)
    requires forall st :: FirstOpen(st, BATCH, query(st))
    ensures stages.Keys == texts && Open(stages) == {}
    ensures Explained(stages, embed, calls)
    ensures calls <= |texts| + (|texts| + 49) / 50
  {
    hide Explained;
    hide FirstOpen;
    hide WithVectors;
    hide WithFailed;
    hide Begin;
    var run := new EmbedRun(texts);
    calls := 0;
    StartExplained(texts, embed);
    var more := run.Next(query(run.stages));
    while more
      invariant fresh(run) && run.Valid() && run.stages.Keys == texts && Explained(run.stages, embed, calls)
      invariant calls + AtMost(run.stages, run.single) <= |texts| + (|texts| + 49) / 50
      invariant !more ==> Open(run.stages) == {} && run.single == []
      invariant more ==> run.batch != [] && run.batch == Rows(run.single, query(run.stages))
      decreases AtMost(run.stages, run.single), more
    {
      ghost var before := run.Now();
      var answer := embed(calls, run.batch);
      AfterIsCloser(before, answer);
      AfterIsSound(before, answer);
      run.Settle(answer);
      SettleExplains(before.stages, before.batch, embed, calls, run.stages);
      calls := calls + 1;
      more := run.Next(query(run.stages));
    }
    stages := run.stages;
  }

  lemma StartExplained(texts: set<Index>, embed: Embedder)
    ensures Explained(Begin(texts), embed, 0) && Open(Begin(texts)) == texts && Begin(texts).Keys == texts
  {
  }

  /** One bad text cannot fail its neighbours: a text the embedder takes on its own is embedded. */
  lemma NeighboursAreSafe(stages: Stages, embed: Embedder, calls: nat, i: Index)
    requires Explained(stages, embed, calls) && Open(stages) == {} && i in stages
    requires forall n :: Good(embed(n, [i]), [i])
    ensures stages[i].Embedded?
  {
    assert i !in Open(stages);
  }

  // ---------------------------------------------------------------- the run's verdict

  datatype Verdict = Ready | PartlyEmbedded | AllFailed | RetryLater

  /** attempts, embedded and failures as the stage table tallies them. */
  function Settled(attempts: nat, embedded: nat, failures: nat, lastAttempt: bool): Verdict {
    if attempts == 0 then Ready
    else if embedded == 0 then (if lastAttempt then AllFailed else RetryLater)
    else if failures > 0 then PartlyEmbedded
    else Ready
  }

  function Embeddeds(stages: Stages): set<Index> {
    set i | i in stages && stages[i].Embedded?
  }

  function Faileds(stages: Stages): set<Index> {
    set i | i in stages && stages[i].Failed?
  }

  /**
   Over a finished loop: ready means every text embedded, and only a total failure before the last attempt
   retries.
   */
  lemma VerdictMeans(stages: Stages, lastAttempt: bool)
    requires Open(stages) == {}
    ensures var v := Settled(|stages|, |Embeddeds(stages)|, |Faileds(stages)|, lastAttempt);
            && (v == Ready <==> Faileds(stages) == {})
            && (v == PartlyEmbedded <==> Embeddeds(stages) != {} && Faileds(stages) != {})
            && (v == RetryLater <==> !lastAttempt && stages != map[] && Faileds(stages) == stages.Keys)
            && (v == AllFailed <==> lastAttempt && stages != map[] && Faileds(stages) == stages.Keys)
  {
    forall i | i in stages ensures i in Embeddeds(stages) || i in Faileds(stages) { assert i !in Open(stages); }
    assert stages.Keys == Embeddeds(stages) + Faileds(stages);
    assert |stages| == |stages.Keys|;
    if Embeddeds(stages) == {} { assert Faileds(stages) == stages.Keys; }
  }
}
