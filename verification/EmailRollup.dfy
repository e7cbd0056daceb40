/** The engagement columns of a sent mail, rebuilt from its webhook events in whatever order they arrive. */
module EmailRollup {
  import opened Common

  datatype SvixId = SvixId(text: string)

  datatype Kind = Delivery | Open | Click | Delay | Bounce | Complaint

  datatype Status =
    | Unknown | Queued | Sent | Delivered | Opened | Clicked
    | SkippedSuppressed | SkippedDisabled | Failed | Bounced | Complained

  function Rank(s: Status): nat {
    match s
    case Queued => 1
    case Sent => 2
    case Delivered => 3
    case Opened => 4
    case Clicked => 5
    case SkippedDisabled => 6
    case SkippedSuppressed => 6
    case Failed => 7
    case Bounced => 8
    case Complained => 8
    case Unknown => 0
  }

  function StatusFor(k: Kind): Status {
    match k
    case Delivery => Delivered
    case Open => Opened
    case Click => Clicked
    case Bounce => Bounced
    case Complaint => Complained
    case Delay => Unknown
  }

  // ---------------------------------------------------------------- the status alone

  /** A status advances to what an event implies only when that ranks higher. */
  function Advance(s: Status, k: Kind): Status {
    if Rank(StatusFor(k)) > Rank(s) then StatusFor(k) else s
  }

  /** The status after events of these kinds, in order of arrival. */
  function Fold(s: Status, kinds: seq<Kind>): Status {
    if kinds == [] then s else Advance(Fold(s, kinds[..|kinds| - 1]), kinds[|kinds| - 1])
  }

  lemma {:induction false} FoldNeverRegresses(s: Status, kinds: seq<Kind>, n: nat)
    requires n <= |kinds|
    ensures Rank(Fold(s, kinds[..n])) <= Rank(Fold(s, kinds))
    decreases |kinds|
  {
    if n == |kinds| {
      assert kinds[..n] == kinds;
    } else {
      FoldNeverRegresses(s, kinds[..|kinds| - 1], n);
      assert kinds[..|kinds| - 1][..n] == kinds[..n];
    }
  }

  /** The fold reaches the furthest of the start and all implied states, and is one of them. */
  lemma {:induction false} FoldIsFurthest(s: Status, kinds: seq<Kind>)
    ensures Rank(s) <= Rank(Fold(s, kinds)) && forall k :: k in kinds ==> Rank(StatusFor(k)) <= Rank(Fold(s, kinds))
    ensures Fold(s, kinds) == s
            || (Rank(s) < Rank(Fold(s, kinds)) && exists k :: k in kinds && Fold(s, kinds) == StatusFor(k))
    decreases |kinds|
  {
    if kinds != [] {
      var init, last := kinds[..|kinds| - 1], kinds[|kinds| - 1];
      FoldIsFurthest(s, init);
      assert kinds == init + [last];
      if Fold(s, kinds) != s && Fold(s, kinds) == Fold(s, init) {
        var k :| k in init && Fold(s, init) == StatusFor(k);
        assert k in kinds;
      }
    }
  }

  /**
   Short of a bounce or complaint the status is the furthest of sent, delivered, opened, clicked; delays are
   nothing.
   */
  lemma {:induction false} PositiveChain(s: Status, kinds: seq<Kind>)
    requires (s.Queued? || s.Sent?) && forall k :: k in kinds ==> !k.Bounce? && !k.Complaint?
    ensures Fold(s, kinds) == if Click in kinds then Clicked else if Open in kinds then Opened
                              else if Delivery in kinds then Delivered else s
    decreases |kinds|
  {
    if kinds != [] {
      var init, last := kinds[..|kinds| - 1], kinds[|kinds| - 1];
      assert kinds == init + [last] && last in kinds;
      PositiveChain(s, init);
    }
  }

  /** Terminal-negative states outrank the positive ones, skipped sends lie between, and only equals tie. */
  lemma RanksInOrder()
    ensures Rank(Unknown) < Rank(Queued) < Rank(Sent) < Rank(Delivered) < Rank(Opened) < Rank(Clicked)
    ensures Rank(Clicked) < Rank(SkippedDisabled) == Rank(SkippedSuppressed) < Rank(Failed) < Rank(Bounced) ==
            Rank(Complained)
  {
  }

  ghost predicate SameKinds(a: seq<Kind>, b: seq<Kind>) {
    forall k :: k in a <==> k in b
  }

  /** Both terminal-negative kinds arrive and the mail is not yet at their rank. */
  predicate Tied(s: Status, kinds: seq<Kind>) {
    Rank(s) < 8 && Bounce in kinds && Complaint in kinds
  }

  lemma SameRank(s: Status, a: seq<Kind>, b: seq<Kind>)
    requires SameKinds(a, b)
    ensures Rank(Fold(s, a)) == Rank(Fold(s, b))
  {
    FoldIsFurthest(s, a);
    FoldIsFurthest(s, b);
  }

  /** Only a bounce and a complaint share a rank. */
  lemma RankTells(k: Kind, m: Kind)
    requires Rank(StatusFor(k)) == Rank(StatusFor(m)) > 0 && k != m
    ensures ((k == Bounce && m == Complaint) || (k == Complaint && m == Bounce)) && Rank(StatusFor(k)) == 8
  {
  }

  /** Reordered and redelivered: the same status, unless a bounce and a complaint compete for the top rank. */
  lemma OrderDoesNotMatter(s: Status, a: seq<Kind>, b: seq<Kind>)
    requires SameKinds(a, b) && !Tied(s, a)
    ensures Fold(s, a) == Fold(s, b)
  {
    hide Rank;
    hide StatusFor;
    hide Fold;
    FoldIsFurthest(s, a);
    FoldIsFurthest(s, b);
    SameRank(s, a, b);
    if Fold(s, a) != s && Fold(s, b) != s {
      var k :| k in a && Fold(s, a) == StatusFor(k);
      var m :| m in b && Fold(s, b) == StatusFor(m);
      if k != m { RankTells(k, m); }
    }
  }

  lemma {:induction false} TopRankStays(s: Status, kinds: seq<Kind>)
    requires Rank(s) == 8
    ensures Fold(s, kinds) == s
    decreases |kinds|
  {
    if kinds != [] { TopRankStays(s, kinds[..|kinds| - 1]); }
  }

  lemma {:induction false} FoldFrom(s: Status, a: seq<Kind>, b: seq<Kind>)
    ensures Fold(s, a + b) == Fold(Fold(s, a), b)
    decreases |b|
  {
    if b == [] {
      assert a + b == a;
    } else {
      assert (a + b)[..|a + b| - 1] == a + b[..|b| - 1];
      FoldFrom(s, a, b[..|b| - 1]);
    }
  }

  predicate Terminal(k: Kind) {
    k.Bounce? || k.Complaint?
  }

  /** The first bounce or complaint decides for good: nothing before it can outrank it and nothing after it moves it. */
  lemma FirstTerminalWins(s: Status, kinds: seq<Kind>, n: nat)
    requires Rank(s) < 8 && n < |kinds| && Terminal(kinds[n]) && forall j :: 0 <= j < n ==> !Terminal(kinds[j])
    ensures Fold(s, kinds) == if kinds[n].Bounce? then Bounced else Complained
  {
    var before, k, after := kinds[..n], kinds[n], kinds[n + 1..];
    assert kinds == before + ([k] + after);
    FoldFrom(s, before, [k] + after);
    FoldIsFurthest(s, before);
    FoldFrom(Fold(s, before), [k], after);
    assert [k][..0] == [] && Fold(Fold(s, before), [k]) == StatusFor(k);
    TopRankStays(StatusFor(k), after);
  }

  /** Exactly then does the arrival order decide: every other order of the same kinds agrees, or two disagree. */
  lemma OrderMattersIff(s: Status, a: seq<Kind>)
    ensures Tied(s, a) <==> exists b, c :: SameKinds(a, b) && SameKinds(a, c) && Fold(s, b) != Fold(s, c)
  {
    if Tied(s, a) {
      var b, c := [Bounce] + a, [Complaint] + a;
      FoldFrom(s, [Bounce], a);
      FoldFrom(s, [Complaint], a);
      assert Fold(s, [Bounce]) == Bounced && Fold(s, [Complaint]) == Complained;
      TopRankStays(Bounced, a);
      TopRankStays(Complained, a);
      assert SameKinds(a, b) && SameKinds(a, c);
    } else {
      forall b, c | SameKinds(a, b) && SameKinds(a, c) ensures Fold(s, b) == Fold(s, c) {
        OrderDoesNotMatter(s, a, b);
        OrderDoesNotMatter(s, a, c);
      }
    }
  }

  // ---------------------------------------------------------------- other writers of the status

  /** A rebuild from events that imply this much, or the unconditional update by the provider's message id. */
  datatype Write = Rebuild(implied: Status) | Overwrite(status: Status)

  function Written(s: Status, w: Write): Status {
    match w
    case Rebuild(implied) => if implied != Unknown && Rank(implied) > Rank(s) then implied else s
    case Overwrite(status) => status
  }

  function AllWritten(s: Status, writes: seq<Write>): Status
    decreases |writes|
  {
    if writes == [] then s else AllWritten(Written(s, writes[0]), writes[1..])
  }

  function Rebuilds(kinds: seq<Kind>): seq<Write> {
    seq(|kinds|, k requires 0 <= k < |kinds| => Rebuild(StatusFor(kinds[k])))
  }

  /** Rebuilds one event at a time are the fold, and an unconditional update is final until the next write. */
  lemma {:induction false} RebuildsFold(s: Status, kinds: seq<Kind>, status: Status)
    ensures AllWritten(s, Rebuilds(kinds)) == Fold(s, kinds)
    ensures AllWritten(s, Rebuilds(kinds) + [Overwrite(status)]) == status
    decreases |kinds|
  {
    if kinds == [] {
      assert [Overwrite(status)][1..] == [];
    } else {
      assert Rebuilds(kinds)[1..] == Rebuilds(kinds[1..]);
      assert (Rebuilds(kinds) + [Overwrite(status)])[1..] == Rebuilds(kinds[1..]) + [Overwrite(status)];
      assert kinds == [kinds[0]] + kinds[1..];
      FoldFrom(s, [kinds[0]], kinds[1..]);
      assert [kinds[0]][..0] == [];
      assert Fold(s, [kinds[0]]) == Written(s, Rebuild(StatusFor(kinds[0])));
      RebuildsFold(Written(s, Rebuild(StatusFor(kinds[0]))), kinds[1..], status);
    }
  }

  /** The status never falls in rank along the writes. */
  predicate NeverFalls(s: Status, writes: seq<Write>)
    decreases |writes|
  {
    writes != [] ==> Rank(s) <= Rank(Written(s, writes[0])) && NeverFalls(Written(s, writes[0]), writes[1..])
  }

  /** Every unconditional update writes a status that ranks at least as high as the row's at that moment. */
  predicate Guarded(s: Status, writes: seq<Write>)
    decreases |writes|
  {
    writes != [] ==>
      && (writes[0].Overwrite? ==> Rank(s) <= Rank(writes[0].status))
      && Guarded(Written(s, writes[0]), writes[1..])
  }

  /** Rebuilds never regress the status; an unconditional update may, and just those of a lower rank do. */
  lemma {:induction false} NeverFallsIff(s: Status, writes: seq<Write>)
    ensures NeverFalls(s, writes) <==> Guarded(s, writes)
    ensures NeverFalls(s, writes) ==> Rank(s) <= Rank(AllWritten(s, writes))
    decreases |writes|
  {
    hide Rank;
    if writes != [] { NeverFallsIff(Written(s, writes[0]), writes[1..]); }
  }

  // ---------------------------------------------------------------- the row and its events

  /** A stored event; key stands for its (created_at, id), which tell apart events of one moment. */
  datatype Event = Event(svix: SvixId, kind: Kind, at: int, key: int)
  type Events = map<SvixId, Event>

  /** The zero time, year 1, which reads as unset. */
  const ZERO: int := -62135596800000

  function Insert(events: Events, e: Event): Events {
    if e.svix in events then events else events[e.svix := e]
  }

  predicate Earlier(a: Event, b: Event) {
    a.at < b.at || (a.at == b.at && a.key < b.key)
  }

  /** The query's answer: every event once, oldest first. */
  ghost predicate Timeline(list: seq<Event>, events: Events) {
    && (forall i, j :: 0 <= i < j < |list| ==> Earlier(list[i], list[j]))
    && (forall e :: e in list <==> e.svix in events && events[e.svix] == e)
  }

  /** Moments and keys tell the events apart. */
  ghost predicate Apart(events: Events) {
    && (forall s :: s in events ==> events[s].svix == s)
    && (forall s, t :: s in events && t in events && s != t ==>
          events[s].at != events[t].at || events[s].key != events[t].key)
  }

  lemma {:induction false} EarliestOf(events: Events, who: set<SvixId>) returns (first: SvixId)
    requires Apart(events) && who <= events.Keys && |who| > 0
    ensures first in who && forall s :: s in who && s != first ==> Earlier(events[first], events[s])
    decreases |who|
  {
    var x :| x in who;
    var others := who - {x};
    if |others| == 0 {
      assert others == {};
      assert forall s :: s in who && s != x ==> s in others;
      return x;
    }
    var y := EarliestOf(events, others);
    first := if Earlier(events[y], events[x]) then y else x;
    forall s | s in who && s != first ensures Earlier(events[first], events[s]) {
      assert s == x || s in others;
      if s != x && s != y { assert Earlier(events[y], events[s]); }
    }
  }

  lemma {:induction false} InOrder(events: Events, who: set<SvixId>) returns (list: seq<Event>)
    requires Apart(events) && who <= events.Keys
    ensures forall i, j :: 0 <= i < j < |list| ==> Earlier(list[i], list[j])
    ensures forall e :: e in list <==> e.svix in who && events[e.svix] == e
    decreases |who|
  {
    if |who| == 0 { return []; }
    var first := EarliestOf(events, who);
    var rest := InOrder(events, who - {first});
    list := [events[first]] + rest;
    forall j | 0 <= j < |rest| ensures Earlier(events[first], rest[j]) { assert rest[j] in rest; }
    forall e ensures e in list <==> e.svix in who && events[e.svix] == e {
      assert e in list <==> e == events[first] || e in rest;
    }
  }

  /** The query always has an answer. */
  lemma TimelineExists(events: Events) returns (list: seq<Event>)
    requires Apart(events)
    ensures Timeline(list, events)
  {
    list := InOrder(events, events.Keys);
  }

  function Of(events: Events, k: Kind): set<SvixId> {
    set s | s in events && events[s].kind == k
  }

  ghost predicate IsEarliest(events: Events, k: Kind, t: Option<int>) {
    match t
    case None => forall s :: s in Of(events, k) ==> events[s].at == ZERO
    case Some(x) => x != ZERO && (exists s :: s in Of(events, k) && events[s].at == x)
                    && forall s :: s in Of(events, k) && events[s].at != ZERO ==> x <= events[s].at
  }

  ghost predicate IsLatest(events: Events, last: Option<Event>) {
    match last
    case None => events == map[]
    case Some(e) => e.svix in events && events[e.svix] == e && forall s :: s in events ==>
      events[s] == e || events[s].at < e.at || (events[s].at == e.at && events[s].key < e.key)
  }

  /** No stored event implies more than the status shows. */
  ghost predicate Settled(events: Events, status: Status) {
    forall s :: s in events ==> Rank(StatusFor(events[s].kind)) <= Rank(status)
  }

  function Count(list: seq<Event>, k: Kind): nat {
    if list == [] then 0 else Count(list[..|list| - 1], k) + if list[|list| - 1].kind == k then 1 else 0
  }

  function SvixOf(list: seq<Event>, k: Kind): set<SvixId> {
    if list == [] then {}
    else SvixOf(list[..|list| - 1], k) + if list[|list| - 1].kind == k then {list[|list| - 1].svix} else {}
  }

  lemma {:induction false} InSvixOf(list: seq<Event>, k: Kind, s: SvixId)
    ensures s in SvixOf(list, k) <==> exists j :: 0 <= j < |list| && list[j].kind == k && list[j].svix == s
    decreases |list|
  {
    if list != [] {
      var init := list[..|list| - 1];
      InSvixOf(init, k, s);
      assert forall j :: 0 <= j < |init| ==> init[j] == list[j];
    }
  }

  lemma {:induction false} CountIsSize(list: seq<Event>, k: Kind)
    requires forall i, j :: 0 <= i < j < |list| ==> list[i].svix != list[j].svix
    ensures Count(list, k) == |SvixOf(list, k)|
    decreases |list|
  {
    if list != [] {
      var init, last := list[..|list| - 1], list[|list| - 1];
      CountIsSize(init, k);
      InSvixOf(init, k, last.svix);
    }
  }

  lemma TimelineAt(list: seq<Event>, events: Events)
    requires Timeline(list, events)
    ensures forall j :: 0 <= j < |list| ==> list[j].svix in events && events[list[j].svix] == list[j]
    ensures forall s :: s in events && events[s].svix == s ==> exists j :: 0 <= j < |list| && list[j] == events[s]
    ensures forall i, j :: 0 <= i < j < |list| ==> Earlier(list[i], list[j])
  {
    forall j | 0 <= j < |list| ensures list[j].svix in events && events[list[j].svix] == list[j] {
      assert list[j] in list;
    }
  }

  lemma TimelineCounts(list: seq<Event>, events: Events, k: Kind)
    requires Timeline(list, events) && forall s :: s in events ==> events[s].svix == s
    ensures Count(list, k) == |Of(events, k)|
  {
    TimelineAt(list, events);
    hide Timeline;
    CountIsSize(list, k);
    forall s ensures s in SvixOf(list, k) <==> s in Of(events, k) {
      InSvixOf(list, k, s);
    }
    assert SvixOf(list, k) == Of(events, k);
  }

  /** The earliest set time of the kind among the first i events, ZERO when there is none. */
  ghost predicate Scanned(list: seq<Event>, i: nat, k: Kind, t: int)
    requires i <= |list|
  {
    && (t != ZERO ==> exists j :: 0 <= j < i && list[j].kind == k && list[j].at == t)
    && (forall j :: 0 <= j < i && list[j].kind == k && list[j].at != ZERO ==> t != ZERO && t <= list[j].at)
  }

  function Set(t: int): Option<int> {
    if t == ZERO then None else Some(t)
  }

  lemma ScannedAll(list: seq<Event>, events: Events, k: Kind, t: int)
    requires Timeline(list, events) && (forall s :: s in events ==> events[s].svix == s) && Scanned(list, |list|, k, t)
    ensures IsEarliest(events, k, Set(t))
  {
    forall s | s in Of(events, k) ensures exists j :: 0 <= j < |list| && list[j] == events[s] {
      assert events[s] in list;
    }
    if t != ZERO {
      var j :| 0 <= j < |list| && list[j].kind == k && list[j].at == t;
      assert list[j] in list && list[j].svix in Of(events, k);
    }
  }

  /** implied is the furthest state of the first i events. */
  ghost predicate Furthest(list: seq<Event>, i: nat, implied: Status)
    requires i <= |list|
  {
    && (forall j :: 0 <= j < i ==> Rank(StatusFor(list[j].kind)) <= Rank(implied))
    && (implied == Unknown || exists j :: 0 <= j < i && StatusFor(list[j].kind) == implied)
  }

  datatype Columns = Columns(opens: nat, clicks: nat, deliveredAt: int, firstOpenedAt: int, last: Option<Event>,
                             implied: Status)

  ghost predicate ScannedTo(list: seq<Event>, i: nat, c: Columns)
    requires i <= |list|
  {
    && c.opens == Count(list[..i], Open) && c.clicks == Count(list[..i], Click)
    && Scanned(list, i, Delivery, c.deliveredAt) && Scanned(list, i, Open, c.firstOpenedAt)
    && c.last == (if i == 0 then None else Some(list[i - 1]))
    && Furthest(list, i, c.implied)
  }

  lemma ScanOne(list: seq<Event>, i: nat, k: Kind, t: int)
    requires i < |list| && (forall a, b :: 0 <= a < b < |list| ==> Earlier(list[a], list[b])) && Scanned(list, i, k, t)
    ensures Scanned(list, i + 1, k, if list[i].kind == k && (t == ZERO || list[i].at < t) then list[i].at else t)
  {
  }

  function Next(c: Columns, e: Event): Columns {
    Columns(c.opens + if e.kind == Open then 1 else 0,
            c.clicks + if e.kind == Click then 1 else 0,
            if e.kind == Delivery && (c.deliveredAt == ZERO || e.at < c.deliveredAt) then e.at else c.deliveredAt,
            if e.kind == Open && (c.firstOpenedAt == ZERO || e.at < c.firstOpenedAt) then e.at else c.firstOpenedAt,
            Some(e),
            if Rank(StatusFor(e.kind)) > Rank(c.implied) then StatusFor(e.kind) else c.implied)
  }

  lemma FurthestNext(list: seq<Event>, i: nat, implied: Status)
    requires i < |list| && Furthest(list, i, implied)
    ensures var st := StatusFor(list[i].kind); Furthest(list, i + 1, if Rank(st) > Rank(implied) then st else implied)
  {
    hide Rank;
    hide StatusFor;
  }

  lemma ScanNext(list: seq<Event>, i: nat, c: Columns)
    requires i < |list| && (forall a, b :: 0 <= a < b < |list| ==> Earlier(list[a], list[b])) && ScannedTo(list, i, c)
    ensures ScannedTo(list, i + 1, Next(c, list[i]))
  {
    assert list[..i + 1][..i] == list[..i];
    ScanOne(list, i, Delivery, c.deliveredAt);
    ScanOne(list, i, Open, c.firstOpenedAt);
    FurthestNext(list, i, c.implied);
    hide Scanned;
    hide Furthest;
    hide Rank;
    hide StatusFor;
  }

  lemma ScanNone(list: seq<Event>)
    ensures ScannedTo(list, 0, Columns(0, 0, ZERO, ZERO, None, Unknown))
  {
  }

  /** The scan over the timeline. */
  method Scan(list: seq<Event>) returns (c: Columns)
    requires forall a, b :: 0 <= a < b < |list| ==> Earlier(list[a], list[b])
    ensures ScannedTo(list, |list|, c)
  {
    hide ScannedTo;
    hide Rank;
    hide StatusFor;
    var opens, clicks, deliveredAt, firstOpenedAt := 0, 0, ZERO, ZERO;
    var last: Option<Event>, implied := None, Unknown;
    ScanNone(list);
    for i := 0 to |list|
      invariant ScannedTo(list, i, Columns(opens, clicks, deliveredAt, firstOpenedAt, last, implied))
    {
      var e := list[i];
      ScanNext(list, i, Columns(opens, clicks, deliveredAt, firstOpenedAt, last, implied));
      match e.kind {
        case Open =>
          opens := opens + 1;
          if firstOpenedAt == ZERO || e.at < firstOpenedAt { firstOpenedAt := e.at; }
        case Click => clicks := clicks + 1;
        case Delivery => if deliveredAt == ZERO || e.at < deliveredAt { deliveredAt := e.at; }
        case _ =>
      }
      last := Some(e);
      if Rank(StatusFor(e.kind)) > Rank(implied) { implied := StatusFor(e.kind); }
    }
    c := Columns(opens, clicks, deliveredAt, firstOpenedAt, last, implied);
  }

  lemma LatestIsLast(list: seq<Event>, events: Events, c: Columns)
    requires Timeline(list, events) && (forall s :: s in events ==> events[s].svix == s) && ScannedTo(list, |list|, c)
    ensures IsLatest(events, c.last)
  {
    forall s | s in events ensures exists j :: 0 <= j < |list| && list[j] == events[s] {
      assert events[s] in list;
    }
    if list != [] { assert list[|list| - 1] in list; }
  }

  lemma FurthestOfAll(list: seq<Event>, events: Events, implied: Status)
    requires Timeline(list, events) && (forall s :: s in events ==> events[s].svix == s)
             && Furthest(list, |list|, implied)
    ensures Settled(events, implied)
    ensures implied == Unknown || exists s :: s in events && StatusFor(events[s].kind) == implied
  {
    TimelineAt(list, events);
    hide Timeline;
    if implied != Unknown {
      var j :| 0 <= j < |list| && StatusFor(list[j].kind) == implied;
      assert list[j].svix in events;
    }
  }

  lemma SettledWith(before: Events, e: Event, s: Status, t: Status)
    requires Settled(before, s) && Rank(s) <= Rank(t) && (e.svix !in before ==> Rank(StatusFor(e.kind)) <= Rank(t))
    ensures Settled(Insert(before, e), t)
  {
  }

  /** Only the new event can imply more than the status shows. */
  lemma FurthestIsNew(before: Events, e: Event, status: Status, implied: Status)
    requires Settled(before, status) && Rank(implied) > Rank(status) && implied != Unknown
    requires exists s :: s in Insert(before, e) && StatusFor(Insert(before, e)[s].kind) == implied
    ensures e.svix !in before && implied == StatusFor(e.kind)
  {
    hide Rank;
    hide StatusFor;
    var s :| s in Insert(before, e) && StatusFor(Insert(before, e)[s].kind) == implied;
    if s in before { assert Rank(StatusFor(before[s].kind)) <= Rank(status); }
  }

  lemma NewIsSettled(before: Events, e: Event, implied: Status)
    requires Settled(Insert(before, e), implied) && e.svix !in before
    ensures Rank(StatusFor(e.kind)) <= Rank(implied)
  {
    hide Rank;
    hide StatusFor;
    assert Insert(before, e)[e.svix] == e;
  }

  lemma UnknownIsLowest()
    ensures Rank(Unknown) == 0
  {
  }

  lemma InsertKeyed(events: Events, e: Event)
    requires forall s :: s in events ==> events[s].svix == s
    ensures forall s :: s in Insert(events, e) ==> Insert(events, e)[s].svix == s
  {
  }

  /** Rebuilding from every stored event moves the status just as the one new event would. */
  lemma RecomputeIsAdvance(list: seq<Event>, before: Events, e: Event, status: Status, implied: Status)
    requires Timeline(list, Insert(before, e)) && (forall s :: s in before ==> before[s].svix == s)
    requires Settled(before, status) && Furthest(list, |list|, implied)
    ensures var after := if implied != Unknown && Rank(implied) > Rank(status) then implied else status;
            after == (if e.svix in before then status else Advance(status, e.kind)) && Settled(Insert(before, e), after)
  {
    hide Timeline;
    hide Furthest;
    hide Rank;
    hide StatusFor;
    hide Settled;
    hide Insert;
    UnknownIsLowest();
    InsertKeyed(before, e);
    FurthestOfAll(list, Insert(before, e), implied);
    if e.svix !in before { NewIsSettled(before, e, implied); }
    if Rank(implied) > Rank(status) {
      FurthestIsNew(before, e, status, implied);
      SettledWith(before, e, status, implied);
    } else {
      SettledWith(before, e, status, status);
    }
  }

  lemma TimelineSorted(list: seq<Event>, events: Events)
    requires Timeline(list, events)
    ensures forall a, b :: 0 <= a < b < |list| ==> Earlier(list[a], list[b])
  {
  }

  lemma ScannedFurthest(list: seq<Event>, c: Columns)
    requires ScannedTo(list, |list|, c)
    ensures Furthest(list, |list|, c.implied)
  {
  }

  /** A time column once set stays set, so leaving it alone when the scan finds nothing keeps it right. */
  lemma StillSet(events: Events, e: Event, k: Kind, before: Option<int>, after: Option<int>)
    requires IsEarliest(events, k, before) && IsEarliest(Insert(events, e), k, after)
    ensures after.None? ==> before.None?
  {
    if before.Some? {
      var s :| s in Of(events, k) && events[s].at == before.value;
      assert s in Of(Insert(events, e), k);
    }
  }

  /** What a time column shows after an update that writes set times only. */
  function Kept(before: Option<int>, found: int): Option<int> {
    if found != ZERO then Some(found) else before
  }

  /** The scan's columns are those of the event set. */
  lemma ScanGives(list: seq<Event>, before: Events, e: Event, c: Columns, deliveredAt: Option<int>,
      firstOpenedAt: Option<int>)
    requires (forall s :: s in before ==> before[s].svix == s) && Timeline(list, Insert(before, e))
             && ScannedTo(list, |list|, c)
    requires IsEarliest(before, Delivery, deliveredAt) && IsEarliest(before, Open, firstOpenedAt)
    ensures var events := Insert(before, e);
            && (forall s :: s in events ==> events[s].svix == s)
            && c.opens == |Of(events, Open)| && c.clicks == |Of(events, Click)|
            && IsEarliest(events, Delivery, Kept(deliveredAt, c.deliveredAt))
            && IsEarliest(events, Open, Kept(firstOpenedAt, c.firstOpenedAt))
            && IsLatest(events, c.last)
  {
    var events := Insert(before, e);
    assert list[..|list|] == list;
    TimelineCounts(list, events, Open);
    TimelineCounts(list, events, Click);
    ScannedAll(list, events, Delivery, c.deliveredAt);
    ScannedAll(list, events, Open, c.firstOpenedAt);
    LatestIsLast(list, events, c);
    StillSet(before, e, Delivery, deliveredAt, Set(c.deliveredAt));
    StillSet(before, e, Open, firstOpenedAt, Set(c.firstOpenedAt));
  }

  class EmailLog {
    var status: Status
    var opens: nat
    var clicks: nat
    var deliveredAt: Option<int>
    var firstOpenedAt: Option<int>
    var last: Option<Event>
    var events: Events

    /** The columns are those of the event set, and the status has caught up with it. */
    ghost predicate Valid()
      reads this
    {
      && (forall s :: s in events ==> events[s].svix == s)
      && opens == |Of(events, Open)| && clicks == |Of(events, Click)|
      && IsEarliest(events, Delivery, deliveredAt) && IsEarliest(events, Open, firstOpenedAt)
      && IsLatest(events, last)
      && Settled(events, status)
    }

    constructor (s: Status)
      ensures Valid() && status == s && events == map[]
    {
      status, opens, clicks, deliveredAt, firstOpenedAt, last, events := s, 0, 0, None, None, None, map[];
      new;
      assert Of(events, Open) == {} && Of(events, Click) == {};
    }

    /** Stores the event unless its id is known, then rebuilds the columns from list, the events now stored. */
    method Record(e: Event, list: seq<Event>)
      requires Valid() && Timeline(list, Insert(events, e))
      modifies this
      ensures Valid()
      ensures events == Insert(old(events), e)
      ensures status == if e.svix in old(events) then old(status) else Advance(old(status), e.kind)
    {
      hide Insert;
      hide Timeline;
      hide Of;
      hide IsEarliest;
      hide IsLatest;
      hide Settled;
      hide ScannedTo;
      hide Furthest;
      hide Rank;
      hide StatusFor;
      hide Advance;
      TimelineSorted(list, Insert(events, e));
      var c := Scan(list);
      ScannedFurthest(list, c);
      RecomputeIsAdvance(list, events, e, status, c.implied);
      ScanGives(list, events, e, c, deliveredAt, firstOpenedAt);
      events := Insert(events, e);
      opens, clicks, last := c.opens, c.clicks, c.last;
      status := if c.implied != Unknown && Rank(c.implied) > Rank(status) then c.implied else status;
      if c.deliveredAt != ZERO { deliveredAt := Some(c.deliveredAt); }
      if c.firstOpenedAt != ZERO { firstOpenedAt := Some(c.firstOpenedAt); }
    }
  }

  // ---------------------------------------------------------------- whole histories

  /** What a run of webhooks leaves: the stored events and the status, as Record moves them. */
  function Arrived(s: Status, arrivals: seq<Event>): (Events, Status) {
    if arrivals == [] then (map[], s)
    else
      var (events, status) := Arrived(s, arrivals[..|arrivals| - 1]);
      var e := arrivals[|arrivals| - 1];
      (Insert(events, e), if e.svix in events then status else Advance(status, e.kind))
  }

  /** A webhook seen before changes nothing; a new one is stored and moves the status as its kind says. */
  lemma RedeliveryIsIgnored(s: Status, arrivals: seq<Event>, e: Event)
    ensures var (events, status) := Arrived(s, arrivals); var again := Arrived(s, arrivals + [e]);
            if e.svix in events then again == (events, status)
            else again.0 == events[e.svix := e] && again.1 == Fold(status, [e.kind])
  {
    assert (arrivals + [e])[..|arrivals + [e]| - 1] == arrivals;
    var status := Arrived(s, arrivals).1;
    assert [e.kind][..0] == [] && Fold(status, []) == status;
    assert Fold(status, [e.kind]) == Advance(status, e.kind);
  }

  function Kinds(arrivals: seq<Event>): seq<Kind> {
    seq(|arrivals|, k requires 0 <= k < |arrivals| => arrivals[k].kind)
  }

  /** What a delivery carries, redelivered or not. */
  datatype Content = Content(svix: SvixId, kind: Kind, at: int)

  function ContentOf(e: Event): Content {
    Content(e.svix, e.kind, e.at)
  }

  function Contents(arrivals: seq<Event>): set<Content> {
    if arrivals == [] then {} else Contents(arrivals[..|arrivals| - 1]) + {ContentOf(arrivals[|arrivals| - 1])}
  }

  function StoredContents(events: Events): set<Content> {
    set s | s in events :: Content(s, events[s].kind, events[s].at)
  }

  /** A redelivery carries what the first delivery carried. */
  ghost predicate Consistent(contents: set<Content>) {
    forall c, d :: c in contents && d in contents && c.svix == d.svix ==> c == d
  }

  lemma StoredOneMore(events: Events, e: Event)
    requires Consistent(StoredContents(events) + {ContentOf(e)})
    ensures StoredContents(Insert(events, e)) == StoredContents(events) + {ContentOf(e)}
    ensures e.svix in events ==> events[e.svix].kind == e.kind
  {
    var after := Insert(events, e);
    if e.svix in events {
      assert Content(e.svix, events[e.svix].kind, events[e.svix].at) in StoredContents(events);
    } else {
      forall c | c in StoredContents(events) ensures c in StoredContents(after) {
        assert c.svix in events && after[c.svix] == events[c.svix];
      }
      assert e.svix in after;
    }
  }

  lemma AdvanceSettles(events: Events, status: Status, e: Event)
    requires Settled(events, status)
    ensures Settled(Insert(events, e), if e.svix in events then status else Advance(status, e.kind))
    ensures e.svix in events && events[e.svix].kind == e.kind ==> Advance(status, e.kind) == status
  {
    hide Rank;
    hide StatusFor;
  }

  lemma FoldKinds(s: Status, init: seq<Event>, e: Event)
    ensures Fold(s, Kinds(init + [e])) == Advance(Fold(s, Kinds(init)), e.kind)
  {
    var all := Kinds(init + [e]);
    assert all[..|all| - 1] == Kinds(init);
  }

  /** Redeliveries included, the status is the fold of what arrived. */
  lemma {:induction false} ArrivedIsFold(s: Status, arrivals: seq<Event>)
    requires Consistent(Contents(arrivals))
    ensures Arrived(s, arrivals).1 == Fold(s, Kinds(arrivals))
    ensures StoredContents(Arrived(s, arrivals).0) == Contents(arrivals)
    ensures Settled(Arrived(s, arrivals).0, Arrived(s, arrivals).1)
    decreases |arrivals|
  {
    if arrivals != [] {
      hide Advance;
      hide StoredContents;
      hide Settled;
      hide Insert;
      hide Fold;
      var init, e := arrivals[..|arrivals| - 1], arrivals[|arrivals| - 1];
      assert arrivals == init + [e];
      ArrivedIsFold(s, init);
      var (events, status) := Arrived(s, init);
      StoredOneMore(events, e);
      AdvanceSettles(events, status, e);
      FoldKinds(s, init, e);
    } else {
      assert Kinds(arrivals) == [];
    }
  }

  /** The columns depend on the stored contents alone. */
  lemma ContentsDecide(x: Events, y: Events, k: Kind, t: Option<int>)
    requires StoredContents(x) == StoredContents(y)
    ensures Of(x, k) == Of(y, k) && (IsEarliest(x, k, t) <==> IsEarliest(y, k, t))
  {
    forall s | s in x ensures s in y && y[s].kind == x[s].kind && y[s].at == x[s].at {
      assert Content(s, x[s].kind, x[s].at) in StoredContents(y);
    }
    forall s | s in y ensures s in x {
      assert Content(s, y[s].kind, y[s].at) in StoredContents(x);
    }
  }

  lemma {:induction false} KindsOf(arrivals: seq<Event>, k: Kind)
    ensures k in Kinds(arrivals) <==> exists c :: c in Contents(arrivals) && c.kind == k
    decreases |arrivals|
  {
    if arrivals != [] {
      var init := arrivals[..|arrivals| - 1];
      KindsOf(init, k);
      var last := arrivals[|arrivals| - 1];
      assert Kinds(arrivals) == Kinds(init) + [last.kind];
      assert Contents(arrivals) == Contents(init) + {ContentOf(last)};
      if last.kind == k { assert ContentOf(last) in Contents(arrivals); }
    }
  }

  /**
   The same webhooks in any order, each delivered any number of times: the same counts and first times, and
   the same status unless a bounce and a complaint compete.
   */
  lemma ArrivalOrderDoesNotMatter(s: Status, a: seq<Event>, b: seq<Event>, k: Kind, t: Option<int>)
    requires Contents(a) == Contents(b) && Consistent(Contents(a))
    ensures |Of(Arrived(s, a).0, k)| == |Of(Arrived(s, b).0, k)|
    ensures IsEarliest(Arrived(s, a).0, k, t) <==> IsEarliest(Arrived(s, b).0, k, t)
    ensures Rank(Arrived(s, a).1) == Rank(Arrived(s, b).1)
    ensures !Tied(s, Kinds(a)) ==> Arrived(s, a).1 == Arrived(s, b).1
  {
    ArrivedIsFold(s, a);
    ArrivedIsFold(s, b);
    forall m ensures m in Kinds(a) <==> m in Kinds(b) {
      KindsOf(a, m);
      KindsOf(b, m);
    }
    assert SameKinds(Kinds(a), Kinds(b));
    hide *;
    ContentsDecide(Arrived(s, a).0, Arrived(s, b).0, k, t);
    SameRank(s, Kinds(a), Kinds(b));
    if !Tied(s, Kinds(a)) { OrderDoesNotMatter(s, Kinds(a), Kinds(b)); }
  }
}
