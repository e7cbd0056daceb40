/** Keyset pagination of payments, over a table that changes between pages. */
module Payments {
  import opened Common
  import Decimal

  type Id = string

  /** The columns listing depends on; hidden marks an order that opened a subscription. */
  datatype Payment = Payment(at: int, testMode: bool, hidden: bool, total: int)
  type Table = map<Id, Payment>

  datatype Key = Key(at: int, id: Id)
  datatype Query = Query(testMode: bool, from: Option<int>, to: Option<int>)
  datatype Row = Row(key: Key, payment: Payment)

  // ---------------------------------------------------------------- the order

  predicate IdLess(a: Id, b: Id) {
    if b == "" then false
    else if a == "" then true
    else a[0] < b[0] || (a[0] == b[0] && IdLess(a[1..], b[1..]))
  }

  predicate Less(j: Key, k: Key) {
    j.at < k.at || (j.at == k.at && IdLess(j.id, k.id))
  }

  lemma {:induction false} IdLessStrict(a: Id, b: Id)
    ensures !(IdLess(a, b) && IdLess(b, a))
    ensures a == b || IdLess(a, b) || IdLess(b, a)
    ensures a == b ==> !IdLess(a, b)
    decreases |a|
  {
    if a != "" && b != "" {
      IdLessStrict(a[1..], b[1..]);
      assert a == [a[0]] + a[1..] && b == [b[0]] + b[1..];
    }
  }

  /** The two agree up to some place, where a ends or has the lesser character. */
  ghost predicate Precedes(a: Id, b: Id) {
    exists i :: Differ(a, b, i)
  }

  predicate Differ(a: Id, b: Id, i: nat) {
    i <= |a| && i < |b| && a[..i] == b[..i] && (i < |a| ==> a[i] < b[i])
  }

  lemma SameFirst(a: Id, b: Id, i: nat)
    requires Differ(a, b, i) && i > 0
    ensures a[0] == b[0]
  {
    assert a[..i][0] == b[..i][0];
  }

  lemma {:induction false} IdLessIff(a: Id, b: Id)
    ensures IdLess(a, b) <==> Precedes(a, b)
    decreases |a|
  {
    if a == "" {
      if b != "" { assert Differ(a, b, 0); }
    } else if b != "" {
      IdLessIff(a[1..], b[1..]);
      if a[0] < b[0] { assert Differ(a, b, 0); }
      if a[0] == b[0] {
        forall i: nat | Differ(a[1..], b[1..], i) ensures Differ(a, b, i + 1) {
          assert a[..i + 1] == [a[0]] + a[1..][..i] && b[..i + 1] == [b[0]] + b[1..][..i];
        }
        forall i: nat | Differ(a, b, i) ensures i > 0 && Differ(a[1..], b[1..], i - 1) {
          assert i > 0 ==> a[1..][..i - 1] == a[..i][1..] && b[1..][..i - 1] == b[..i][1..];
        }
      } else {
        forall i: nat | Differ(a, b, i) ensures i == 0 { if i > 0 { SameFirst(a, b, i); } }
      }
    }
  }

  lemma {:induction false} IdLessTransitive(a: Id, b: Id, c: Id)
    requires IdLess(a, b) && IdLess(b, c)
    ensures IdLess(a, c)
    decreases |a|
  {
    if a != "" && a[0] == b[0] && b[0] == c[0] { IdLessTransitive(a[1..], b[1..], c[1..]); }
  }

  lemma LessTransitive(j: Key, k: Key, l: Key)
    requires Less(j, k) && Less(k, l)
    ensures Less(j, l)
  {
    if j.at == k.at == l.at { IdLessTransitive(j.id, k.id, l.id); }
  }

  lemma LessStrict(j: Key, k: Key)
    ensures !(Less(j, k) && Less(k, j)) && (j == k || Less(j, k) || Less(k, j)) && (j == k ==> !Less(j, k))
  {
    IdLessStrict(j.id, k.id);
  }

  // ---------------------------------------------------------------- the token

  datatype TokenError = BadPageToken

  /** The text inside a page token, before its base64 armour. */
  function TokenText(k: Key): string {
    Decimal.Format(k.at) + "|" + k.id
  }

  function DecodeToken(text: string): Result<Key, TokenError> {
    match Decimal.Cut(text, '|')
    case None => Err(BadPageToken)
    case Some((nanos, id)) =>
      match Decimal.ParseInt(nanos)
      case None => Err(BadPageToken)
      case Some(at) => if id == "" then Err(BadPageToken) else Ok(Key(at, id))
  }

  /** A token reads back as the row it was made of, separators in the id and all, for 64-bit times. */
  lemma TokenRoundTrip(k: Key)
    ensures DecodeToken(TokenText(k)) == if Decimal.InInt64(k.at) && k.id != "" then Ok(k) else Err(BadPageToken)
  {
    Decimal.ParseFormat(k.at);
    Decimal.CutFirst(Decimal.Format(k.at), '|', k.id);
  }

  // ---------------------------------------------------------------- one page

  predicate Matches(t: Table, q: Query, k: Key) {
    && k.id in t && t[k.id].at == k.at && t[k.id].testMode == q.testMode && !t[k.id].hidden
    && (q.from.Some? ==> q.from.value <= k.at) && (q.to.Some? ==> k.at < q.to.value)
  }

  predicate Past(k: Key, after: Option<Key>) {
    after.Some? ==> Less(after.value, k)
  }

  /** The SQL query's answer: the first limit matching rows past the cursor, in order, as the table has them. */
  ghost predicate Answers(t: Table, q: Query, after: Option<Key>, limit: nat, rows: seq<Row>) {
    && |rows| <= limit
    && Ascending(rows)
    && (forall r :: r in rows ==> Matches(t, q, r.key) && Past(r.key, after) && r.payment == t[r.key.id])
    && (forall k :: Matches(t, q, k) && Past(k, after) && (forall r :: r in rows ==> r.key != k) ==>
          |rows| == limit && forall r :: r in rows ==> Less(r.key, k))
  }

  ghost predicate Ascending(rows: seq<Row>) {
    forall a, b :: 0 <= a < b < |rows| ==> Less(rows[a].key, rows[b].key)
  }

  function PageSize(asked: int): (n: nat)
    ensures (1 <= asked <= 500 ==> n == asked) && (asked <= 0 ==> n == 100) && (asked > 500 ==> n == 500)
  {
    if asked <= 0 then 100 else if asked < 500 then asked else 500
  }

  /** What a page promises: the next rows past the cursor, and a cursor exactly when more remain. */
  ghost predicate IsPage(t: Table, q: Query, after: Option<Key>, size: nat, page: seq<Row>, next: Option<Key>) {
    && |page| <= size
    && Ascending(page)
    && (forall r :: r in page ==> Matches(t, q, r.key) && Past(r.key, after) && r.payment == t[r.key.id])
    && (next.Some? ==> |page| == size && size > 0 && next == Some(page[|page| - 1].key))
    && (forall k :: Matches(t, q, k) && Past(k, after) && (forall r :: r in page ==> r.key != k) ==>
          next.Some? && Less(next.value, k))
    && (next.Some? ==> exists k :: Matches(t, q, k) && Less(next.value, k))
  }

  type Reply = Result<(seq<Row>, Option<string>), TokenError>

  predicate Accepted(token: Option<string>) {
    token.Some? ==> DecodeToken(token.value).Ok?
  }

  function CursorOf(token: Option<string>): Option<Key>
    requires Accepted(token)
  {
    if token.Some? then Some(DecodeToken(token.value).value) else None
  }

  function TokenOf(next: Option<Key>): Option<string> {
    if next.Some? then Some(TokenText(next.value)) else None
  }

  /** What one call answers: a page and its token, or a refused token. */
  ghost predicate Replies(t: Table, q: Query, asked: int, token: Option<string>, r: Reply) {
    && (r.Ok? <==> Accepted(token))
    && (r.Ok? ==> exists next ::
          IsPage(t, q, CursorOf(token), PageSize(asked), r.value.0, next) && r.value.1 == TokenOf(next))
  }

  lemma PageReplies(t: Table, q: Query, asked: int, token: Option<string>, page: seq<Row>, next: Option<Key>)
    requires Accepted(token) && IsPage(t, q, CursorOf(token), PageSize(asked), page, next)
    ensures Replies(t, q, asked, token, Ok((page, TokenOf(next))))
  {
    hide IsPage;
    hide DecodeToken;
    hide TokenText;
  }

  /** rows is the query's answer for one row more than the page holds. */
  method ListPayments(t: Table, q: Query, asked: int, token: Option<string>, rows: seq<Row>)
    returns (r: Reply)
    requires var after := if token.Some? then DecodeToken(token.value) else Err(BadPageToken);
             Answers(t, q, if after.Ok? then Some(after.value) else None, PageSize(asked) + 1, rows)
    ensures Replies(t, q, asked, token, r)
  {
    ghost var after: Option<Key> := None;
    if token.Some? {
      var k := DecodeToken(token.value);
      if k.Err? { return Err(k.error); }
      after := Some(k.value);
    }
    var size := PageSize(asked);
    hide TokenText;
    hide DecodeToken;
    if |rows| <= size {
      ShortPage(t, q, after, size, rows);
      hide IsPage;
      hide Answers;
      PageReplies(t, q, asked, token, rows, None);
      return Ok((rows, None));
    }
    AtMost(t, q, after, size + 1, rows);
    FullPage(t, q, after, size, rows);
    hide IsPage;
    hide Answers;
    var page := rows[..size];
    var last := page[|page| - 1];
    PageReplies(t, q, asked, token, page, Some(last.key));
    return Ok((page, Some(TokenText(last.key))));
  }

  lemma AtMost(t: Table, q: Query, after: Option<Key>, limit: nat, rows: seq<Row>)
    requires Answers(t, q, after, limit, rows)
    ensures |rows| <= limit
  {
  }

  lemma ShortPage(t: Table, q: Query, after: Option<Key>, size: nat, rows: seq<Row>)
    requires Answers(t, q, after, size + 1, rows) && |rows| <= size
    ensures IsPage(t, q, after, size, rows, None)
  {
  }

  lemma FullPage(t: Table, q: Query, after: Option<Key>, size: nat, rows: seq<Row>)
    requires Answers(t, q, after, size + 1, rows) && |rows| == size + 1 && size >= 1
    ensures IsPage(t, q, after, size, rows[..size], Some(rows[size - 1].key))
  {
    var page, next := rows[..size], rows[size - 1].key;
    assert rows[size] in rows && Matches(t, q, rows[size].key) && Less(next, rows[size].key);
    assert forall m :: 0 <= m < size ==> page[m] in page;
    forall k | Matches(t, q, k) && Past(k, after) && (forall r :: r in page ==> r.key != k) ensures Less(next, k) {
      assert rows[size - 1] in rows;
      if exists r :: r in rows && r.key == k {
        var i :| 0 <= i < |rows| && rows[i].key == k;
        assert i == size;
      }
    }
  }

  // ---------------------------------------------------------------- following the tokens

  /** One call: the table as it was then, the size asked for, and what came back. */
  datatype Call = Call(table: Table, asked: int, page: seq<Row>, next: Option<Key>)

  /** Each call's token is the previous call's answer. */
  ghost predicate Follows(calls: seq<Call>, q: Query, after: Option<Key>)
    decreases |calls|
  {
    calls != [] ==>
      && IsPage(calls[0].table, q, after, PageSize(calls[0].asked), calls[0].page, calls[0].next)
      && (|calls| > 1 ==> calls[0].next.Some? && Follows(calls[1..], q, calls[0].next))
  }

  ghost predicate Finished(calls: seq<Call>) {
    calls != [] && calls[|calls| - 1].next.None?
  }

  function Listed(calls: seq<Call>): seq<Row>
    decreases |calls|
  {
    if calls == [] then [] else calls[0].page + Listed(calls[1..])
  }

  lemma PageBeforeNext(t: Table, q: Query, after: Option<Key>, size: nat, page: seq<Row>, next: Option<Key>, r: Row)
    requires IsPage(t, q, after, size, page, next) && r in page && next.Some?
    ensures r.key == next.value || Less(r.key, next.value)
  {
    var i :| 0 <= i < |page| && page[i] == r;
  }

  /** Whatever happens to the table, no row is listed twice under one key, and the order holds across pages. */
  lemma {:induction false} ListingAscends(calls: seq<Call>, q: Query, after: Option<Key>)
    requires Follows(calls, q, after)
    ensures Ascending(Listed(calls))
    ensures forall r :: r in Listed(calls) ==> Past(r.key, after)
    decreases |calls|
  {
    if |calls| == 1 {
      assert Listed(calls[1..]) == [];
      assert Listed(calls) == calls[0].page;
    } else if calls != [] {
      var c, rest := calls[0], Listed(calls[1..]);
      ListingAscends(calls[1..], q, c.next);
      hide Less;
      forall i, j | 0 <= i < |c.page| && 0 <= j < |rest| ensures Less(c.page[i].key, rest[j].key) {
        PageBeforeNext(c.table, q, after, PageSize(c.asked), c.page, c.next, c.page[i]);
        assert rest[j] in rest;
        if c.page[i].key != c.next.value { LessTransitive(c.page[i].key, c.next.value, rest[j].key); }
      }
      forall r | r in rest ensures Past(r.key, after) {
        assert c.page[|c.page| - 1] in c.page;
        if after.Some? { LessTransitive(after.value, c.next.value, r.key); }
      }
    }
  }

  lemma {:induction false} ListedSomewhere(calls: seq<Call>, q: Query, after: Option<Key>, k: Key)
    requires Follows(calls, q, after) && Finished(calls) && Past(k, after)
    requires forall c :: c in calls ==> Matches(c.table, q, k)
    ensures exists i :: 0 <= i < |Listed(calls)| && Listed(calls)[i].key == k
    decreases |calls|
  {
    hide Less;
    hide Matches;
    var c, rest := calls[0], Listed(calls[1..]);
    assert c in calls;
    if exists r :: r in c.page && r.key == k {
      var i :| 0 <= i < |c.page| && c.page[i].key == k;
      assert Listed(calls)[i].key == k;
    } else {
      assert forall d :: d in calls[1..] ==> d in calls;
      ListedSomewhere(calls[1..], q, c.next, k);
      var i :| 0 <= i < |rest| && rest[i].key == k;
      assert Listed(calls)[|c.page| + i].key == k;
    }
  }

  lemma AscendingApart(rows: seq<Row>)
    requires Ascending(rows)
    ensures forall i, j :: 0 <= i < j < |rows| ==> rows[i].key != rows[j].key
  {
    hide Less;
    forall i, j | 0 <= i < j < |rows| ensures rows[i].key != rows[j].key {
      LessStrict(rows[i].key, rows[j].key);
    }
  }

  /** A row present under its key throughout is listed exactly once. */
  lemma ListedOnce(calls: seq<Call>, q: Query, after: Option<Key>, k: Key)
    requires Follows(calls, q, after) && Finished(calls) && Past(k, after)
    requires forall c :: c in calls ==> Matches(c.table, q, k)
    ensures exists i :: 0 <= i < |Listed(calls)| && Listed(calls)[i].key == k
    ensures forall i, j :: 0 <= i < j < |Listed(calls)| ==> Listed(calls)[i].key != k || Listed(calls)[j].key != k
  {
    hide *;
    ListedSomewhere(calls, q, after, k);
    ListingAscends(calls, q, after);
    AscendingApart(Listed(calls));
  }

  lemma {:induction false} ListedMatch(calls: seq<Call>, q: Query, after: Option<Key>, r: Row)
    requires Follows(calls, q, after) && r in Listed(calls)
    ensures exists c :: c in calls && Matches(c.table, q, r.key) && r.payment == c.table[r.key.id]
    decreases |calls|
  {
    if r in calls[0].page {
      assert calls[0] in calls;
    } else {
      ListedMatch(calls[1..], q, calls[0].next, r);
      var c :| c in calls[1..] && Matches(c.table, q, r.key) && r.payment == c.table[r.key.id];
      assert c in calls;
    }
  }

  /** Over a table that does not change, whatever the page sizes: the pages are the whole sorted listing. */
  lemma PagesAreTheListing(calls: seq<Call>, q: Query, t: Table)
    requires Follows(calls, q, None) && Finished(calls) && forall c :: c in calls ==> c.table == t
    ensures Ascending(Listed(calls))
    ensures forall r :: r in Listed(calls) <==> Matches(t, q, r.key) && r.payment == t[r.key.id]
  {
    ListingAscends(calls, q, None);
    forall r | r in Listed(calls) ensures Matches(t, q, r.key) && r.payment == t[r.key.id] {
      ListedMatch(calls, q, None, r);
    }
    forall r: Row | Matches(t, q, r.key) && r.payment == t[r.key.id] ensures r in Listed(calls) {
      ListedOnce(calls, q, None, r.key);
      var i :| 0 <= i < |Listed(calls)| && Listed(calls)[i].key == r.key;
      ListedMatch(calls, q, None, Listed(calls)[i]);
    }
  }

  // ---------------------------------------------------------------- termination

  lemma {:induction false} EveryPageMoves(calls: seq<Call>, q: Query, after: Option<Key>)
    requires Follows(calls, q, after)
    ensures |calls| <= |Listed(calls)| + 1
    decreases |calls|
  {
    if |calls| > 1 { EveryPageMoves(calls[1..], q, calls[0].next); }
  }

  function KeysOf(rows: seq<Row>): set<Key> {
    set r | r in rows :: r.key
  }

  lemma {:induction false} AscendingCount(rows: seq<Row>)
    requires Ascending(rows)
    ensures |KeysOf(rows)| == |rows|
    decreases |rows|
  {
    if rows != [] {
      var init, last := rows[..|rows| - 1], rows[|rows| - 1];
      AscendingCount(init);
      assert rows == init + [last];
      forall r | r in init ensures r.key != last.key { LessStrict(r.key, last.key); }
      assert KeysOf(rows) == KeysOf(init) + {last.key};
    }
  }

  lemma SubsetCount<T>(a: set<T>, b: set<T>)
    requires a <= b
    ensures |a| <= |b|
  {
    assert b == a + (b - a);
  }

  /** Following the tokens ends: no more calls than keys the table ever shows, plus one. */
  lemma ListingEnds(calls: seq<Call>, q: Query, keys: set<Key>)
    requires Follows(calls, q, None)
    requires forall c, k :: c in calls && Matches(c.table, q, k) ==> k in keys
    ensures |calls| <= |keys| + 1
  {
    EveryPageMoves(calls, q, None);
    ListingAscends(calls, q, None);
    AscendingCount(Listed(calls));
    forall k | k in KeysOf(Listed(calls)) ensures k in keys {
      var r :| r in Listed(calls) && r.key == k;
      ListedMatch(calls, q, None, r);
    }
    SubsetCount(KeysOf(Listed(calls)), keys);
  }

  // ---------------------------------------------------------------- the tokens as text

  /** One call with the token the caller holds, and what came back. */
  datatype TokenCall = TokenCall(table: Table, asked: int, reply: Reply)

  /** Each call passes on the token of the one before, as text. */
  ghost predicate Walks(calls: seq<TokenCall>, q: Query, token: Option<string>)
    decreases |calls|
  {
    calls != [] ==>
      && Replies(calls[0].table, q, calls[0].asked, token, calls[0].reply)
      && (|calls| > 1 ==>
            && calls[0].reply.Ok? && calls[0].reply.value.1.Some?
            && Walks(calls[1..], q, calls[0].reply.value.1))
  }

  ghost predicate WalkedOut(calls: seq<TokenCall>) {
    calls != [] && var r := calls[|calls| - 1].reply; r.Err? || r.value.1.None?
  }

  /** Rows a token can name: 64-bit times and non-empty ids. */
  predicate Nameable(t: Table) {
    forall id :: id in t ==> id != "" && Decimal.InInt64(t[id].at)
  }

  /** The next call's token is accepted exactly when the page's last row has a 64-bit time and an id. */
  lemma TokenAcceptedIff(t: Table, q: Query, asked: int, token: Option<string>, r: Reply)
    requires Replies(t, q, asked, token, r) && r.Ok? && r.value.1.Some?
    ensures r.value.0 != []
    ensures var last := r.value.0[|r.value.0| - 1].key;
            Accepted(r.value.1) <==> Decimal.InInt64(last.at) && last.id != ""
  {
    hide DecodeToken;
    hide TokenText;
    var next :| IsPage(t, q, CursorOf(token), PageSize(asked), r.value.0, next) && r.value.1 == TokenOf(next);
    TokenRoundTrip(next.value);
  }

  function Keyed(c: TokenCall, next: Option<Key>): Call
    requires c.reply.Ok?
  {
    Call(c.table, c.asked, c.reply.value.0, next)
  }

  /** A call's page with its cursor, and the token it hands on accepted when its rows can be named. */
  lemma ReplyIsPage(c: TokenCall, q: Query, token: Option<string>) returns (next: Option<Key>)
    requires Replies(c.table, q, c.asked, token, c.reply) && Accepted(token) && Nameable(c.table)
    ensures c.reply.Ok? && IsPage(c.table, q, CursorOf(token), PageSize(c.asked), c.reply.value.0, next)
    ensures c.reply.value.1 == TokenOf(next) && Accepted(TokenOf(next)) && CursorOf(TokenOf(next)) == next
  {
    hide DecodeToken;
    hide TokenText;
    next :| IsPage(c.table, q, CursorOf(token), PageSize(c.asked), c.reply.value.0, next)
      && c.reply.value.1 == TokenOf(next);
    if next.Some? {
      var last := c.reply.value.0[|c.reply.value.0| - 1];
      assert last in c.reply.value.0 && Matches(c.table, q, last.key);
      TokenRoundTrip(last.key);
    }
  }

  lemma {:induction false} WalkFollows(calls: seq<TokenCall>, q: Query, token: Option<string>)
      returns (keyed: seq<Call>)
    requires Walks(calls, q, token) && Accepted(token) && forall c :: c in calls ==> Nameable(c.table)
    ensures |keyed| == |calls| && Follows(keyed, q, CursorOf(token))
    ensures forall i :: 0 <= i < |calls| ==> calls[i].reply.Ok? && keyed[i].table == calls[i].table
    ensures forall i :: 0 <= i < |calls| ==> calls[i].reply.value == (keyed[i].page, TokenOf(keyed[i].next))
    decreases |calls|
  {
    hide DecodeToken;
    hide TokenText;
    hide IsPage;
    hide Replies;
    hide Nameable;
    if calls == [] { return []; }
    assert calls[0] in calls;
    var next := ReplyIsPage(calls[0], q, token);
    keyed := [Keyed(calls[0], next)];
    if |calls| > 1 {
      assert forall d :: d in calls[1..] ==> d in calls;
      var rest := WalkFollows(calls[1..], q, calls[0].reply.value.1);
      keyed := [Keyed(calls[0], next)] + rest;
      assert keyed[1..] == rest;
    }
  }

  function Returned(calls: seq<TokenCall>): seq<Row>
    decreases |calls|
  {
    if calls == [] then []
    else (if calls[0].reply.Ok? then calls[0].reply.value.0 else []) + Returned(calls[1..])
  }

  lemma {:induction false} ReturnedIsListed(calls: seq<TokenCall>, keyed: seq<Call>)
    requires |keyed| == |calls| && forall i :: 0 <= i < |calls| ==>
             calls[i].reply.Ok? && keyed[i].page == calls[i].reply.value.0
    ensures Returned(calls) == Listed(keyed)
    decreases |calls|
  {
    if calls != [] { ReturnedIsListed(calls[1..], keyed[1..]); }
  }

  /**
   Passing the tokens back as text, over a table that does not change: nothing is refused, and all is returned
   in order.
   */
  lemma WalkIsTheListing(calls: seq<TokenCall>, q: Query, t: Table)
    requires Walks(calls, q, None) && WalkedOut(calls) && Nameable(t) && forall c :: c in calls ==> c.table == t
    ensures forall c :: c in calls ==> c.reply.Ok?
    ensures forall a, b :: 0 <= a < b < |Returned(calls)| ==>
              var j, k := Returned(calls)[a].key, Returned(calls)[b].key;
              j.at < k.at || (j.at == k.at && Precedes(j.id, k.id))
    ensures forall r :: r in Returned(calls) <==> Shows(t, q, r)
    ensures |calls| <= |Returned(calls)| + 1
  {
    hide Nameable;
    var keyed := WalkFollows(calls, q, None);
    hide Walks;
    hide Follows;
    hide TokenText;
    hide Matches;
    ReturnedIsListed(calls, keyed);
    forall c | c in keyed ensures c.table == t {
      var i :| 0 <= i < |keyed| && keyed[i] == c;
      assert calls[i] in calls;
    }
    PagesAreTheListing(keyed, q, t);
    EveryPageMoves(keyed, q, None);
    hide *;
    ListingShows(t, q, Returned(calls));
  }

  /** The table has the payment, in the query's mode and from its first time up to but not at its last. */
  predicate Shows(t: Table, q: Query, r: Row) {
    && r.key.id in t && t[r.key.id] == r.payment && r.payment.at == r.key.at
    && r.payment.testMode == q.testMode && !r.payment.hidden
    && (q.from.Some? ==> q.from.value <= r.payment.at) && (q.to.Some? ==> r.payment.at < q.to.value)
  }

  lemma ShownIff(t: Table, q: Query, r: Row)
    ensures Matches(t, q, r.key) && r.payment == t[r.key.id] <==> Shows(t, q, r)
  {
  }

  lemma ListingShows(t: Table, q: Query, rows: seq<Row>)
    requires Ascending(rows) && forall r :: r in rows <==> Matches(t, q, r.key) && r.payment == t[r.key.id]
    ensures forall a, b :: 0 <= a < b < |rows| ==>
              rows[a].key.at < rows[b].key.at
              || (rows[a].key.at == rows[b].key.at && Precedes(rows[a].key.id, rows[b].key.id))
    ensures forall r :: r in rows <==> Shows(t, q, r)
  {
    forall r: Row ensures r in rows <==> Shows(t, q, r) { ShownIff(t, q, r); }
    forall a, b | 0 <= a < b < |rows|
      ensures rows[a].key.at < rows[b].key.at
              || (rows[a].key.at == rows[b].key.at && Precedes(rows[a].key.id, rows[b].key.id))
    {
      IdLessIff(rows[a].key.id, rows[b].key.id);
    }
  }

  /** Whatever happens to the table meanwhile: a row present under its key throughout comes back exactly once. */
  lemma WalkListsOnce(calls: seq<TokenCall>, q: Query, k: Key)
    requires Walks(calls, q, None) && WalkedOut(calls)
    requires forall c :: c in calls ==> Nameable(c.table) && Matches(c.table, q, k)
    ensures exists i :: 0 <= i < |Returned(calls)| && Returned(calls)[i].key == k
    ensures forall i, j :: 0 <= i < j < |Returned(calls)| ==> Returned(calls)[i].key != k || Returned(calls)[j].key != k
  {
    hide Nameable;
    var keyed := WalkFollows(calls, q, None);
    hide Walks;
    hide Follows;
    hide TokenText;
    hide Matches;
    ReturnedIsListed(calls, keyed);
    forall c | c in keyed ensures Matches(c.table, q, k) {
      var i :| 0 <= i < |keyed| && keyed[i] == c;
      assert calls[i] in calls;
    }
    ListedOnce(keyed, q, None, k);
  }

  // ---------------------------------------------------------------- times rewritten between pages

  /** The payment's time is the same in every call's table that has it. */
  ghost predicate Fixed(calls: seq<Call>, id: Id) {
    forall c, d :: c in calls && d in calls && id in c.table && id in d.table ==> c.table[id].at == d.table[id].at
  }

  /** A payment whose time stays as it is is listed at most once, whatever else happens to it and around it. */
  lemma FixedListedAtMostOnce(calls: seq<Call>, q: Query, after: Option<Key>, id: Id)
    requires Follows(calls, q, after) && Fixed(calls, id)
    ensures forall i, j :: 0 <= i < j < |Listed(calls)| ==>
            Listed(calls)[i].key.id != id || Listed(calls)[j].key.id != id
  {
    hide Follows;
    hide Less;
    var rows := Listed(calls);
    ListingAscends(calls, q, after);
    AscendingApart(rows);
    forall r, p | r in rows && p in rows && r.key.id == p.key.id == id ensures r.key == p.key {
      ListedMatch(calls, q, after, r);
      ListedMatch(calls, q, after, p);
      var c :| c in calls && Matches(c.table, q, r.key);
      var d :| d in calls && Matches(d.table, q, p.key);
    }
  }

  /** A payment whose time is rewritten between two pages can be listed twice, under two keys. */
  lemma MovedIsListedTwice()
    ensures var q := Query(false, None, None);
            var early, late := Payment(1, false, false, 10), Payment(3, false, false, 10);
            var b := Payment(2, false, false, 20);
            var calls := [Call(map["a" := early, "b" := b], 1, [Row(Key(1, "a"), early)], Some(Key(1, "a"))),
                          Call(map["a" := late, "b" := b], 5, [Row(Key(2, "b"), b), Row(Key(3, "a"), late)], None)];
            Follows(calls, q, None) && Finished(calls)
  {
    var q := Query(false, None, None);
    var b := Payment(2, false, false, 20);
    assert Matches(map["a" := Payment(1, false, false, 10), "b" := b], q, Key(2, "b"));
  }

  /** A payment whose time is rewritten to before the cursor is never listed, though every table shows it. */
  lemma MovedBackIsSkipped()
    ensures var q := Query(false, None, None);
            var a, late, early := Payment(1, false, false, 10), Payment(3, false, false, 20),
              Payment(0, false, false, 20);
            var calls := [Call(map["a" := a, "b" := late], 1, [Row(Key(1, "a"), a)], Some(Key(1, "a"))),
                          Call(map["a" := a, "b" := early], 1, [], None)];
            && Follows(calls, q, None) && Finished(calls)
            && Matches(calls[0].table, q, Key(3, "b")) && Matches(calls[1].table, q, Key(0, "b"))
            && forall r :: r in Listed(calls) ==> r.key.id != "b"
  {
    var q := Query(false, None, None);
    var a, late, early := Payment(1, false, false, 10), Payment(3, false, false, 20), Payment(0, false, false, 20);
    var first := Call(map["a" := a, "b" := late], 1, [Row(Key(1, "a"), a)], Some(Key(1, "a")));
    var second := Call(map["a" := a, "b" := early], 1, [], None);
    assert Matches(first.table, q, Key(3, "b")) && Less(Key(1, "a"), Key(3, "b"));
    LessStrict(Key(1, "a"), Key(1, "a"));
    assert [first, second][1..] == [second] && [second][1..] == [];
    assert Listed([]) == [] && Listed([second]) == second.page + Listed([]);
    assert Listed([first, second]) == first.page + Listed([second]);
  }
}
