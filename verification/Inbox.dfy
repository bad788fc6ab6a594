/** The inbox query: sort, DISTINCT ON and LIMIT/OFFSET against "one newest
    message per conversation partner, partners in ascending order". */
module Inbox {
  import opened Options
  import opened Mailbox

  // -------------------------------------------------------------------- the query

  predicate Involves(m: Message, u: Id) {
    m.sender == u || m.recipient == u
  }

  /** CASE WHEN sender_id = $1 THEN recipient_id ELSE sender_id END */
  function Partner(m: Message, u: Id): Id {
    if m.sender == u then m.recipient else m.sender
  }

  /** What count(DISTINCT partner) counts. */
  function Counted(t: map<Id, Message>, u: Id): set<Id> {
    set i | i in t && Involves(t[i], u) :: Partner(t[i], u)
  }

  /** A row of the subquery: a message and the computed partner column. */
  datatype Row = Row(id: Id, partner: Id, message: Message)

  /** The rows of the subquery that survive the join with users. */
  function Joined(mail: Mail, u: Id): set<Row> {
    set i | i in mail.messages && Involves(mail.messages[i], u) && Partner(mail.messages[i], u) in mail.users ::
      Row(i, Partner(mail.messages[i], u), mail.messages[i])
  }

  /** ORDER BY partner, created_at DESC */
  predicate Precedes(a: Row, b: Row) {
    a.partner < b.partner || (a.partner == b.partner && a.message.createdAt >= b.message.createdAt)
  }

  predicate Ordered(rows: seq<Row>) {
    forall i, j | 0 <= i < j < |rows| :: Precedes(rows[i], rows[j])
  }

  predicate NoRepeats(rows: seq<Row>) {
    forall i, j | 0 <= i < j < |rows| :: rows[i] != rows[j]
  }

  /** One order in which the server may produce the sorted rows: rows that tie on
      partner and created_at come in any order, and each query may choose afresh. */
  ghost predicate Execution(rows: seq<Row>, mail: Mail, u: Id) {
    && NoRepeats(rows)
    && (forall r :: r in rows <==> r in Joined(mail, u))
    && Ordered(rows)
  }

  ghost function First(s: set<Row>): (f: Row)
    requires s != {}
    ensures f in s && forall r | r in s :: Precedes(f, r)
  {
    var r :| r in s;
    if s == {r} then r
    else
      var f := First(s - {r});
      assert forall x | x in s :: x == r || x in s - {r};
      if Precedes(f, r) then f else r
  }

  /** The server always has an order to answer with. */
  lemma {:induction false} SomeOrder(s: set<Row>) returns (rows: seq<Row>)
    ensures NoRepeats(rows) && Ordered(rows) && forall r :: r in rows <==> r in s
  {
    if s == {} {
      rows := [];
    } else {
      var f := First(s);
      var rest := SomeOrder(s - {f});
      rows := [f] + rest;
      assert forall j | 0 <= j < |rest| :: rest[j] in s - {f};
    }
  }

  /** DISTINCT ON (partner): the first row of every run of equal partners. */
  function DistinctOn(rows: seq<Row>): seq<Row> {
    if rows == [] then []
    else
      var n := |rows| - 1;
      var kept := DistinctOn(rows[..n]);
      if n > 0 && rows[n - 1].partner == rows[n].partner then kept else kept + [rows[n]]
  }

  function Min(a: nat, b: nat): nat {
    if a <= b then a else b
  }

  /** LIMIT $2 OFFSET $3 */
  function Page<T>(rows: seq<T>, limit: nat, offset: nat): seq<T> {
    rows[Min(offset, |rows|)..Min(offset + limit, |rows|)]
  }

  function PartnerList(rows: seq<Row>): (partners: seq<Id>)
    ensures |partners| == |rows| && forall i | 0 <= i < |rows| :: partners[i] == rows[i].partner
  {
    seq(|rows|, i requires 0 <= i < |rows| => rows[i].partner)
  }

  // ---------------------------------------------------------- the simple reference

  /** The message passed between u and p, in either direction. */
  predicate Between(m: Message, u: Id, p: Id) {
    (m.sender == u && m.recipient == p) || (m.sender == p && m.recipient == u)
  }

  /** Everyone u has written to or heard from. */
  ghost function Partners(t: map<Id, Message>, u: Id): set<Id> {
    (set i | i in t && t[i].sender == u :: t[i].recipient) + (set i | i in t && t[i].recipient == u :: t[i].sender)
  }

  lemma PartnerIsOtherEnd(m: Message, u: Id, p: Id)
    ensures Involves(m, u) && Partner(m, u) == p <==> Between(m, u, p)
  {
  }

  lemma IsPartner(t: map<Id, Message>, u: Id, p: Id)
    ensures p in Partners(t, u) <==> exists i :: i in t && Between(t[i], u, p)
  {
    if i :| i in t && Between(t[i], u, p) {
      assert t[i].sender == u || t[i].recipient == u;
    }
  }

  /** The separate count counts the partners. */
  lemma CountedArePartners(t: map<Id, Message>, u: Id)
    ensures Counted(t, u) == Partners(t, u)
  {
    forall p ensures p in Counted(t, u) <==> p in Partners(t, u) {
      IsPartner(t, u, p);
      if i :| i in t && Between(t[i], u, p) {
        PartnerIsOtherEnd(t[i], u, p);
        assert Partner(t[i], u) in Counted(t, u);
      }
    }
  }

  ghost function Least(s: set<Id>): (m: Id)
    requires s != {}
    ensures m in s && forall x | x in s :: m <= x
  {
    var x :| x in s;
    if s == {x} then x
    else
      var m := Least(s - {x});
      assert forall y | y in s :: y == x || y in s - {x};
      Min(x, m)
  }

  /** The members of a set in ascending order. */
  ghost function Ascending(s: set<Id>): seq<Id> {
    if s == {} then [] else [Least(s)] + Ascending(s - {Least(s)})
  }

  ghost predicate Increasing(xs: seq<Id>) {
    forall i, j | 0 <= i < j < |xs| :: xs[i] < xs[j]
  }

  /** Ascending is what its name says: increasing, and every member listed exactly once. */
  lemma {:induction false} AscendingListsOnce(s: set<Id>)
    ensures Increasing(Ascending(s)) && multiset(Ascending(s)) == multiset(s) && |Ascending(s)| == |s|
  {
    if s != {} {
      var m := Least(s);
      var rest := Ascending(s - {m});
      AscendingListsOnce(s - {m});
      assert multiset([m] + rest) == multiset{m} + multiset(rest);
      assert multiset(s) == multiset{m} + multiset(s - {m});
      forall j | 0 <= j < |rest| ensures m < rest[j] {
        assert rest[j] in multiset(rest);
      }
      PrependLeast(m, rest);
    }
  }

  lemma PrependLeast(m: Id, rest: seq<Id>)
    requires Increasing(rest) && forall j | 0 <= j < |rest| :: m < rest[j]
    ensures Increasing([m] + rest)
  {
  }

  ghost predicate Lists(xs: seq<Id>, s: set<Id>) {
    forall x :: x in xs <==> x in s
  }

  lemma {:induction false} IncreasingIsAscending(xs: seq<Id>, s: set<Id>)
    requires Increasing(xs) && Lists(xs, s)
    ensures xs == Ascending(s)
  {
    if xs == [] {
      assert s == {};
    } else {
      HeadIsLeast(xs, s);
      IncreasingIsAscending(xs[1..], s - {xs[0]});
      HeadAndTail(xs);
    }
  }

  lemma HeadAndTail(xs: seq<Id>)
    requires xs != []
    ensures [xs[0]] + xs[1..] == xs
  {
  }

  lemma HeadIsLeast(xs: seq<Id>, s: set<Id>)
    requires xs != [] && Increasing(xs) && Lists(xs, s)
    ensures s != {} && Least(s) == xs[0] && Increasing(xs[1..]) && Lists(xs[1..], s - {xs[0]})
  {
    var tail := xs[1..];
    assert xs[0] in s;
    assert forall x | x in tail :: xs[0] < x;
    assert forall x :: x in xs <==> x == xs[0] || x in tail;
  }

  // ------------------------------------------------------- DISTINCT ON is the latest

  /** A kept row stands for `row`: same partner, at least as recent. */
  ghost predicate StandsFor(k: Row, row: Row) {
    k.partner == row.partner && k.message.createdAt >= row.message.createdAt
  }

  ghost predicate Covers(kept: seq<Row>, row: Row) {
    exists k :: k in kept && StandsFor(k, row)
  }

  ghost predicate RisingPartners(kept: seq<Row>) {
    forall i, j | 0 <= i < j < |kept| :: kept[i].partner < kept[j].partner
  }

  lemma {:induction false} KeptAreRows(rows: seq<Row>)
    ensures forall k | k in DistinctOn(rows) :: k in rows
  {
    if rows != [] {
      KeptAreRows(rows[..|rows| - 1]);
    }
  }

  lemma {:induction false} KeptRise(rows: seq<Row>)
    requires Ordered(rows)
    ensures RisingPartners(DistinctOn(rows))
  {
    if rows != [] {
      var n := |rows| - 1;
      KeptRise(rows[..n]);
      if n == 0 || rows[n - 1].partner != rows[n].partner {
        KeptAreRows(rows[..n]);
        forall k | k in DistinctOn(rows[..n]) ensures k.partner < rows[n].partner {
          var i :| 0 <= i < n && rows[i] == k;
          assert Precedes(rows[n - 1], rows[n]);
          assert i < n - 1 ==> Precedes(rows[i], rows[n - 1]);
        }
        AppendRises(DistinctOn(rows[..n]), rows[n]);
      }
    }
  }

  lemma AppendRises(kept: seq<Row>, row: Row)
    requires RisingPartners(kept) && forall k | k in kept :: k.partner < row.partner
    ensures RisingPartners(kept + [row])
  {
  }

  lemma {:induction false} KeptCover(rows: seq<Row>, row: Row)
    requires Ordered(rows) && row in rows
    ensures Covers(DistinctOn(rows), row)
  {
    var n := |rows| - 1;
    if row in rows[..n] {
      KeptCover(rows[..n], row);
      var k :| k in DistinctOn(rows[..n]) && StandsFor(k, row);
      assert k in DistinctOn(rows);
    } else if n > 0 && rows[n - 1].partner == rows[n].partner {
      KeptCover(rows[..n], rows[..n][n - 1]);
      assert Precedes(rows[n - 1], rows[n]);
      var k :| k in DistinctOn(rows[..n]) && StandsFor(k, rows[n - 1]);
      assert k in DistinctOn(rows) && StandsFor(k, row);
    } else {
      assert row in DistinctOn(rows) && StandsFor(row, row);
    }
  }

  /** The row is a message with this partner, and none exchanged with them is newer. */
  ghost predicate IsLatest(row: Row, t: map<Id, Message>, u: Id) {
    && row.id in t && row.message == t[row.id] && Between(row.message, u, row.partner)
    && forall i | i in t && Between(t[i], u, row.partner) :: t[i].createdAt <= row.message.createdAt
  }

  /** Both ends of every message are users, and nobody writes to themselves. */
  ghost predicate References(mail: Mail) {
    forall i | i in mail.messages ::
      && mail.messages[i].sender in mail.users
      && mail.messages[i].recipient in mail.users
      && mail.messages[i].sender != mail.messages[i].recipient
  }

  lemma {:induction false} ReferencesHold(mail: Mail, ops: seq<Op>)
    requires References(mail)
    ensures References(Exec(mail, ops))
    decreases |ops|
  {
    if ops != [] {
      ReferencesHold(Do(mail, ops[0]).0, ops[1..]);
    }
  }

  lemma JoinDropsNothing(mail: Mail, u: Id, i: Id)
    requires References(mail) && i in mail.messages && Involves(mail.messages[i], u)
    ensures Row(i, Partner(mail.messages[i], u), mail.messages[i]) in Joined(mail, u)
  {
  }

  lemma KeptIsLatest(mail: Mail, u: Id, rows: seq<Row>, k: nat)
    requires References(mail) && Execution(rows, mail, u) && k < |DistinctOn(rows)|
    ensures IsLatest(DistinctOn(rows)[k], mail.messages, u)
  {
    var t, kept := mail.messages, DistinctOn(rows);
    KeptAreRows(rows);
    assert kept[k] in Joined(mail, u);
    PartnerIsOtherEnd(kept[k].message, u, kept[k].partner);
    forall i | i in t && Between(t[i], u, kept[k].partner)
      ensures t[i].createdAt <= kept[k].message.createdAt
    {
      PartnerIsOtherEnd(t[i], u, kept[k].partner);
      var row := Row(i, kept[k].partner, t[i]);
      JoinDropsNothing(mail, u, i);
      KeptCover(rows, row);
      var c :| c in kept && StandsFor(c, row);
      KeptRise(rows);
      assert c == kept[k];
    }
  }

  lemma KeptPartners(mail: Mail, u: Id, rows: seq<Row>, p: Id)
    requires References(mail) && Execution(rows, mail, u)
    ensures p in PartnerList(DistinctOn(rows)) <==> p in Partners(mail.messages, u)
  {
    var t, kept := mail.messages, DistinctOn(rows);
    CountedArePartners(t, u);
    if p in PartnerList(kept) {
      var k :| 0 <= k < |kept| && PartnerList(kept)[k] == p;
      KeptAreRows(rows);
      assert kept[k] in Joined(mail, u);
      assert p in Counted(t, u);
    }
    if p in Partners(t, u) {
      assert p in Counted(t, u);
      var i :| i in t && Involves(t[i], u) && Partner(t[i], u) == p;
      JoinDropsNothing(mail, u, i);
      KeptCover(rows, Row(i, p, t[i]));
      var c :| c in kept && c.partner == p;
      var k :| 0 <= k < |kept| && kept[k] == c;
      assert PartnerList(kept)[k] == p;
    }
  }

  /** The sorted, deduplicated query is the reference: the partners in ascending
      order, each represented by a newest message, as many rows as the separate
      count says, the reader never listed as their own partner. */
  lemma LatestPerPartner(mail: Mail, u: Id, rows: seq<Row>)
    requires References(mail) && Execution(rows, mail, u)
    ensures PartnerList(DistinctOn(rows)) == Ascending(Partners(mail.messages, u))
    ensures |DistinctOn(rows)| == |Partners(mail.messages, u)|
    ensures forall k | 0 <= k < |DistinctOn(rows)| :: IsLatest(DistinctOn(rows)[k], mail.messages, u)
    ensures u !in Partners(mail.messages, u)
  {
    var s, shown := Partners(mail.messages, u), PartnerList(DistinctOn(rows));
    forall k | 0 <= k < |DistinctOn(rows)| ensures IsLatest(DistinctOn(rows)[k], mail.messages, u) {
      KeptIsLatest(mail, u, rows, k);
    }
    forall p ensures p in shown <==> p in s {
      KeptPartners(mail, u, rows, p);
    }
    KeptRise(rows);
    IncreasingIsAscending(shown, s);
    AscendingListsOnce(s);
  }

  // ------------------------------------------------------------------------ paging

  /** The partners that each run of the query ranks, before LIMIT and OFFSET. */
  function Ranked(runs: seq<seq<Row>>): (lists: seq<seq<Id>>)
    ensures |lists| == |runs| && forall k | 0 <= k < |runs| :: lists[k] == PartnerList(DistinctOn(runs[k]))
  {
    seq(|runs|, k requires 0 <= k < |runs| => PartnerList(DistinctOn(runs[k])))
  }

  /** The offset of page k, k * limit as a sum. */
  function Offset(k: nat, limit: nat): nat {
    if k == 0 then 0 else Offset(k - 1, limit) + limit
  }

  lemma {:induction false} OffsetIsProduct(k: nat, limit: nat)
    ensures Offset(k, limit) == k * limit
  {
    if k > 0 {
      OffsetIsProduct(k - 1, limit);
    }
  }

  /** The partners shown by the first n pages, page k cut from lists[k]. */
  function Listing(lists: seq<seq<Id>>, limit: nat, n: nat): seq<Id>
    requires n <= |lists|
  {
    if n == 0 then [] else Listing(lists, limit, n - 1) + Page(lists[n - 1], limit, Offset(n - 1, limit))
  }

  lemma {:induction false} PagesJoin(lists: seq<seq<Id>>, all: seq<Id>, limit: nat, n: nat)
    requires n <= |lists| && forall k | 0 <= k < |lists| :: lists[k] == all
    ensures Listing(lists, limit, n) == Page(all, Offset(n, limit), 0)
  {
    if n > 0 {
      PagesJoin(lists, all, limit, n - 1);
      PagesAdjoin(all, Offset(n - 1, limit), limit);
    }
  }

  lemma PagesAdjoin(xs: seq<Id>, offset: nat, limit: nat)
    ensures Page(xs, offset, 0) + Page(xs, limit, offset) == Page(xs, offset + limit, 0)
  {
  }

  lemma WholePage(xs: seq<Id>, limit: nat)
    requires limit >= |xs|
    ensures Page(xs, limit, 0) == xs
  {
  }

  /** On an unchanged table, paging through the whole inbox lists every partner
      exactly once, however each page's query broke its ties. */
  lemma PagesPartition(mail: Mail, u: Id, runs: seq<seq<Row>>, limit: nat)
    requires References(mail) && forall k | 0 <= k < |runs| :: Execution(runs[k], mail, u)
    requires Offset(|runs|, limit) >= |Partners(mail.messages, u)|
    ensures multiset(Listing(Ranked(runs), limit, |runs|)) == multiset(Partners(mail.messages, u))
  {
    var all := Ascending(Partners(mail.messages, u));
    forall k | 0 <= k < |runs| ensures Ranked(runs)[k] == all {
      LatestPerPartner(mail, u, runs[k]);
    }
    PagesJoin(Ranked(runs), all, limit, |runs|);
    AscendingListsOnce(Partners(mail.messages, u));
    WholePage(all, Offset(|runs|, limit));
  }

  // ----------------------------------------------------------- what a caller receives

  /** A row as the service returns it: `name` is the joined user, and the
      recipient is overwritten with the reader. */
  datatype Item = Item(id: Id, sender: Id, recipient: Id, body: string, readAt: Option<int>, createdAt: int, name: Id)

  /** The item shows the row, except that a message the reader sent appears as
      sent by the reader to themselves. */
  predicate Shows(item: Item, row: Row, u: Id) {
    var m := row.message;
    item == Item(row.id, m.sender, u, m.body, m.readAt, m.createdAt, row.partner)
  }

  /** The recipient shown is the message's own if and only if the reader did not
      send it; otherwise the item reads as sent by the reader to themselves. */
  lemma RecipientOverwritten(mail: Mail, u: Id, row: Row, item: Item)
    requires References(mail) && IsLatest(row, mail.messages, u) && Shows(item, row, u)
    ensures item.recipient == row.message.recipient <==> row.message.sender != u
    ensures item.sender == item.recipient <==> row.message.sender == u
  {
  }

  /** The item shows a newest message exchanged with this partner. */
  ghost predicate Presents(item: Item, partner: Id, t: map<Id, Message>, u: Id) {
    && item.id in t
    && item == Item(item.id, t[item.id].sender, u, t[item.id].body, t[item.id].readAt, t[item.id].createdAt, partner)
    && Between(t[item.id], u, partner)
    && forall i | i in t && Between(t[i], u, partner) :: t[i].createdAt <= item.createdAt
  }

  /** What a page is: limit rows from the offset on, as far as there are any. */
  lemma PageIs<T>(rows: seq<T>, limit: nat, offset: nat)
    ensures |Page(rows, limit, offset)| ==
      if offset >= |rows| then 0 else if limit <= |rows| - offset then limit else |rows| - offset
    ensures forall k | 0 <= k < |Page(rows, limit, offset)| ::
      offset + k < |rows| && Page(rows, limit, offset)[k] == rows[offset + k]
  {
  }

  lemma ShowsOne(item: Item, row: Row, t: map<Id, Message>, u: Id)
    requires Shows(item, row, u) && IsLatest(row, t, u)
    ensures Presents(item, row.partner, t, u)
  {
  }

  /** The rows of the page, shown, are what the reader is to see. */
  lemma ShownPresents(mail: Mail, u: Id, rows: seq<Row>, limit: nat, offset: nat, items: seq<Item>, k: nat)
    requires References(mail) && Execution(rows, mail, u) && k < |items|
    requires |items| == |Page(DistinctOn(rows), limit, offset)|
    requires forall i | 0 <= i < |items| :: Shows(items[i], Page(DistinctOn(rows), limit, offset)[i], u)
    ensures var partners := Ascending(Partners(mail.messages, u));
      offset + k < |partners| && Presents(items[k], partners[offset + k], mail.messages, u)
  {
    var kept := DistinctOn(rows);
    LatestPerPartner(mail, u, rows);
    PageIs(kept, limit, offset);
    assert PartnerList(kept)[offset + k] == kept[offset + k].partner;
    ShowsOne(items[k], kept[offset + k], mail.messages, u);
  }

  /** Reads a page, `rows` being the order the server sorted the rows in: up to `limit`
      partners from number `offset` on, in ascending order, with a newest message each. */
  method ReadInbox(mail: Mail, u: Id, rows: seq<Row>, limit: nat, offset: nat) returns (items: seq<Item>, total: nat)
    requires References(mail) && Execution(rows, mail, u)
    ensures total == |Partners(mail.messages, u)|
    ensures |items| == if offset >= total then 0 else if limit <= total - offset then limit else total - offset
    ensures forall k | 0 <= k < |items| ::
      var partners := Ascending(Partners(mail.messages, u));
      offset + k < |partners| && Presents(items[k], partners[offset + k], mail.messages, u)
  {
    CountedArePartners(mail.messages, u);
    total := |Counted(mail.messages, u)|;
    var page := Page(DistinctOn(rows), limit, offset);
    items := [];
    for k := 0 to |page|
      invariant |items| == k
      invariant forall i | 0 <= i < k :: Shows(items[i], page[i], u)
    {
      items := items + [Item(page[k].id, page[k].message.sender, u, page[k].message.body,
                             page[k].message.readAt, page[k].message.createdAt, page[k].partner)];
    }
    LatestPerPartner(mail, u, rows);
    PageIs(DistinctOn(rows), limit, offset);
    forall k | 0 <= k < |items|
      ensures var partners := Ascending(Partners(mail.messages, u));
        offset + k < |partners| && Presents(items[k], partners[offset + k], mail.messages, u)
    {
      ShownPresents(mail, u, rows, limit, offset, items, k);
    }
  }

  // --------------------------------------------------- "newest first" is not the order

  ghost predicate NewestFirst(kept: seq<Row>) {
    forall i, j | 0 <= i < j < |kept| :: kept[i].message.createdAt >= kept[j].message.createdAt
  }

  /** Some message with p is at least as recent as every message with q. */
  ghost predicate AtLeastAsRecent(t: map<Id, Message>, u: Id, p: Id, q: Id) {
    exists i :: i in t && Between(t[i], u, p) && NoneNewer(t, u, q, t[i].createdAt)
  }

  ghost predicate NoneNewer(t: map<Id, Message>, u: Id, q: Id, time: int) {
    forall j | j in t && Between(t[j], u, q) :: t[j].createdAt <= time
  }

  lemma LatestCompare(t: map<Id, Message>, u: Id, a: Row, b: Row)
    requires IsLatest(a, t, u) && IsLatest(b, t, u)
    ensures AtLeastAsRecent(t, u, a.partner, b.partner) <==> a.message.createdAt >= b.message.createdAt
  {
    if a.message.createdAt >= b.message.createdAt {
      assert NoneNewer(t, u, b.partner, t[a.id].createdAt);
    }
  }

  ghost predicate PartnersNewestFirst(t: map<Id, Message>, u: Id) {
    forall p, q | p in Partners(t, u) && q in Partners(t, u) && p < q :: AtLeastAsRecent(t, u, p, q)
  }

  lemma NewestFirstOnlyIf(mail: Mail, u: Id, rows: seq<Row>, p: Id, q: Id)
    requires References(mail) && Execution(rows, mail, u) && NewestFirst(DistinctOn(rows))
    requires p in Partners(mail.messages, u) && q in Partners(mail.messages, u) && p < q
    ensures AtLeastAsRecent(mail.messages, u, p, q)
  {
    var kept := DistinctOn(rows);
    KeptPartners(mail, u, rows, p);
    KeptPartners(mail, u, rows, q);
    var i :| 0 <= i < |kept| && PartnerList(kept)[i] == p;
    var j :| 0 <= j < |kept| && PartnerList(kept)[j] == q;
    KeptRise(rows);
    KeptIsLatest(mail, u, rows, i);
    KeptIsLatest(mail, u, rows, j);
    LatestCompare(mail.messages, u, kept[i], kept[j]);
  }

  lemma NewestFirstIf(mail: Mail, u: Id, rows: seq<Row>, i: nat, j: nat)
    requires References(mail) && Execution(rows, mail, u) && PartnersNewestFirst(mail.messages, u)
    requires i < j < |DistinctOn(rows)|
    ensures DistinctOn(rows)[i].message.createdAt >= DistinctOn(rows)[j].message.createdAt
  {
    var kept := DistinctOn(rows);
    KeptRise(rows);
    KeptIsLatest(mail, u, rows, i);
    KeptIsLatest(mail, u, rows, j);
    IsPartner(mail.messages, u, kept[i].partner);
    IsPartner(mail.messages, u, kept[j].partner);
    LatestCompare(mail.messages, u, kept[i], kept[j]);
  }

  /** The inbox comes newest first exactly when the partners' ids happen to be in
      that order already. */
  lemma NewestFirstExactly(mail: Mail, u: Id, rows: seq<Row>)
    requires References(mail) && Execution(rows, mail, u)
    ensures NewestFirst(DistinctOn(rows)) <==> PartnersNewestFirst(mail.messages, u)
  {
    if NewestFirst(DistinctOn(rows)) {
      forall p, q | p in Partners(mail.messages, u) && q in Partners(mail.messages, u) && p < q
        ensures AtLeastAsRecent(mail.messages, u, p, q)
      {
        NewestFirstOnlyIf(mail, u, rows, p, q);
      }
    }
    if PartnersNewestFirst(mail.messages, u) {
      forall i, j | 0 <= i < j < |DistinctOn(rows)|
        ensures DistinctOn(rows)[i].message.createdAt >= DistinctOn(rows)[j].message.createdAt
      {
        NewestFirstIf(mail, u, rows, i, j);
      }
    }
  }

  /** User 0 heard from user 1 first and from user 2 later; user 1 is listed first. */
  lemma OlderConversationListedFirst()
    ensures var early, late := Message(1, 0, "a", None, 10), Message(2, 0, "b", None, 20);
      var mail, rows := Mail({0, 1, 2}, map[7 := early, 8 := late], map[]), [Row(7, 1, early), Row(8, 2, late)];
      References(mail) && Execution(rows, mail, 0) && DistinctOn(rows) == rows && !NewestFirst(rows)
  {
    var early, late := Message(1, 0, "a", None, 10), Message(2, 0, "b", None, 20);
    var mail, rows := Mail({0, 1, 2}, map[7 := early, 8 := late], map[]), [Row(7, 1, early), Row(8, 2, late)];
    assert rows[..1] == [rows[0]];
    assert DistinctOn([rows[0]]) == [rows[0]];
    assert Partner(early, 0) == 1 && Partner(late, 0) == 2;
    forall r ensures r in rows <==> r in Joined(mail, 0) {
      if r == rows[0] {
        JoinDropsNothing(mail, 0, 7);
      } else if r == rows[1] {
        JoinDropsNothing(mail, 0, 8);
      }
    }
    assert rows[0].message.createdAt < rows[1].message.createdAt;
  }
}
