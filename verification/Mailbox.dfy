/** Private messages and notifications: the tables, the service calls on them,
    and the conservation of unread counters. */
module Mailbox {
  import opened Counting
  import opened Options
  import opened Text

  type Id = nat

  const MAX_BODY := 10000

  datatype Message = Message(sender: Id, recipient: Id, body: string, readAt: Option<int>, createdAt: int)

  /** The payload is reduced to the id of the message it announces. */
  datatype Notification = Notification(user: Id, message: Id, readAt: Option<int>)

  datatype Mail = Mail(users: set<Id>, messages: map<Id, Message>, notifications: map<Id, Notification>)

  /** Failed stands for an error of the database itself: a foreign key that does not hold. */
  datatype Outcome = Ok | NotFound | UserNotFound | InvalidInput | Failed

  // ---------------------------------------------------------------- the counters

  predicate UnreadFor(m: Message, u: Id) {
    m.recipient == u && m.readAt.None?
  }

  /** SELECT count(*) ... WHERE recipient_id = $1 AND read_at IS NULL */
  function Unread(messages: map<Id, Message>, u: Id): set<Id> {
    set m | m in messages && UnreadFor(messages[m], u)
  }

  function UnreadNotes(notifications: map<Id, Notification>, u: Id): set<Id> {
    set n | n in notifications && notifications[n].user == u && notifications[n].readAt.None?
  }

  /** What CountUnread counts: the messages to u without a read time. */
  lemma UnreadIs(messages: map<Id, Message>, u: Id, m: Id)
    ensures m in Unread(messages, u) <==> m in messages && messages[m].recipient == u && messages[m].readAt == None
  {
  }

  // ------------------------------------------------------------------- the calls

  datatype Op =
    | Send(id: Id, from: Id, to: Id, body: string, now: int)
    | OnPrivateMessage(id: Id, recipient: Id, message: Id)
    | MarkRead(id: Id, caller: Id, now: int)
    | MarkNote(id: Id, caller: Id, now: int)
    | MarkAllNotes(caller: Id, now: int)

  predicate ValidBody(body: string) {
    0 < |TrimSpace(body)| <= MAX_BODY
  }

  function DoSend(s: Mail, id: Id, from: Id, to: Id, body: string, now: int): (Mail, Outcome) {
    if from == to || !ValidBody(body) then (s, InvalidInput)
    else if to !in s.users then (s, UserNotFound)
    else if from !in s.users then (s, Failed)
    else (s.(messages := s.messages[id := Message(from, to, TrimSpace(body), None, now)]), Ok)
  }

  function DoNotify(s: Mail, id: Id, recipient: Id, message: Id): (Mail, Outcome) {
    if recipient !in s.users then (s, Failed)
    else (s.(notifications := s.notifications[id := Notification(recipient, message, None)]), Ok)
  }

  /** UPDATE ... WHERE id = $1 AND recipient_id = $2 AND read_at IS NULL */
  function DoMarkRead(s: Mail, id: Id, caller: Id, now: int): (Mail, Outcome) {
    if id in s.messages && UnreadFor(s.messages[id], caller)
    then (s.(messages := s.messages[id := s.messages[id].(readAt := Some(now))]), Ok)
    else (s, NotFound)
  }

  function DoMarkNote(s: Mail, id: Id, caller: Id, now: int): (Mail, Outcome) {
    if id in UnreadNotes(s.notifications, caller)
    then (s.(notifications := s.notifications[id := s.notifications[id].(readAt := Some(now))]), Ok)
    else (s, NotFound)
  }

  /** The notifications with those in `marked` set to read. */
  function Swept(notifications: map<Id, Notification>, marked: set<Id>, now: int): map<Id, Notification> {
    map n | n in notifications ::
      if n in marked then notifications[n].(readAt := Some(now)) else notifications[n]
  }

  /** UPDATE ... WHERE user_id = $1 AND read_at IS NULL */
  function DoMarkAllNotes(s: Mail, caller: Id, now: int): (Mail, Outcome) {
    (s.(notifications := Swept(s.notifications, UnreadNotes(s.notifications, caller), now)), Ok)
  }

  function Do(s: Mail, op: Op): (Mail, Outcome) {
    match op
    case Send(id, from, to, body, now) => DoSend(s, id, from, to, body, now)
    case OnPrivateMessage(id, recipient, message) => DoNotify(s, id, recipient, message)
    case MarkRead(id, caller, now) => DoMarkRead(s, id, caller, now)
    case MarkNote(id, caller, now) => DoMarkNote(s, id, caller, now)
    case MarkAllNotes(caller, now) => DoMarkAllNotes(s, caller, now)
  }

  /** Primary keys are drawn by the database and do not collide. */
  predicate Fresh(s: Mail, op: Op) {
    match op
    case Send(id, _, _, _, _) => id !in s.messages
    case OnPrivateMessage(id, _, _) => id !in s.notifications
    case _ => true
  }

  predicate Plausible(s: Mail, ops: seq<Op>)
    decreases |ops|
  {
    ops == [] || (Fresh(s, ops[0]) && Plausible(Do(s, ops[0]).0, ops[1..]))
  }

  function Exec(s: Mail, ops: seq<Op>): Mail
    decreases |ops|
  {
    if ops == [] then s else Exec(Do(s, ops[0]).0, ops[1..])
  }

  // -------------------------------------------------------------------- a table

  class Tables {
    var users: set<Id>
    var messages: map<Id, Message>
    var notifications: map<Id, Notification>

    constructor (users: set<Id>)
      ensures Snapshot() == Mail(users, map[], map[])
    {
      this.users, messages, notifications := users, map[], map[];
    }

    ghost function Snapshot(): Mail
      reads this
    {
      Mail(users, messages, notifications)
    }

    method Send(id: Id, from: Id, to: Id, body: string, now: int) returns (r: Outcome)
      modifies this`messages
      ensures (Snapshot(), r) == DoSend(old(Snapshot()), id, from, to, body, now)
      ensures r == Ok <==> from != to && 0 < |TrimSpace(body)| <= 10000 && from in users && to in users
      ensures r == InvalidInput <==> from == to || !(0 < |TrimSpace(body)| <= 10000)
      ensures r == UserNotFound <==> from != to && 0 < |TrimSpace(body)| <= 10000 && to !in users
      ensures r == Ok ==> messages == old(messages)[id := Message(from, to, TrimSpace(body), None, now)]
      ensures r == Ok ==> Unread(messages, to) == Unread(old(messages), to) + {id}
      ensures r != Ok ==> messages == old(messages)
    {
      if from == to {
        return InvalidInput;
      }
      var text := TrimSpace(body);
      if text == "" || |text| > MAX_BODY {
        return InvalidInput;
      }
      if to !in users {
        return UserNotFound;
      }
      if from !in users {
        return Failed;
      }
      messages := messages[id := Message(from, to, text, None, now)];
      r := Ok;
    }

    method OnPrivateMessage(id: Id, recipient: Id, message: Id) returns (r: Outcome)
      modifies this`notifications
      ensures (Snapshot(), r) == DoNotify(old(Snapshot()), id, recipient, message)
      ensures r == if recipient in users then Ok else Failed
      ensures r == Ok ==> notifications == old(notifications)[id := Notification(recipient, message, None)]
      ensures r == Ok ==> UnreadNotes(notifications, recipient) == UnreadNotes(old(notifications), recipient) + {id}
      ensures r != Ok ==> notifications == old(notifications)
    {
      if recipient !in users {
        return Failed;
      }
      notifications := notifications[id := Notification(recipient, message, None)];
      r := Ok;
    }

    method MarkRead(id: Id, caller: Id, now: int) returns (r: Outcome)
      modifies this`messages
      ensures (Snapshot(), r) == DoMarkRead(old(Snapshot()), id, caller, now)
      ensures r == Ok <==>
        id in old(messages) && old(messages)[id].recipient == caller && old(messages)[id].readAt == None
      ensures r == Ok || r == NotFound
      ensures r == Ok ==> messages == old(messages)[id := old(messages)[id].(readAt := Some(now))]
      ensures Unread(messages, caller) == Unread(old(messages), caller) - {id}
      ensures r != Ok ==> messages == old(messages)
    {
      if id !in messages || messages[id].recipient != caller || messages[id].readAt.Some? {
        return NotFound;
      }
      messages := messages[id := messages[id].(readAt := Some(now))];
      r := Ok;
    }

    method MarkNote(id: Id, caller: Id, now: int) returns (r: Outcome)
      modifies this`notifications
      ensures (Snapshot(), r) == DoMarkNote(old(Snapshot()), id, caller, now)
      ensures r == Ok <==>
        id in old(notifications) && old(notifications)[id].user == caller && old(notifications)[id].readAt == None
      ensures r == Ok || r == NotFound
      ensures r == Ok ==> notifications == old(notifications)[id := old(notifications)[id].(readAt := Some(now))]
      ensures UnreadNotes(notifications, caller) == UnreadNotes(old(notifications), caller) - {id}
      ensures r != Ok ==> notifications == old(notifications)
    {
      if id !in notifications || notifications[id].user != caller || notifications[id].readAt.Some? {
        return NotFound;
      }
      notifications := notifications[id := notifications[id].(readAt := Some(now))];
      r := Ok;
    }

    /** Row by row, as the statement's WHERE selects them. */
    method MarkAllNotes(caller: Id, now: int)
      modifies this`notifications
      ensures Snapshot() == DoMarkAllNotes(old(Snapshot()), caller, now).0
      ensures UnreadNotes(notifications, caller) == {}
      ensures notifications.Keys == old(notifications).Keys
      ensures forall n :: n in notifications ==>
        notifications[n] ==
          if old(notifications)[n].user == caller && old(notifications)[n].readAt == None
          then old(notifications)[n].(readAt := Some(now)) else old(notifications)[n]
    {
      ghost var before := notifications;
      var rest := UnreadNotes(notifications, caller);
      while rest != {}
        invariant rest <= UnreadNotes(before, caller)
        invariant notifications == Swept(before, UnreadNotes(before, caller) - rest, now)
        invariant users == old(users) && messages == old(messages)
      {
        var n :| n in rest;
        notifications := notifications[n := notifications[n].(readAt := Some(now))];
        rest := rest - {n};
      }
    }
  }

  // ----------------------------------------------------------------- conservation

  /** Messages that reached u, and messages u marked, in a run. */
  function SentTo(s: Mail, ops: seq<Op>, u: Id): nat
    decreases |ops|
  {
    if ops == [] then 0
    else OneIf(ops[0].Send? && ops[0].to == u && Do(s, ops[0]).1 == Ok) + SentTo(Do(s, ops[0]).0, ops[1..], u)
  }

  function MarkedBy(s: Mail, ops: seq<Op>, u: Id): nat
    decreases |ops|
  {
    if ops == [] then 0
    else OneIf(ops[0].MarkRead? && ops[0].caller == u && Do(s, ops[0]).1 == Ok) + MarkedBy(Do(s, ops[0]).0, ops[1..], u)
  }

  lemma UnreadInsert(messages: map<Id, Message>, id: Id, m: Message, u: Id)
    requires id !in messages
    ensures |Unread(messages[id := m], u)| == |Unread(messages, u)| + OneIf(UnreadFor(m, u))
  {
    var after := messages[id := m];
    if UnreadFor(m, u) {
      assert Unread(after, u) == Unread(messages, u) + {id};
    } else {
      assert Unread(after, u) == Unread(messages, u);
    }
  }

  lemma UnreadMark(messages: map<Id, Message>, id: Id, now: int, u: Id)
    requires id in messages && messages[id].readAt.None?
    ensures |Unread(messages[id := messages[id].(readAt := Some(now))], u)| + OneIf(messages[id].recipient == u)
      == |Unread(messages, u)|
  {
    var after := messages[id := messages[id].(readAt := Some(now))];
    if messages[id].recipient == u {
      assert Unread(messages, u) == Unread(after, u) + {id};
    } else {
      assert Unread(after, u) == Unread(messages, u);
    }
  }

  lemma UnreadStep(s: Mail, op: Op, u: Id)
    requires Fresh(s, op)
    ensures |Unread(Do(s, op).0.messages, u)| + OneIf(op.MarkRead? && op.caller == u && Do(s, op).1 == Ok)
      == |Unread(s.messages, u)| + OneIf(op.Send? && op.to == u && Do(s, op).1 == Ok)
  {
    match op
    case Send(id, from, to, body, now) =>
      if DoSend(s, id, from, to, body, now).1 == Ok {
        UnreadInsert(s.messages, id, Message(from, to, TrimSpace(body), None, now), u);
      }
    case MarkRead(id, caller, now) =>
      if DoMarkRead(s, id, caller, now).1 == Ok {
        UnreadMark(s.messages, id, now, u);
      }
    case _ =>
  }

  /** For every user: unread now = unread before + received - marked. */
  lemma {:induction false} UnreadConservation(s: Mail, ops: seq<Op>, u: Id)
    requires Plausible(s, ops)
    ensures |Unread(Exec(s, ops).messages, u)| + MarkedBy(s, ops, u) == |Unread(s.messages, u)| + SentTo(s, ops, u)
    decreases |ops|
  {
    if ops != [] {
      UnreadStep(s, ops[0], u);
      UnreadConservation(Do(s, ops[0]).0, ops[1..], u);
    }
  }

  lemma ReadStays(s: Mail, op: Op, id: Id)
    requires Fresh(s, op) && id in s.messages && s.messages[id].readAt.Some?
    ensures id in Do(s, op).0.messages && Do(s, op).0.messages[id] == s.messages[id]
    ensures op.MarkRead? && op.id == id ==> Do(s, op).1 == NotFound
  {
  }

  lemma {:induction false} ReadForever(s: Mail, ops: seq<Op>, id: Id, j: nat)
    requires Plausible(s, ops) && id in s.messages && s.messages[id].readAt.Some?
    requires j < |ops| && ops[j].MarkRead? && ops[j].id == id
    ensures Do(Exec(s, ops[..j]), ops[j]).1 == NotFound
    decreases |ops|
  {
    ReadStays(s, ops[0], id);
    if j > 0 {
      ReadForever(Do(s, ops[0]).0, ops[1..], id, j - 1);
      assert ops[..j][1..] == ops[1..][..j - 1];
    }
  }

  /** A message is marked at most once, and it keeps the time of that mark. */
  lemma {:induction false} MarkedOnce(s: Mail, ops: seq<Op>, i: nat, j: nat)
    requires Plausible(s, ops) && i < j < |ops|
    requires ops[i].MarkRead? && ops[j].MarkRead? && ops[i].id == ops[j].id
    requires Do(Exec(s, ops[..i]), ops[i]).1 == Ok
    ensures Do(Exec(s, ops[..j]), ops[j]).1 == NotFound
    decreases |ops|
  {
    assert ops[..j][1..] == ops[1..][..j - 1];
    if i == 0 {
      ReadForever(Do(s, ops[0]).0, ops[1..], ops[0].id, j - 1);
    } else {
      assert ops[..i][1..] == ops[1..][..i - 1];
      MarkedOnce(Do(s, ops[0]).0, ops[1..], i - 1, j - 1);
    }
  }

  /** Notifications: created for u, marked singly by u, swept by u's read-all. */
  function NotesIn(s: Mail, op: Op, u: Id): nat {
    OneIf(op.OnPrivateMessage? && op.recipient == u && Do(s, op).1 == Ok)
  }

  function NotesOut(s: Mail, op: Op, u: Id): nat {
    if op.MarkNote? then OneIf(op.caller == u && Do(s, op).1 == Ok)
    else if op.MarkAllNotes? && op.caller == u then |UnreadNotes(s.notifications, u)|
    else 0
  }

  function SumIn(s: Mail, ops: seq<Op>, u: Id): nat
    decreases |ops|
  {
    if ops == [] then 0 else NotesIn(s, ops[0], u) + SumIn(Do(s, ops[0]).0, ops[1..], u)
  }

  function SumOut(s: Mail, ops: seq<Op>, u: Id): nat
    decreases |ops|
  {
    if ops == [] then 0 else NotesOut(s, ops[0], u) + SumOut(Do(s, ops[0]).0, ops[1..], u)
  }

  lemma NotesInsert(notes: map<Id, Notification>, id: Id, n: Notification, u: Id)
    requires id !in notes && n.readAt.None?
    ensures |UnreadNotes(notes[id := n], u)| == |UnreadNotes(notes, u)| + OneIf(n.user == u)
  {
    var after := notes[id := n];
    if n.user == u {
      assert UnreadNotes(after, u) == UnreadNotes(notes, u) + {id};
    } else {
      assert UnreadNotes(after, u) == UnreadNotes(notes, u);
    }
  }

  lemma NotesMark(notes: map<Id, Notification>, id: Id, now: int, u: Id)
    requires id in notes && notes[id].readAt.None?
    ensures |UnreadNotes(notes[id := notes[id].(readAt := Some(now))], u)| + OneIf(notes[id].user == u)
      == |UnreadNotes(notes, u)|
  {
    var after := notes[id := notes[id].(readAt := Some(now))];
    if notes[id].user == u {
      assert UnreadNotes(notes, u) == UnreadNotes(after, u) + {id};
    } else {
      assert UnreadNotes(after, u) == UnreadNotes(notes, u);
    }
  }

  /** Read-all leaves the caller with nothing unread and everyone else untouched. */
  lemma SweepIsOwn(s: Mail, caller: Id, now: int, u: Id)
    ensures UnreadNotes(DoMarkAllNotes(s, caller, now).0.notifications, u)
      == if u == caller then {} else UnreadNotes(s.notifications, u)
  {
    var after := DoMarkAllNotes(s, caller, now).0.notifications;
    if u == caller {
      assert UnreadNotes(after, u) == {};
    } else {
      assert UnreadNotes(after, u) == UnreadNotes(s.notifications, u);
    }
  }

  lemma NotesStep(s: Mail, op: Op, u: Id)
    requires Fresh(s, op)
    ensures |UnreadNotes(Do(s, op).0.notifications, u)| + NotesOut(s, op, u)
      == |UnreadNotes(s.notifications, u)| + NotesIn(s, op, u)
  {
    match op
    case OnPrivateMessage(id, recipient, message) =>
      if recipient in s.users {
        NotesInsert(s.notifications, id, Notification(recipient, message, None), u);
      }
    case MarkNote(id, caller, now) =>
      if DoMarkNote(s, id, caller, now).1 == Ok {
        NotesMark(s.notifications, id, now, u);
      }
    case MarkAllNotes(caller, now) => SweepIsOwn(s, caller, now, u);
    case _ =>
  }

  lemma {:induction false} NoteConservation(s: Mail, ops: seq<Op>, u: Id)
    requires Plausible(s, ops)
    ensures |UnreadNotes(Exec(s, ops).notifications, u)| + SumOut(s, ops, u)
      == |UnreadNotes(s.notifications, u)| + SumIn(s, ops, u)
    decreases |ops|
  {
    if ops != [] {
      NotesStep(s, ops[0], u);
      NoteConservation(Do(s, ops[0]).0, ops[1..], u);
    }
  }
}
