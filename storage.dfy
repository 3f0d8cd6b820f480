/** The SQLite store of internal/storage/storage.go as five keyed tables held
    in maps: users and the two per-chat state tables keyed by chat id, day
    records keyed by (chat, day) and pending questions keyed by (chat, date
    key). Every statement either succeeds or is not modelled (see the README),
    and `now` stands for the clock the statement reads. */
module Storage {
  import opened Text
  import opened Models
  import opened Calendar

  type ChatKey = (int, string)

  /** A stored day_records row. `complaints` is None when the row was created
      by SetDinner and the column default is NULL: such a row cannot be scanned
      into a DayRecord, so GetDayRecord reports no record for it. */
  datatype DayRow = DayRow(complaints: Option<string>, dinnerAt: Option<int>)

  /** The tables ClearData empties, in the order it deletes from them. */
  datatype Table = DayRecords | PendingMessages | UserStates | Sessions | Users

  const ClearOrder: seq<Table> := [DayRecords, PendingMessages, UserStates, Sessions, Users]

  /** Seconds a question waits before a reminder is due. */
  const ReminderDelay := 1200

  /** The contents of the five tables at one moment, with the id the next
      pending row will get. */
  datatype Tables = Tables(
    users: map<int, User>, userStates: map<int, string>, sessions: map<int, State>,
    dayRecords: map<ChatKey, DayRow>, pending: map<ChatKey, PendingMessage>, nextId: int)

  // ---------- rows of day_records ----------

  /** What GetDayRecord scans from the row of (chat, day), if any. */
  function DayRecordOf(rows: map<ChatKey, DayRow>, chatId: int, day: string): (r: Option<DayRecord>)
    ensures r.Some? <==> (chatId, day) in rows && rows[(chatId, day)].complaints.Some?
    ensures r.Some? ==> (r.value.chatId == chatId && r.value.day == day
                         && Some(r.value.complaints) == rows[(chatId, day)].complaints
                         && r.value.dinnerAt == rows[(chatId, day)].dinnerAt)
  {
    if (chatId, day) in rows && rows[(chatId, day)].complaints.Some? then
      var row := rows[(chatId, day)];
      Some(DayRecord(chatId, day, row.complaints.value, row.dinnerAt))
    else None
  }

  /** UpsertDayRecord: insert (chat, day, complaints) or overwrite only the
      complaints of the existing row; a new row takes `defaults` for dinner_at. */
  function WithComplaints(rows: map<ChatKey, DayRow>, chatId: int, day: string, text: string, defaults: DayRow)
    : (r: map<ChatKey, DayRow>)
    ensures DayRecordOf(r, chatId, day)
      == Some(DayRecord(chatId, day, text, if (chatId, day) in rows then rows[(chatId, day)].dinnerAt else defaults.dinnerAt))
    ensures r.Keys == rows.Keys + {(chatId, day)}
    ensures forall k :: k in rows && k != (chatId, day) ==> r[k] == rows[k]
  {
    var base := if (chatId, day) in rows then rows[(chatId, day)] else defaults;
    rows[(chatId, day) := base.(complaints := Some(text))]
  }

  /** SetDinner: insert (chat, day, dinner_at) or overwrite only the dinner time
      of the existing row; a new row takes `defaults` for complaints. */
  function WithDinner(rows: map<ChatKey, DayRow>, chatId: int, day: string, t: int, defaults: DayRow)
    : (r: map<ChatKey, DayRow>)
    ensures (chatId, day) in r && r[(chatId, day)].dinnerAt == Some(t)
    ensures r[(chatId, day)].complaints
      == if (chatId, day) in rows then rows[(chatId, day)].complaints else defaults.complaints
    ensures r.Keys == rows.Keys + {(chatId, day)}
    ensures forall k :: k in rows && k != (chatId, day) ==> r[k] == rows[k]
  {
    var base := if (chatId, day) in rows then rows[(chatId, day)] else defaults;
    rows[(chatId, day) := base.(dinnerAt := Some(t))]
  }

  /** HasAnswered: the key is split on '-'; the first three pieces name the
      day and the fourth says which question. A morning question counts as
      answered when the day's complaints are not empty, an evening one when
      its dinner time is set; fewer than four pieces, no readable record or any
      other fourth piece mean "not answered". */
  function Answered(rows: map<ChatKey, DayRow>, chatId: int, dateKey: string): bool
  {
    var parts := Split(dateKey, '-');
    if |parts| < 4 then false
    else
      match DayRecordOf(rows, chatId, Join(parts[..3], '-'))
      case None => false
      case Some(rec) =>
        if parts[3] == "morning" then rec.complaints != ""
        else if parts[3] == "evening" then rec.dinnerAt.Some?
        else false
  }

  /** For a key built as "<date>-morning" or "<date>-evening", HasAnswered
      reads the record of that very date: complaints for the morning, the
      dinner time for the evening. */
  lemma {:induction false} AnsweredDateKey(rows: map<ChatKey, DayRow>, chatId: int, d: Date, p: Period)
    requires ValidDate(d) && d.year >= 0
    ensures Answered(rows, chatId, FormatDate(d) + "-" + p.Name())
      == match DayRecordOf(rows, chatId, FormatDate(d))
         case None => false
         case Some(rec) => if p.Morning? then rec.complaints != "" else rec.dinnerAt.Some?
  {
    var key := FormatDate(d) + "-" + p.Name();
    SplitDateKey(d, p.Name());
    var y, m, dd := ZeroPad(d.year, 4), ZeroPad(d.month, 2), ZeroPad(d.day, 2);
    assert '-' !in p.Name();
    SplitWithout(p.Name(), '-');
    var parts := Split(key, '-');
    assert parts == [y, m, dd, p.Name()];
    assert parts[..3] == [y, m, dd];
  }

  /** The morning key of a date is answered exactly when that date's record
      holds non-empty complaints. */
  lemma MorningAnswered(rows: map<ChatKey, DayRow>, chatId: int, d: Date)
    requires ValidDate(d) && d.year >= 0
    ensures var rec := DayRecordOf(rows, chatId, FormatDate(d));
      Answered(rows, chatId, FormatDate(d) + "-morning") <==> rec.Some? && rec.value.complaints != ""
  {
    AnsweredDateKey(rows, chatId, d, Morning);
    assert FormatDate(d) + "-" + Morning.Name() == FormatDate(d) + "-morning";
  }

  /** Keys with fewer than four '-'-separated pieces are never answered. */
  lemma ShortKeyNotAnswered(rows: map<ChatKey, DayRow>, chatId: int, dateKey: string)
    requires |Split(dateKey, '-')| < 4
    ensures !Answered(rows, chatId, dateKey)
  {
  }

  /** "No complaints" is stored as empty complaints, which HasAnswered reads as
      "not answered": the morning question stays open to HasAnswered. */
  lemma {:induction false} NoComplaintsNotAnswered(rows: map<ChatKey, DayRow>, chatId: int, d: Date, defaults: DayRow)
    requires ValidDate(d) && d.year >= 0
    ensures !Answered(WithComplaints(rows, chatId, FormatDate(d), "", defaults), chatId, FormatDate(d) + "-morning")
  {
    var rows' := WithComplaints(rows, chatId, FormatDate(d), "", defaults);
    AnsweredDateKey(rows', chatId, d, Morning);
    assert FormatDate(d) + "-" + Morning.Name() == FormatDate(d) + "-morning";
  }

  /** Setting the dinner of a date answers that date's evening question. */
  lemma {:induction false} DinnerAnswersEvening(rows: map<ChatKey, DayRow>, chatId: int, d: Date, t: int, defaults: DayRow)
    requires ValidDate(d) && d.year >= 0
    requires (chatId, FormatDate(d)) in rows ==> rows[(chatId, FormatDate(d))].complaints.Some?
    requires (chatId, FormatDate(d)) !in rows ==> defaults.complaints.Some?
    ensures Answered(WithDinner(rows, chatId, FormatDate(d), t, defaults), chatId, FormatDate(d) + "-evening")
  {
    var rows' := WithDinner(rows, chatId, FormatDate(d), t, defaults);
    AnsweredDateKey(rows', chatId, d, Evening);
    assert FormatDate(d) + "-" + Evening.Name() == FormatDate(d) + "-evening";
  }

  // ---------- rows of pending_messages ----------

  /** The row InsertPending writes: a zero created_at or reminded_at is replaced
      by the current time; the id is assigned by the table. */
  function Stamped(p: PendingMessage, id: int, now: int): (r: PendingMessage)
    ensures r.id == id && r.chatId == p.chatId && r.dateKey == p.dateKey && r.kind == p.kind && r.msgId == p.msgId
    ensures r.createdAt == (if p.createdAt == 0 then now else p.createdAt)
    ensures r.remindedAt == (if p.remindedAt == 0 then now else p.remindedAt)
  {
    p.(id := id,
       createdAt := if p.createdAt == 0 then now else p.createdAt,
       remindedAt := if p.remindedAt == 0 then now else p.remindedAt)
  }

  /** A row inserted with neither time set counts as reminded when it was
      created, and with a non-zero clock no inserted row keeps the documented
      "not yet reminded" value 0. */
  lemma StampedTimes(p: PendingMessage, id: int, now: int)
    ensures p.createdAt == 0 && p.remindedAt == 0 ==> Stamped(p, id, now).remindedAt == Stamped(p, id, now).createdAt
    ensures now != 0 ==> Stamped(p, id, now).remindedAt != 0 && Stamped(p, id, now).createdAt != 0
  {
  }

  /** The rows of one chat a reminder is due for at time `now`. */
  function DueRows(pending: map<ChatKey, PendingMessage>, chatId: int, now: int): set<PendingMessage>
  {
    set k | k in pending && k.0 == chatId && pending[k].remindedAt < now - ReminderDelay :: pending[k]
  }

  /** TouchReminder: the row with the given id gets reminded_at = now. */
  function Touched(pending: map<ChatKey, PendingMessage>, id: int, now: int): (r: map<ChatKey, PendingMessage>)
    ensures r.Keys == pending.Keys
    ensures forall k :: k in pending ==>
      r[k] == if pending[k].id == id then pending[k].(remindedAt := now) else pending[k]
  {
    map k | k in pending :: if pending[k].id == id then pending[k].(remindedAt := now) else pending[k]
  }

  /** A touched row is not due again for the next twenty minutes. */
  lemma TouchedNotDue(pending: map<ChatKey, PendingMessage>, id: int, now: int, later: int, chatId: int)
    requires later <= now + ReminderDelay
    ensures forall p :: p in DueRows(Touched(pending, id, now), chatId, later) ==> p.id != id
  {
    var t := Touched(pending, id, now);
    forall p | p in DueRows(t, chatId, later) ensures p.id != id {
      var k :| k in t && k.0 == chatId && t[k].remindedAt < later - ReminderDelay && t[k] == p;
    }
  }

  // ---------- deleting one chat ----------

  function WithoutChat<V>(m: map<int, V>, chatId: int): (r: map<int, V>)
    ensures chatId !in r
    ensures forall c :: c != chatId ==> (c in r <==> c in m) && (c in m ==> r[c] == m[c])
  {
    m - {chatId}
  }

  function WithoutChatKeys<V>(m: map<ChatKey, V>, chatId: int): (r: map<ChatKey, V>)
    ensures forall k :: k in r ==> k.0 != chatId
    ensures forall k: ChatKey :: k.0 != chatId ==> (k in r <==> k in m) && (k in m ==> r[k] == m[k])
  {
    map k | k in m && k.0 != chatId :: m[k]
  }

  /** The tables with every row of one chat removed. */
  function WithoutChatTables(t: Tables, chatId: int): (r: Tables)
    ensures chatId !in r.users && chatId !in r.userStates && chatId !in r.sessions
    ensures forall k :: k in r.dayRecords ==> k.0 != chatId
    ensures forall k :: k in r.pending ==> k.0 != chatId
  {
    Tables(WithoutChat(t.users, chatId), WithoutChat(t.userStates, chatId), WithoutChat(t.sessions, chatId),
           WithoutChatKeys(t.dayRecords, chatId), WithoutChatKeys(t.pending, chatId), t.nextId)
  }

  /** Removing one chat keeps every row of every other chat. */
  lemma WithoutChatKeepsOthers(t: Tables, chatId: int, other: int, day: string)
    requires other != chatId
    ensures var r := WithoutChatTables(t, chatId);
      (other in r.users <==> other in t.users) && (other in t.users ==> r.users[other] == t.users[other])
      && ((other, day) in r.pending <==> (other, day) in t.pending)
      && ((other, day) in r.dayRecords <==> (other, day) in t.dayRecords)
  {
  }

  class DB {
    var users: map<int, User>
    var userStates: map<int, string>
    var sessions: map<int, State>
    var dayRecords: map<ChatKey, DayRow>
    var pending: map<ChatKey, PendingMessage>
    /** The id the next pending row receives. */
    var nextPendingId: int
    /** The column defaults of day_records for the columns an upsert leaves
        out; they live in a schema file outside this model. */
    const defaults: DayRow

    /** Each row sits under its own key, and pending ids are distinct and
        below the next one to be handed out. */
    predicate Valid()
      reads this
    {
      (forall c :: c in users ==> users[c].chatId == c)
      && (forall k :: k in pending ==> pending[k].chatId == k.0 && pending[k].dateKey == k.1 && pending[k].id < nextPendingId)
      && (forall k, k' :: k in pending && k' in pending && k != k' ==> pending[k].id != pending[k'].id)
    }

    /** `New`: an empty store. */
    constructor (defaults: DayRow)
      ensures Valid() && this.defaults == defaults
      ensures users == map[] && userStates == map[] && sessions == map[] && dayRecords == map[] && pending == map[]
    {
      this.defaults := defaults;
      users, userStates, sessions, dayRecords, pending := map[], map[], map[], map[], map[];
      nextPendingId := 1;
    }

    function Snapshot(): Tables
      reads this
    {
      Tables(users, userStates, sessions, dayRecords, pending, nextPendingId)
    }

    // ---------- queries ----------

    function GetUser(chatId: int): (u: Option<User>)
      reads this
      ensures u.Some? <==> chatId in users
      ensures u.Some? ==> u.value == users[chatId]
    {
      if chatId in users then Some(users[chatId]) else None
    }

    /** The transient wait state; "" when the chat has none. */
    function GetUserState(chatId: int): (s: string)
      reads this
      ensures chatId in userStates ==> s == userStates[chatId]
      ensures chatId !in userStates ==> s == ""
    {
      if chatId in userStates then userStates[chatId] else ""
    }

    /** The session state; NotStarted when the chat has none. */
    function GetSessionState(chatId: int): (st: State)
      reads this
      ensures chatId in sessions ==> st == sessions[chatId]
      ensures chatId !in sessions ==> st == NotStarted
    {
      if chatId in sessions then sessions[chatId] else NotStarted
    }

    function GetDayRecord(chatId: int, day: string): Option<DayRecord>
      reads this
    {
      DayRecordOf(dayRecords, chatId, day)
    }

    function HasPending(chatId: int, dateKey: string): bool
      reads this
    {
      (chatId, dateKey) in pending
    }

    function HasAnswered(chatId: int, dateKey: string): bool
      reads this
    {
      Answered(dayRecords, chatId, dateKey)
    }

    function HasPendingOrAnswered(chatId: int, dateKey: string): (b: bool)
      reads this
      ensures b <==> HasPending(chatId, dateKey) || HasAnswered(chatId, dateKey)
    {
      HasPending(chatId, dateKey) || HasAnswered(chatId, dateKey)
    }

    // ---------- users ----------

    /** Inserts the user, or updates tz and both times of the existing row and
        keeps its created_at. */
    method UpsertUser(u: User, now: int)
      requires Valid()
      modifies this
      ensures Valid()
      ensures Snapshot() == old(Snapshot()).(users := old(users)[u.chatId :=
        if u.chatId in old(users)
        then old(users)[u.chatId].(tz := u.tz, morningAt := u.morningAt, eveningAt := u.eveningAt)
        else u.(createdAt := now)])
    {
      var row := if u.chatId in users
        then users[u.chatId].(tz := u.tz, morningAt := u.morningAt, eveningAt := u.eveningAt)
        else u.(createdAt := now);
      users := users[u.chatId := row];
    }

    /** Every stored user, each exactly once, in no particular order. */
    method ListUsers() returns (res: seq<User>)
      requires Valid()
      ensures forall i :: 0 <= i < |res| ==> res[i].chatId in users && users[res[i].chatId] == res[i]
      ensures forall c :: c in users ==> users[c] in res
      ensures forall i, j :: 0 <= i < j < |res| ==> res[i].chatId != res[j].chatId
    {
      res := [];
      var left := users.Items;
      while left != {}
        invariant left <= users.Items
        invariant forall i :: 0 <= i < |res| ==> (res[i].chatId, res[i]) in users.Items - left
        invariant forall c :: c in users && (c, users[c]) !in left ==> users[c] in res
        invariant forall i, j :: 0 <= i < j < |res| ==> res[i].chatId != res[j].chatId
        decreases left
      {
        var item :| item in left;
        assert item.0 in users && users[item.0] == item.1;
        assert item.1.chatId == item.0;
        assert item == (item.1.chatId, item.1);
        res := res + [item.1];
        left := left - {item};
      }
    }

    // ---------- user state ----------

    method SetUserState(chatId: int, state: string)
      requires Valid()
      modifies this
      ensures Valid()
      ensures Snapshot() == old(Snapshot()).(userStates := old(userStates)[chatId := state])
      ensures GetUserState(chatId) == state
    {
      userStates := userStates[chatId := state];
    }

    // ---------- day records ----------

    method UpsertDayRecord(chatId: int, day: string, complaints: string)
      requires Valid()
      modifies this
      ensures Valid()
      ensures Snapshot() == old(Snapshot()).(dayRecords := WithComplaints(old(dayRecords), chatId, day, complaints, defaults))
    {
      dayRecords := WithComplaints(dayRecords, chatId, day, complaints, defaults);
    }

    /** Stores the dinner time as whole Unix seconds. */
    method SetDinner(chatId: int, day: string, t: int)
      requires Valid()
      modifies this
      ensures Valid()
      ensures Snapshot() == old(Snapshot()).(dayRecords := WithDinner(old(dayRecords), chatId, day, t, defaults))
    {
      dayRecords := WithDinner(dayRecords, chatId, day, t, defaults);
    }

    // ---------- pending ----------

    /** INSERT OR REPLACE keyed by (chat, date key): the new row, stamped with
        `now` where its times are zero, replaces any row of the same key under
        a fresh id. */
    method InsertPending(p: PendingMessage, now: int)
      requires Valid()
      modifies this
      ensures Valid()
      ensures Snapshot() == old(Snapshot()).(pending := old(pending)[(p.chatId, p.dateKey) := Stamped(p, old(nextPendingId), now)],
                                            nextId := old(nextPendingId) + 1)
      ensures HasPending(p.chatId, p.dateKey)
    {
      pending := pending[(p.chatId, p.dateKey) := Stamped(p, nextPendingId, now)];
      nextPendingId := nextPendingId + 1;
    }

    /** The chat's rows whose last reminder is more than twenty minutes old,
        each exactly once. */
    method ListPendingForReminder(chatId: int, now: int) returns (res: seq<PendingMessage>)
      requires Valid()
      ensures forall p :: p in res <==> p in DueRows(pending, chatId, now)
      ensures forall i, j :: 0 <= i < j < |res| ==> res[i].dateKey != res[j].dateKey
    {
      res := [];
      var left := pending.Keys;
      while left != {}
        invariant left <= pending.Keys
        invariant forall p :: p in res <==>
          exists k :: k in pending.Keys - left && k.0 == chatId && pending[k].remindedAt < now - ReminderDelay && pending[k] == p
        invariant forall i :: 0 <= i < |res| ==> res[i].chatId == chatId && (chatId, res[i].dateKey) in pending.Keys - left
        invariant forall i, j :: 0 <= i < j < |res| ==> res[i].dateKey != res[j].dateKey
        decreases left
      {
        var k :| k in left;
        if k.0 == chatId && pending[k].remindedAt < now - ReminderDelay {
          res := res + [pending[k]];
        }
        left := left - {k};
      }
    }

    method TouchReminder(id: int, now: int)
      requires Valid()
      modifies this
      ensures Valid()
      ensures Snapshot() == old(Snapshot()).(pending := Touched(old(pending), id, now))
    {
      pending := Touched(pending, id, now);
    }

    method DeletePending(chatId: int, dateKey: string)
      requires Valid()
      modifies this
      ensures Valid()
      ensures Snapshot() == old(Snapshot()).(pending := old(pending) - {(chatId, dateKey)})
      ensures !HasPending(chatId, dateKey)
    {
      pending := pending - {(chatId, dateKey)};
    }

    // ---------- sessions ----------

    method SetSessionState(chatId: int, state: State)
      requires Valid()
      modifies this
      ensures Valid()
      ensures Snapshot() == old(Snapshot()).(sessions := old(sessions)[chatId := state])
      ensures GetSessionState(chatId) == state
    {
      sessions := sessions[chatId := state];
    }

    // ---------- whole-chat and whole-store deletion ----------

    /** Deletes the chat's rows from one table. */
    method DeleteChatFrom(t: Table, chatId: int)
      requires Valid()
      modifies this
      ensures Valid()
      ensures users == if t == Users then WithoutChat(old(users), chatId) else old(users)
      ensures userStates == if t == UserStates then WithoutChat(old(userStates), chatId) else old(userStates)
      ensures sessions == if t == Sessions then WithoutChat(old(sessions), chatId) else old(sessions)
      ensures dayRecords == if t == DayRecords then WithoutChatKeys(old(dayRecords), chatId) else old(dayRecords)
      ensures pending == if t == PendingMessages then WithoutChatKeys(old(pending), chatId) else old(pending)
      ensures nextPendingId == old(nextPendingId)
    {
      match t
      case Users => users := WithoutChat(users, chatId);
      case UserStates => userStates := WithoutChat(userStates, chatId);
      case Sessions => sessions := WithoutChat(sessions, chatId);
      case DayRecords => dayRecords := WithoutChatKeys(dayRecords, chatId);
      case PendingMessages => pending := WithoutChatKeys(pending, chatId);
    }

    /** Deletes every row of the chat from all five tables, one table after
        the other inside one transaction; other chats keep their rows. */
    method ClearData(chatId: int)
      requires Valid()
      modifies this
      ensures Valid()
      ensures Snapshot() == WithoutChatTables(old(Snapshot()), chatId)
      ensures GetUser(chatId).None? && GetUserState(chatId) == "" && GetSessionState(chatId) == NotStarted
    {
      var i := 0;
      while i < |ClearOrder|
        invariant 0 <= i <= |ClearOrder|
        invariant Valid()
        invariant dayRecords == if i > 0 then WithoutChatKeys(old(dayRecords), chatId) else old(dayRecords)
        invariant pending == if i > 1 then WithoutChatKeys(old(pending), chatId) else old(pending)
        invariant userStates == if i > 2 then WithoutChat(old(userStates), chatId) else old(userStates)
        invariant sessions == if i > 3 then WithoutChat(old(sessions), chatId) else old(sessions)
        invariant users == if i > 4 then WithoutChat(old(users), chatId) else old(users)
        invariant nextPendingId == old(nextPendingId)
      {
        DeleteChatFrom(ClearOrder[i], chatId);
        i := i + 1;
      }
    }

    /** DropAll: the connection is closed and the database file removed.
        `fileRemoved` says whether the removal succeeded: if it did, the
        next start finds an empty store; if not, the file keeps every row. */
    method DropAll(fileRemoved: bool)
      requires Valid()
      modifies this
      ensures Valid()
      ensures fileRemoved ==> Snapshot() == Tables(map[], map[], map[], map[], map[], old(nextPendingId))
      ensures !fileRemoved ==> Snapshot() == old(Snapshot())
    {
      if fileRemoved {
        users, userStates, sessions, dayRecords, pending := map[], map[], map[], map[], map[];
      }
    }
  }
}
