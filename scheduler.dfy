/** The minute tick of the scheduler: every user whose zone resolves and
    whose local "HH:MM" equals the morning or evening time gets that
    question, once per local date, recorded as pending, with the session
    moved to the matching waiting state. */
module Scheduler {
  import opened Text
  import opened Models
  import opened Calendar
  import opened Zones
  import opened Storage
  import opened Telegram
  import opened Rules
  import opened Worlds

  /** One question going out: sent (its failure ignored), inserted as
      pending under `key` with the sent message's id (0 when the send
      failed) and created now, and the session set to `st`. */
  function Fire(c: int, key: string, p: Period, say: Say, kb: Markup, st: State, now: int, w: World, r: SendResult): World
  {
    var t := w.tables;
    var q := PendingMessage(0, c, key, p, MessageId(r), now, 0);
    World(t.(pending := t.pending[(c, key) := Stamped(q, t.nextId, now)], nextId := t.nextId + 1,
             sessions := t.sessions[c := st]),
          w.outbox + [Message(c, say, kb, 0)])
  }

  /** The morning half of a user's tick, for local date `day` and local
      clock `hm`. */
  function MorningTick(u: User, day: string, hm: string, now: int, w: World, r: SendResult): World
  {
    if hm == u.morningAt && (u.chatId, day + "-morning") !in w.tables.pending then
      Fire(u.chatId, day + "-morning", Morning, MorningCall, MorningKB, WaitingMorning, now, w, r)
    else w
  }

  /** The evening half, `hoursLeft` being `23 - hour` of the local time. */
  function EveningTick(u: User, day: string, hm: string, hoursLeft: int, now: int, w: World, r: SendResult): World
  {
    if hm == u.eveningAt && (u.chatId, day + "-evening") !in w.tables.pending then
      Fire(u.chatId, day + "-evening", Evening, DinnerCall(hoursLeft), EveningKB, WaitingEvening, now, w, r)
    else w
  }

  /** Both halves of a user's tick at local date `day` and clock `hm`. */
  function TickAt(u: User, day: string, hm: string, hoursLeft: int, now: int, w: World, rm: SendResult, re: SendResult): World
  {
    EveningTick(u, day, hm, hoursLeft, now, MorningTick(u, day, hm, now, w, rm), re)
  }

  /** The user's local time: `now` shifted by the zone's offset, None
      for a zone that does not resolve. */
  function LocalTime(zones: ZoneDb, tz: string, now: int): (r: Option<int>)
    ensures r.Some? <==> TzToLocation(zones, tz).Some?
    ensures r.Some? ==> r.value == now + TzToLocation(zones, tz).value
  {
    match TzToLocation(zones, tz)
    case None => None
    case Some(off) => Some(now + off)
  }

  /** A user whose zone is "Local" is ticked on the server's own clock. */
  lemma LocalUserOnServerClock(zones: ZoneDb, serverOffset: int, now: int)
    requires KnowsLocal(zones, serverOffset)
    ensures LocalTime(zones, "Local", now) == Some(now + serverOffset)
  {
  }

  /** One user's part of the tick; `rm` and `re` are the results of the
      morning and evening sends. A zone that does not resolve skips the
      user; otherwise the local date and "HH:MM" decide. */
  function TickUser(zones: ZoneDb, u: User, now: int, w: World, rm: SendResult, re: SendResult): World
  {
    TickIn(LocalTime(zones, u.tz, now), u, now, w, rm, re)
  }

  /** A user's tick once the local time is known (None: unknown zone). */
  function TickIn(local: Option<int>, u: User, now: int, w: World, rm: SendResult, re: SendResult): World
  {
    match local
    case None => w
    case Some(t) => TickAt(u, DateString(t), ClockString(t), HoursLeftToday(t), now, w, rm, re)
  }

  /** The whole tick over the users in the order the query returned them,
      with the results of each user's two sends. */
  function TickAll(zones: ZoneDb, users: seq<User>, now: int, w: World, rs: seq<(SendResult, SendResult)>): World
    requires |rs| == |users|
    decreases |users|
  {
    if users == [] then w
    else
      var n := |users| - 1;
      TickUser(zones, users[n], now, TickAll(zones, users[..n], now, w, rs[..n]), rs[n].0, rs[n].1)
  }

  // ---------- properties ----------

  /** `w'` differs from `w` only in what a tick for chat `c` may change:
      pending rows of `c` added (none removed or rewritten), the session of
      `c`, the id counter, and messages to `c` appended to the outbox. */
  ghost predicate OwnChat(w: World, w': World, c: int)
  {
    var t, t' := w.tables, w'.tables;
    t'.users == t.users && t'.userStates == t.userStates && t'.dayRecords == t.dayRecords
    && (forall k :: k in t.pending ==> k in t'.pending && t'.pending[k] == t.pending[k])
    && (forall k :: k in t'.pending && k !in t.pending ==> k.0 == c)
    && (forall c' :: c' != c ==> SessionOf(t', c') == SessionOf(t, c'))
    && |w.outbox| <= |w'.outbox| && w'.outbox[..|w.outbox|] == w.outbox
    && (forall i :: |w.outbox| <= i < |w'.outbox| ==> w'.outbox[i].Message? && w'.outbox[i].chatId == c)
  }

  lemma {:induction false} OwnChatTrans(w1: World, w2: World, w3: World, c: int)
    requires OwnChat(w1, w2, c) && OwnChat(w2, w3, c)
    ensures OwnChat(w1, w3, c)
  {
    assert w3.outbox[..|w1.outbox|] == w3.outbox[..|w2.outbox|][..|w1.outbox|];
    forall i | |w1.outbox| <= i < |w3.outbox|
      ensures w3.outbox[i].Message? && w3.outbox[i].chatId == c
    {
      if i < |w2.outbox| {
        assert w3.outbox[i] == w2.outbox[i];
      }
    }
  }

  lemma {:induction false} FireOwnChat(c: int, key: string, p: Period, say: Say, kb: Markup, st: State, now: int, w: World, r: SendResult)
    requires (c, key) !in w.tables.pending
    ensures var w' := Fire(c, key, p, say, kb, st, now, w, r);
      OwnChat(w, w', c) && w'.tables.nextId == w.tables.nextId + 1
  {
    var w' := Fire(c, key, p, say, kb, st, now, w, r);
    assert w'.outbox[..|w.outbox|] == w.outbox;
  }

  lemma {:induction false} TickAtOwnChat(u: User, day: string, hm: string, h: int, now: int, w: World, rm: SendResult, re: SendResult)
    ensures var w' := TickAt(u, day, hm, h, now, w, rm, re);
      OwnChat(w, w', u.chatId) && w.tables.nextId <= w'.tables.nextId <= w.tables.nextId + 2
  {
    var c := u.chatId;
    var km, ke := day + "-morning", day + "-evening";
    var w0 := MorningTick(u, day, hm, now, w, rm);
    if w0 != w {
      FireOwnChat(c, km, Morning, MorningCall, MorningKB, WaitingMorning, now, w, rm);
    }
    var w1 := EveningTick(u, day, hm, h, now, w0, re);
    if w1 != w0 {
      FireOwnChat(c, ke, Evening, DinnerCall(h), EveningKB, WaitingEvening, now, w0, re);
    }
    OwnChatTrans(w, w0, w1, c);
  }

  lemma {:induction false} TickInOwnChat(local: Option<int>, u: User, now: int, w: World, rm: SendResult, re: SendResult)
    ensures var w' := TickIn(local, u, now, w, rm, re);
      OwnChat(w, w', u.chatId) && w.tables.nextId <= w'.tables.nextId <= w.tables.nextId + 2
  {
    if local.Some? {
      var t := local.value;
      TickInAt(local, u, now, w, rm, re);
      TickAtOwnChat(u, DateString(t), ClockString(t), HoursLeftToday(t), now, w, rm, re);
    }
  }

  /** A tick changes the pending rows and the session of its own chat
      only, sends nothing to anybody else, never removes or rewrites a
      pending row, leaves users, wait states and day records alone and hands
      out at most two ids. */
  lemma {:induction false} TickUserOwnChat(zones: ZoneDb, u: User, now: int, w: World, rm: SendResult, re: SendResult)
    ensures var w' := TickUser(zones, u, now, w, rm, re);
      OwnChat(w, w', u.chatId) && w.tables.nextId <= w'.tables.nextId <= w.tables.nextId + 2
  {
    TickInOwnChat(LocalTime(zones, u.tz, now), u, now, w, rm, re);
  }

  lemma {:induction false} TickAtIdempotent(u: User, day: string, hm: string, h: int, now: int, w: World,
                                            rm: SendResult, re: SendResult, rm': SendResult, re': SendResult)
    ensures var w1 := TickAt(u, day, hm, h, now, w, rm, re);
      TickAt(u, day, hm, h, now, w1, rm', re') == w1
  {
    var w0 := MorningTick(u, day, hm, now, w, rm);
    var w1 := EveningTick(u, day, hm, h, now, w0, re);
    assert MorningTick(u, day, hm, now, w1, rm') == w1;
    assert EveningTick(u, day, hm, h, now, w1, re') == w1;
  }

  /** Running a user's tick twice in the same second changes nothing the
      second time: each question that matched the clock is pending after
      the first run. */
  lemma {:induction false} TickUserIdempotent(zones: ZoneDb, u: User, now: int, w: World, rm: SendResult, re: SendResult,
                                              rm': SendResult, re': SendResult)
    ensures var w1 := TickUser(zones, u, now, w, rm, re);
      TickUser(zones, u, now, w1, rm', re') == w1
  {
    var local := LocalTime(zones, u.tz, now);
    if local.Some? {
      var t := local.value;
      var d, hm, h := DateString(t), ClockString(t), HoursLeftToday(t);
      TickAtIdempotent(u, d, hm, h, now, w, rm, re, rm', re');
      TickInAt(local, u, now, w, rm, re);
      TickInAt(local, u, now, TickAt(u, d, hm, h, now, w, rm, re), rm', re');
    }
  }

  /** The morning question under `key` is pending after `w1` and stays as
      it was in `w2`, which sends no second morning question. */
  ghost predicate AskedOnce(w1: World, w2: World, key: ChatKey)
  {
    key in w1.tables.pending && key in w2.tables.pending && w2.tables.pending[key] == w1.tables.pending[key]
    && |w1.outbox| <= |w2.outbox|
    && Message(key.0, MorningCall, MorningKB, 0) !in w2.outbox[|w1.outbox|..]
  }

  lemma {:induction false} TickAtMorningOnce(u: User, d: string, hm: string, h: int, now: int,
                                             hm': string, h': int, later: int, w: World,
                                             rm: SendResult, re: SendResult, rm': SendResult, re': SendResult)
    requires hm == u.morningAt
    ensures var key := (u.chatId, d + "-morning");
      var w1 := TickAt(u, d, hm, h, now, w, rm, re);
      var w2 := TickAt(u, d, hm', h', later, w1, rm', re');
      AskedOnce(w1, w2, key)
  {
    var c := u.chatId;
    var w0 := MorningTick(u, d, hm, now, w, rm);
    var w1 := EveningTick(u, d, hm, h, now, w0, re);
    assert (c, d + "-morning") in w0.tables.pending;
    assert (c, d + "-morning") in w1.tables.pending;
    var w0' := MorningTick(u, d, hm', later, w1, rm');
    assert w0' == w1;
    var w2 := EveningTick(u, d, hm', h', later, w0', re');
    var km, ke := d + "-morning", d + "-evening";
    assert km[|d| + 1] == 'm' && ke[|d| + 1] == 'e';
    assert w2.outbox[|w1.outbox|..] == [] || w2.outbox[|w1.outbox|..] == [Message(c, DinnerCall(h'), EveningKB, 0)];
  }

  /** At most one morning question per local date: once the tick at
      local time `t` has asked it, no later tick at a local time `t'` of the
      same local date asks again, and its pending row stays as it was. */
  lemma {:induction false} MorningOncePerDay(zones: ZoneDb, u: User, now: int, later: int, t: int, t': int,
                                             w: World, w1: World, w2: World,
                                             rm: SendResult, re: SendResult, rm': SendResult, re': SendResult)
    requires LocalTime(zones, u.tz, now) == Some(t) && LocalTime(zones, u.tz, later) == Some(t')
    requires w1 == TickUser(zones, u, now, w, rm, re) && w2 == TickUser(zones, u, later, w1, rm', re')
    requires ClockString(t) == u.morningAt && DateString(t') == DateString(t)
    ensures AskedOnce(w1, w2, (u.chatId, DateString(t) + "-morning"))
  {
    var d, hm, h := DateString(t), ClockString(t), HoursLeftToday(t);
    var hm', h' := ClockString(t'), HoursLeftToday(t');
    TickAtMorningOnce(u, d, hm, h, now, hm', h', later, w, rm, re, rm', re');
    TickInAt(Some(t), u, now, w, rm, re);
    TickInAt(Some(t'), u, later, w1, rm', re');
  }

  /** With a known local time, a user's tick is TickAt at the local date and
      clock. */
  lemma TickInAt(local: Option<int>, u: User, now: int, w: World, rm: SendResult, re: SendResult)
    requires local.Some?
    ensures TickIn(local, u, now, w, rm, re)
      == TickAt(u, DateString(local.value), ClockString(local.value), HoursLeftToday(local.value), now, w, rm, re)
  {
  }

  /** The local clock as the tick prints it always has two-digit hours and
      minutes within the day, so a stored time of another shape — one that
      set-up accepts as "9:30" or "25:99", say — never equals it. */
  lemma {:induction false} OnlyClockTimesMatch(s: string, t: int)
    requires ClockString(t) == s
    ensures |s| == 5 && TimeRx(s) && ClockHour(s) < 24 && ClockMinute(s) < 60
  {
    ClockStringShape(t);
    var sod := SecondOfDay(t);
    assert sod % SecondsPerHour < SecondsPerHour;
  }

  /** A user whose two times never match the clock gets nothing from the
      tick, at any moment. */
  lemma {:induction false} UnmatchedTimesNeverFire(zones: ZoneDb, u: User, now: int, w: World, rm: SendResult, re: SendResult)
    requires |u.morningAt| != 5 && |u.eveningAt| != 5
    ensures TickUser(zones, u, now, w, rm, re) == w
  {
    var local := LocalTime(zones, u.tz, now);
    if local.Some? {
      ClockStringShape(local.value);
      TickInAt(local, u, now, w, rm, re);
    }
  }

  /** The tick leaves users, wait states and day records untouched and
      never removes or rewrites a pending row. */
  lemma {:induction false} TickAllKeepsAnswers(zones: ZoneDb, users: seq<User>, now: int, w: World, rs: seq<(SendResult, SendResult)>)
    requires |rs| == |users|
    ensures var t, t' := w.tables, TickAll(zones, users, now, w, rs).tables;
      t'.users == t.users && t'.userStates == t.userStates && t'.dayRecords == t.dayRecords
      && (forall k :: k in t.pending ==> k in t'.pending && t'.pending[k] == t.pending[k])
    decreases |users|
  {
    if users != [] {
      var n := |users| - 1;
      TickAllKeepsAnswers(zones, users[..n], now, w, rs[..n]);
      TickUserOwnChat(zones, users[n], now, TickAll(zones, users[..n], now, w, rs[..n]), rs[n].0, rs[n].1);
    }
  }

  /** A chat that is not among the listed users gets no message, no new
      pending row and keeps its session. */
  lemma {:induction false} TickAllSkipsOthers(zones: ZoneDb, users: seq<User>, now: int, w: World, rs: seq<(SendResult, SendResult)>, c: int)
    requires |rs| == |users|
    requires forall i :: 0 <= i < |users| ==> users[i].chatId != c
    ensures var w' := TickAll(zones, users, now, w, rs);
      SessionOf(w'.tables, c) == SessionOf(w.tables, c)
      && (forall k :: k in w'.tables.pending && k.0 == c ==> k in w.tables.pending)
      && |w.outbox| <= |w'.outbox| && w'.outbox[..|w.outbox|] == w.outbox
      && (forall i :: |w.outbox| <= i < |w'.outbox| ==> w'.outbox[i].Message? && w'.outbox[i].chatId != c)
    decreases |users|
  {
    if users != [] {
      var n := |users| - 1;
      var prev := TickAll(zones, users[..n], now, w, rs[..n]);
      TickAllSkipsOthers(zones, users[..n], now, w, rs[..n], c);
      TickUserOwnChat(zones, users[n], now, prev, rs[n].0, rs[n].1);
      var w' := TickAll(zones, users, now, w, rs);
      assert w'.outbox[..|w.outbox|] == w'.outbox[..|prev.outbox|][..|w.outbox|];
      forall i | |w.outbox| <= i < |w'.outbox|
        ensures w'.outbox[i].Message? && w'.outbox[i].chatId != c
      {
        if i < |prev.outbox| {
          assert w'.outbox[i] == prev.outbox[i];
        }
      }
    }
  }

  // ---------- the tick on the store and the bot ----------

  /** One user's tick on the store and the bot. */
  method TickOne(bot: Bot, db: DB, zones: ZoneDb, u: User, now: int) returns (ghost rm: SendResult, ghost re: SendResult)
    requires db.Valid()
    modifies bot, db
    ensures db.Valid()
    ensures World(db.Snapshot(), bot.outbox) == TickUser(zones, u, now, World(old(db.Snapshot()), old(bot.outbox)), rm, re)
  {
    rm, re := Failed, Failed;
    var local := LocalTime(zones, u.tz, now);
    if local.None? {
      return;
    }
    var t := local.value;
    ghost var w := World(db.Snapshot(), bot.outbox);
    rm, re := TickLocal(bot, db, u, DateString(t), ClockString(t), HoursLeftToday(t), now);
    TickInAt(local, u, now, w, rm, re);
  }

  /** Both questions for the local date `day` and clock `hm`. */
  method TickLocal(bot: Bot, db: DB, u: User, day: string, hm: string, hoursLeft: int, now: int)
    returns (ghost rm: SendResult, ghost re: SendResult)
    requires db.Valid()
    modifies bot, db
    ensures db.Valid()
    ensures World(db.Snapshot(), bot.outbox) == TickAt(u, day, hm, hoursLeft, now, World(old(db.Snapshot()), old(bot.outbox)), rm, re)
  {
    rm, re := Failed, Failed;
    if hm == u.morningAt && !db.HasPending(u.chatId, day + "-morning") {
      rm := AskAndWait(bot, db, u.chatId, day + "-morning", Morning, MorningCall, MorningKB, WaitingMorning, now);
    }
    if hm == u.eveningAt && !db.HasPending(u.chatId, day + "-evening") {
      re := AskAndWait(bot, db, u.chatId, day + "-evening", Evening, DinnerCall(hoursLeft), EveningKB, WaitingEvening, now);
    }
  }

  /** Send a question, ignoring a failed send, record it and set the
      session. */
  method AskAndWait(bot: Bot, db: DB, c: int, key: string, p: Period, say: Say, kb: Markup, st: State, now: int)
    returns (ghost r: SendResult)
    requires db.Valid()
    modifies bot, db
    ensures db.Valid()
    ensures World(db.Snapshot(), bot.outbox) == Fire(c, key, p, say, kb, st, now, World(old(db.Snapshot()), old(bot.outbox)), r)
  {
    var sent := bot.Send(Message(c, say, kb, 0));
    r := sent;
    db.InsertPending(PendingMessage(0, c, key, p, MessageId(sent), now, 0), now);
    db.SetSessionState(c, st);
  }

  /** The task run every minute: every user once, in the order the store
      lists them. `users` and `rs` name the order and the send results the
      run went through. */
  method Tick(bot: Bot, db: DB, zones: ZoneDb, now: int) returns (ghost users: seq<User>, ghost rs: seq<(SendResult, SendResult)>)
    requires db.Valid()
    modifies bot, db
    ensures db.Valid()
    ensures |rs| == |users|
    ensures forall c :: c in old(db.users) <==> exists i :: 0 <= i < |users| && users[i].chatId == c
    ensures forall i, j :: 0 <= i < j < |users| ==> users[i].chatId != users[j].chatId
    ensures forall i :: 0 <= i < |users| ==> users[i].chatId in old(db.users) && users[i] == old(db.users)[users[i].chatId]
    ensures World(db.Snapshot(), bot.outbox) == TickAll(zones, users, now, World(old(db.Snapshot()), old(bot.outbox)), rs)
  {
    var list := db.ListUsers();
    users := list;
    rs := TickUsers(bot, db, zones, list, now);
    forall c | c in old(db.users)
      ensures exists i :: 0 <= i < |users| && users[i].chatId == c
    {
      var k :| 0 <= k < |list| && list[k] == old(db.users)[c];
    }
  }

  /** The users' ticks one after the other, in the order given. */
  method TickUsers(bot: Bot, db: DB, zones: ZoneDb, list: seq<User>, now: int) returns (ghost rs: seq<(SendResult, SendResult)>)
    requires db.Valid()
    modifies bot, db
    ensures db.Valid() && db.users == old(db.users)
    ensures |rs| == |list|
    ensures World(db.Snapshot(), bot.outbox) == TickAll(zones, list, now, World(old(db.Snapshot()), old(bot.outbox)), rs)
  {
    rs := [];
    ghost var w0 := World(db.Snapshot(), bot.outbox);
    var i := 0;
    while i < |list|
      invariant 0 <= i <= |list| && |rs| == i
      invariant db.Valid() && db.users == old(db.users)
      invariant World(db.Snapshot(), bot.outbox) == TickAll(zones, list[..i], now, w0, rs)
    {
      ghost var before := TickAll(zones, list[..i], now, w0, rs);
      ghost var rm, re := TickOne(bot, db, zones, list[i], now);
      TickKeepsUsers(zones, list[i], now, before, rm, re);
      TickAllSnoc(zones, list[..i], list[i], now, w0, rs, (rm, re));
      assert list[..i + 1] == list[..i] + [list[i]];
      rs := rs + [(rm, re)];
      i := i + 1;
    }
    assert list[..i] == list;
  }

  /** The tick over one more user is that user's tick after the others'. */
  lemma TickAllSnoc(zones: ZoneDb, users: seq<User>, u: User, now: int, w: World,
                    rs: seq<(SendResult, SendResult)>, r: (SendResult, SendResult))
    requires |rs| == |users|
    ensures TickAll(zones, users + [u], now, w, rs + [r]) == TickUser(zones, u, now, TickAll(zones, users, now, w, rs), r.0, r.1)
  {
    assert (users + [u])[..|users|] == users;
    assert (rs + [r])[..|rs|] == rs;
  }

  /** A user's tick keeps the users table; the loop relies on it. */
  lemma TickKeepsUsers(zones: ZoneDb, u: User, now: int, w: World, rm: SendResult, re: SendResult)
    ensures TickUser(zones, u, now, w, rm, re).tables.users == w.tables.users
  {
    TickUserOwnChat(zones, u, now, w, rm, re);
  }
}
