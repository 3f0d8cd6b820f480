/** The older generation of handlers (internal/handlers/handlers.go and
    texts.go): /start with the main menu, the morning and evening questions,
    the callbacks of their buttons and the "wait_complaints:" /
    "wait_dinner_time:" text dialogue. They share the store, the bot and the
    world of the newer handlers. */
module Legacy {
  import opened Text
  import opened Models
  import opened Calendar
  import opened Zones
  import opened Storage
  import opened Telegram
  import opened Rules
  import opened Worlds
  import opened Messages

  /** The three-row reply keyboard of the main menu. */
  const MainMenuKB := Keyboard([[MenuStats, MenuMorning], [MenuEvening, MenuTz], [MenuClear]])

  /** The buttons that replace the morning question's once the day already
      has complaints: "change" (payload "chg:" and the button pressed) and
      "cancel". */
  function ChangeKB(data: string): Markup
  {
    Inline([[Button(BtnChange, "chg:" + data), Button(BtnCancel, BtnCancel)]])
  }

  /** The older `extractDateKey`: the UTC date of the message the button is
      under, then "-morning" for payloads starting with "Жалоб" or "chg:" and
      "-evening" for every other one. */
  function PrefixDateKey(sentAt: int, data: string): (k: string)
    ensures |k| == |DateString(sentAt)| + 8 && |k| >= 10 && k[..|DateString(sentAt)|] == DateString(sentAt)
  {
    DateString(sentAt) + (if HasPrefix(data, "Жалоб") || HasPrefix(data, "chg:") then "-morning" else "-evening")
  }

  /** The key is the morning one exactly for "Жалоб…" and "chg:…" payloads;
      "Нет жалоб" does not start with "Жалоб" and so gets the evening key. */
  lemma PrefixDateKeyPeriod(sentAt: int, data: string)
    ensures PrefixDateKey(sentAt, data) == DateString(sentAt) + "-morning"
      <==> HasPrefix(data, "Жалоб") || HasPrefix(data, "chg:")
    ensures PrefixDateKey(sentAt, BtnComplaints) == DateString(sentAt) + "-morning"
    ensures PrefixDateKey(sentAt, BtnNoComplaints) == DateString(sentAt) + "-evening"
  {
    var d := DateString(sentAt);
    if !(HasPrefix(data, "Жалоб") || HasPrefix(data, "chg:")) {
      assert (d + "-evening")[|d| + 1] == 'e' && (d + "-morning")[|d| + 1] == 'm';
    }
    assert HasPrefix(BtnComplaints, "Жалоб");
    assert BtnNoComplaints[0] == 'Н' && !HasPrefix(BtnNoComplaints, "Жалоб");
    assert !HasPrefix(BtnNoComplaints, "chg:");
  }

  // ---------- effects ----------

  /** `HandleStart`: a chat without a user gets the defaults; then the main
      menu. */
  function StartEffect(c: int, now: int, w: World): Step
  {
    Step(World(EnsureUser(w.tables, c, now), w.outbox + [Message(c, MainMenu, MainMenuKB, 0)]), Done)
  }

  /** `SendMorning`. */
  function MorningEffect(u: User, dateKey: string, now: int, w: World, r: SendResult): Step
  {
    AskEffect(u.chatId, dateKey, Morning, MorningCall, MorningKB, now, w, r)
  }

  /** "Нет жалоб": empty complaints for the date of the key, and the
      question of that key closed. */
  function NoComplaintsEffect(env: Env, q: Query, key: string, w: World): Step
    requires |key| >= 10
  {
    var c, t := q.message.chatId, w.tables;
    var t' := t.(dayRecords := WithComplaints(t.dayRecords, c, key[..10], "", env.defaults),
                 pending := t.pending - {(c, key)});
    Step(World(t', w.outbox + [Plain(c, HaveANiceDay), CallbackAnswer(q.id, "")]), Done)
  }

  /** The morning buttons: a day that already has complaints only gets its
      keyboard swapped for "change / cancel" and the query is left
      unanswered; otherwise "Жалобы" waits for the complaints and "Нет жалоб"
      stores empty complaints and closes the question of its key. */
  function MorningButtonEffect(env: Env, q: Query, key: string, w: World): Step
    requires |key| >= 10
  {
    var c, t := q.message.chatId, w.tables;
    var rec := DayRecordOf(t.dayRecords, c, key[..10]);
    if rec.Some? && rec.value.complaints != "" then
      Step(Emit(w, [EditMarkup(c, q.message.messageId, ChangeKB(q.data))]), Done)
    else if q.data == BtnComplaints then
      Step(World(WithWait(t, c, "wait_complaints:" + key), w.outbox + [Plain(c, DescribeComplaints), CallbackAnswer(q.id, "")]), Done)
    else NoComplaintsEffect(env, q, key, w)
  }

  /** "Поел": dinner now under the date of the key, and the key's question
      closed. */
  function AteNowEffect(env: Env, q: Query, key: string, now: int, w: World): Step
    requires |key| >= 10
  {
    var c, t := q.message.chatId, w.tables;
    var t' := t.(dayRecords := WithDinner(t.dayRecords, c, key[..10], now, env.defaults),
                 pending := t.pending - {(c, key)});
    Step(World(t', w.outbox + [Plain(c, EnjoyEvening), CallbackAnswer(q.id, "")]), Done)
  }

  /** The older `HandleCallback`: every branch but the keyboard swap ends by
      answering the query. */
  function CallbackEffect(env: Env, q: Query, now: int, w: World): Step
  {
    var c, data := q.message.chatId, q.data;
    var key := PrefixDateKey(q.message.sentAt, data);
    var ack := CallbackAnswer(q.id, "");
    if data == BtnComplaints || data == BtnNoComplaints then MorningButtonEffect(env, q, key, w)
    else if data == BtnAteNow then AteNowEffect(env, q, key, now, w)
    else if data == BtnAteAt then
      Step(World(WithWait(w.tables, c, "wait_dinner_time:" + key), w.outbox + [Plain(c, AskDinnerTimeShort), ack]), Done)
    else if data == BtnCancel then Step(Emit(w, [CallbackAnswer(q.id, "Отменено"), ack]), Done)
    else Step(Emit(w, [ack]), Done)
  }

  /** Complaints typed in the "wait_complaints:" state `s`: stored for the
      date of the key, which closes the key's question. */
  function ComplaintsTextEffect(env: Env, c: int, s: string, text: string, w: World): Step
  {
    var t := w.tables;
    var key := TrimPrefix(s, "wait_complaints:");
    if |key| < 10 then Step(w, Panic)
    else
      var t' := t.(dayRecords := WithComplaints(t.dayRecords, c, key[..10], text, env.defaults),
                   pending := t.pending - {(c, key)});
      Step(World(WithWait(t', c, ""), w.outbox + [Plain(c, ComplaintsSaved)]), Done)
  }

  /** A dinner time typed in the "wait_dinner_time:" state `s`: a text that
      is not HH:MM gets the format hint and keeps the state; otherwise the
      time is stored on the server's current day in UTC for the date of the
      key, which closes the key's question. */
  function DinnerTimeEffect(env: Env, c: int, s: string, text: string, now: int, w: World): Step
  {
    var t := w.tables;
    if !TimeRx(text) then Step(Emit(w, [Plain(c, TimeFormatHint)]), Done)
    else
      var key := TrimPrefix(s, "wait_dinner_time:");
      if |key| < 10 then Step(w, Panic)
      else
        var dinner := TypedDinner(now + env.serverOffset, text);
        var t' := t.(dayRecords := WithDinner(t.dayRecords, c, key[..10], dinner, env.defaults),
                     pending := t.pending - {(c, key)});
        Step(World(WithWait(t', c, ""), w.outbox + [Plain(c, SavedThanks)]), Done)
  }

  /** The dinner branch when the time and the key are well-formed. */
  lemma DinnerTimeStored(env: Env, c: int, s: string, text: string, now: int, w: World)
    requires TimeRx(text) && |TrimPrefix(s, "wait_dinner_time:")| >= 10
    ensures var key := TrimPrefix(s, "wait_dinner_time:");
      var t := w.tables;
      DinnerTimeEffect(env, c, s, text, now, w)
        == Step(World(WithWait(t.(dayRecords := WithDinner(t.dayRecords, c, key[..10], TypedDinner(now + env.serverOffset, text), env.defaults),
                                  pending := t.pending - {(c, key)}), c, ""),
                      w.outbox + [Plain(c, SavedThanks)]), Done)
  {
  }

  /** The older `HandleText` (handlers.go and texts.go hold the same body):
      every path that gets past the first checks clears the wait state; only
      a badly formed dinner time keeps it. A key shorter than a date panics
      at `dateKey[:10]`. */
  function TextEffect(env: Env, m: Incoming, now: int, w: World): Step
  {
    var c := m.chatId;
    var s := WaitOf(w.tables, c);
    if s == "" then Step(w, Done)
    else if HasPrefix(s, "wait_complaints:") then ComplaintsTextEffect(env, c, s, m.text, w)
    else if HasPrefix(s, "wait_dinner_time:") then DinnerTimeEffect(env, c, s, m.text, now, w)
    else Step(World(WithWait(w.tables, c, ""), w.outbox), Done)
  }

  // ---------- the handler ----------

  class Handler {
    const db: DB
    const bot: Bot
    const zones: ZoneDb
    /** The server's own zone in seconds east of UTC. */
    const serverOffset: int

    constructor (db: DB, bot: Bot, zones: ZoneDb, serverOffset: int)
      requires KnowsLocal(zones, serverOffset)
      ensures this.db == db && this.bot == bot && this.zones == zones && this.serverOffset == serverOffset
    {
      this.db := db;
      this.bot := bot;
      this.zones := zones;
      this.serverOffset := serverOffset;
    }

    function Environment(): Env
    {
      Env(zones, serverOffset, db.defaults)
    }

    function Observe(): World
      reads db, bot
    {
      World(db.Snapshot(), bot.outbox)
    }

    method SendPlain(c: int, say: Say)
      modifies bot
      ensures bot.outbox == old(bot.outbox) + [Plain(c, say)]
    {
      var r := bot.Send(Plain(c, say));
    }

    method HandleStart(c: int, now: int)
      requires db.Valid()
      modifies db, bot
      ensures db.Valid()
      ensures Step(Observe(), Done) == StartEffect(c, now, old(Observe()))
    {
      var u := db.GetUser(c);
      if u.None? {
        db.UpsertUser(User(c, DefaultTz, DefaultMorning, DefaultEvening, 0), now);
      }
      var r := bot.Send(Message(c, MainMenu, MainMenuKB, 0));
    }

    /** `SendMorning`; a failed send is fatal. */
    method SendMorning(u: User, dateKey: string, now: int) returns (o: Outcome, ghost r: SendResult)
      requires db.Valid()
      modifies db, bot
      ensures db.Valid()
      ensures r.Sent? ==> r.messageId > 0
      ensures Step(Observe(), o) == MorningEffect(u, dateKey, now, old(Observe()), r)
    {
      o, r := Ask(bot, db, u.chatId, dateKey, Morning, MorningCall, MorningKB, now);
    }

    /** `SendEvening` of the older handlers: the same steps as the one of
        internal/messages. */
    method SendEvening(u: User, dateKey: string, now: int) returns (o: Outcome, ghost r: SendResult)
      requires db.Valid()
      modifies db, bot
      ensures db.Valid()
      ensures r.Sent? ==> r.messageId > 0
      ensures Step(Observe(), o) == EveningEffect(zones, u, dateKey, now, old(Observe()), r)
    {
      o, r := Messages.SendEvening(bot, db, zones, u, dateKey, now);
    }

    method HandleCallback(q: Query, now: int)
      requires db.Valid()
      modifies db, bot
      ensures db.Valid()
      ensures Step(Observe(), Done) == CallbackEffect(Environment(), q, now, old(Observe()))
    {
      var data := q.data;
      var c := q.message.chatId;
      var dateKey := PrefixDateKey(q.message.sentAt, data);
      if data == BtnComplaints || data == BtnNoComplaints {
        MorningButton(q, dateKey);
        return;
      } else if data == BtnAteNow {
        AteNow(q, dateKey, now);
        return;
      } else if data == BtnAteAt {
        db.SetUserState(c, "wait_dinner_time:" + dateKey);
        SendPlain(c, AskDinnerTimeShort);
      } else if data == BtnCancel {
        bot.Request(CallbackAnswer(q.id, "Отменено"));
      }
      bot.Request(CallbackAnswer(q.id, ""));
    }

    /** The "Поел" branch with the closing answer to the query. */
    method AteNow(q: Query, dateKey: string, now: int)
      requires db.Valid() && |dateKey| >= 10
      modifies db, bot
      ensures db.Valid()
      ensures Step(Observe(), Done) == AteNowEffect(Environment(), q, dateKey, now, old(Observe()))
    {
      var c := q.message.chatId;
      db.SetDinner(c, dateKey[..10], now);
      db.DeletePending(c, dateKey);
      SendPlain(c, EnjoyEvening);
      bot.Request(CallbackAnswer(q.id, ""));
    }

    /** The "Жалобы" / "Нет жалоб" branch, including its own closing answer
        to the query when it gets that far. */
    method MorningButton(q: Query, dateKey: string)
      requires db.Valid() && |dateKey| >= 10
      modifies db, bot
      ensures db.Valid()
      ensures Step(Observe(), Done) == MorningButtonEffect(Environment(), q, dateKey, old(Observe()))
    {
      var c := q.message.chatId;
      var rec := db.GetDayRecord(c, dateKey[..10]);
      if rec.Some? && rec.value.complaints != "" {
        bot.Request(EditMarkup(c, q.message.messageId, ChangeKB(q.data)));
      } else if q.data == BtnComplaints {
        db.SetUserState(c, "wait_complaints:" + dateKey);
        SendPlain(c, DescribeComplaints);
        bot.Request(CallbackAnswer(q.id, ""));
      } else {
        NoComplaints(q, dateKey);
      }
    }

    method NoComplaints(q: Query, dateKey: string)
      requires db.Valid() && |dateKey| >= 10
      modifies db, bot
      ensures db.Valid()
      ensures Step(Observe(), Done) == NoComplaintsEffect(Environment(), q, dateKey, old(Observe()))
    {
      var c := q.message.chatId;
      db.UpsertDayRecord(c, dateKey[..10], "");
      db.DeletePending(c, dateKey);
      SendPlain(c, HaveANiceDay);
      bot.Request(CallbackAnswer(q.id, ""));
    }

    method HandleText(m: Incoming, now: int) returns (o: Outcome)
      requires db.Valid()
      modifies db, bot
      ensures db.Valid()
      ensures Step(Observe(), o) == TextEffect(Environment(), m, now, old(Observe()))
    {
      var c := m.chatId;
      var state := db.GetUserState(c);
      if state == "" {
        o := Done;
      } else if HasPrefix(state, "wait_complaints:") {
        o := ComplaintsText(c, state, m.text);
      } else if HasPrefix(state, "wait_dinner_time:") {
        o := DinnerTimeText(c, state, m.text, now);
      } else {
        db.SetUserState(c, "");
        o := Done;
      }
    }

    method ComplaintsText(c: int, state: string, text: string) returns (o: Outcome)
      requires db.Valid()
      modifies db, bot
      ensures db.Valid()
      ensures Step(Observe(), o) == ComplaintsTextEffect(Environment(), c, state, text, old(Observe()))
    {
      var dateKey := TrimPrefix(state, "wait_complaints:");
      if |dateKey| < 10 {
        return Panic;
      }
      db.UpsertDayRecord(c, dateKey[..10], text);
      db.DeletePending(c, dateKey);
      SendPlain(c, ComplaintsSaved);
      db.SetUserState(c, "");
      o := Done;
    }

    method DinnerTimeText(c: int, state: string, text: string, now: int) returns (o: Outcome)
      requires db.Valid()
      modifies db, bot
      ensures db.Valid()
      ensures Step(Observe(), o) == DinnerTimeEffect(Environment(), c, state, text, now, old(Observe()))
    {
      if !TimeRx(text) {
        SendPlain(c, TimeFormatHint);
        return Done;
      }
      var dinner := TypedDinner(now + serverOffset, text);
      var dateKey := TrimPrefix(state, "wait_dinner_time:");
      if |dateKey| < 10 {
        return Panic;
      }
      ghost var w := Observe();
      StoreDinner(c, dateKey, dinner);
      o := Done;
      DinnerTimeStored(Environment(), c, state, text, now, w);
    }

    /** The dinner time `dinner` stored under the date of `key`, the question
        closed, the chat thanked and the wait state cleared. */
    method StoreDinner(c: int, key: string, dinner: int)
      requires db.Valid() && |key| >= 10
      modifies db, bot
      ensures db.Valid()
      ensures var t := old(db.Snapshot());
        Observe() == World(WithWait(t.(dayRecords := WithDinner(t.dayRecords, c, key[..10], dinner, db.defaults),
                                       pending := t.pending - {(c, key)}), c, ""),
                           old(bot.outbox) + [Plain(c, SavedThanks)])
    {
      db.SetDinner(c, key[..10], dinner);
      db.DeletePending(c, key);
      SendPlain(c, SavedThanks);
      db.SetUserState(c, "");
    }
  }
}
