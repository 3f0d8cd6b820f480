/** The newer update handlers of internal/handlers (handler.go, callbacks.go,
    messages.go, commands.go). Each handler is specified by an effect
    function from the store's tables and the bot's outbox before the update to
    the tables, the outbox and the outcome after it; the Handler class carries
    the same steps out on the DB and Bot objects and is proved to end in that
    effect. `time.Now()` is the `now` parameter (Unix seconds) and the
    server's own zone is `serverOffset`. */
module Handlers {
  import opened Text
  import opened Models
  import opened Calendar
  import opened Zones
  import opened Storage
  import opened Telegram
  import opened Rules
  import opened Worlds

  function DayKeyboard(c: int, st: State): Outgoing
  {
    Message(c, Blank, BuildDayKeyboard(st), 0)
  }

  // ---------- callbacks.go ----------

  /** `handleYes`: the complaints are the text the confirmation replies to;
      they are stored under the first ten characters of the key taken from
      the "confirm_complaints:" state, the question is closed, the session
      goes Idle and the wait state is cleared. No reply, or a key shorter
      than ten characters, panics before anything changes. */
  function YesEffect(env: Env, c: int, msg: Incoming, w: World): Step
  {
    var t := w.tables;
    var key := TrimPrefix(WaitOf(t, c), "confirm_complaints:");
    if msg.replyTo.None? || |key| < 10 then Step(w, Panic)
    else
      var t' := t.(dayRecords := WithComplaints(t.dayRecords, c, key[..10], msg.replyTo.value, env.defaults),
                   pending := t.pending - {(c, key)},
                   sessions := t.sessions[c := Idle],
                   userStates := t.userStates[c := ""]);
      Step(World(t', w.outbox + [DayKeyboard(c, Idle), Plain(c, Thanks)]), Done)
  }

  /** `handleCancel`: back to waiting for the complaints of the same key. */
  function CancelEffect(c: int, w: World): Step
  {
    var key := TrimPrefix(WaitOf(w.tables, c), "confirm_complaints:");
    Step(World(WithWait(w.tables, c, "wait_complaints:" + key), w.outbox + [Plain(c, ReenterComplaints)]), Done)
  }

  /** `handleChangeSettings`: the set-up dialogue starts at the morning time. */
  function ChangeSettingsEffect(c: int, w: World): Step
  {
    Step(World(WithWait(w.tables, c, "setup_morning"), w.outbox + [Plain(c, AskMorningTime)]), Done)
  }

  /** `handleAteNow`: dinner now, under the date of the key; the question is
      closed and the session goes Idle. */
  function AteNowEffect(env: Env, c: int, key: string, now: int, w: World): Step
  {
    var t := w.tables;
    if |key| < 10 then Step(w, Panic)
    else
      var t' := t.(dayRecords := WithDinner(t.dayRecords, c, key[..10], now, env.defaults),
                   pending := t.pending - {(c, key)},
                   sessions := t.sessions[c := Idle]);
      Step(World(t', w.outbox + [DayKeyboard(c, Idle), Plain(c, EnjoyEvening)]), Done)
  }

  lemma AteNowEffectDone(env: Env, c: int, key: string, now: int, w: World)
    requires |key| >= 10
    ensures var t := w.tables;
      AteNowEffect(env, c, key, now, w)
        == Step(World(t.(dayRecords := WithDinner(t.dayRecords, c, key[..10], now, env.defaults),
                         pending := t.pending - {(c, key)},
                         sessions := t.sessions[c := Idle]),
                      w.outbox + [DayKeyboard(c, Idle), Plain(c, EnjoyEvening)]), Done)
  {
  }

  /** `handleAteAt`: wait for a typed dinner time for this key. */
  function AteAtEffect(c: int, key: string, w: World): Step
  {
    Step(World(WithWait(w.tables, c, "wait_dinner:" + key), w.outbox + [Plain(c, AskDinnerTime)]), Done)
  }

  /** The pending row for the question asked right after the settings are
      confirmed, keyed by the UTC date. */
  function SetupQuestion(c: int, now: int, p: Period, msgId: int): PendingMessage
  {
    PendingMessage(0, c, DateString(now) + "-" + p.Name(), p, msgId, 0, 0)
  }

  /** The question asked right after the settings are confirmed inside a
      window, recorded as pending under the UTC date with the id `mid` of the
      message that asked it. */
  function AskTables(t: Tables, c: int, now: int, st: State, mid: int): Tables
  {
    if st == WaitingMorning || st == WaitingEvening then
      var q := SetupQuestion(c, now, if st == WaitingMorning then Morning else Evening, mid);
      t.(pending := t.pending[(c, q.dateKey) := Stamped(q, t.nextId, now)], nextId := t.nextId + 1)
    else t
  }

  /** That question, with the hours left of the server's day for dinner. */
  function AskMessages(c: int, st: State, serverNow: int): seq<Outgoing>
  {
    if st == WaitingMorning then [Plain(c, MorningCallAfterSetup)]
    else if st == WaitingEvening then [Message(c, DinnerCallAfterSetup(HoursLeftToday(serverNow)), EveningKB, 0)]
    else []
  }

  /** `handleConfirmSettings` given the id `mid` of the question it sends: the
      session takes the state of the current window; inside a window the
      question of that window is asked at once and recorded as pending. A
      zone that does not resolve panics first; a missing user panics only in
      the closing debug report, after everything else. */
  function ConfirmEffect(env: Env, c: int, now: int, w: World, mid: int): Step
  {
    match CalcCurrentState(env.zones, UserOf(w.tables, c), now)
    case None => Step(w, Panic)
    case Some(st) => ConfirmWith(env, c, now, w, st, mid)
  }

  /** handleConfirmSettings once the state `st` has been computed. */
  function ConfirmWith(env: Env, c: int, now: int, w: World, st: State, mid: int): Step
  {
    var t := AskTables(w.tables.(sessions := w.tables.sessions[c := st]), c, now, st, mid);
    var out := w.outbox + [DayKeyboard(c, st), Plain(c, SettingsSaved)] + AskMessages(c, st, now + env.serverOffset);
    if c !in w.tables.users then Step(World(t, out), Panic)
    else Step(World(t, out + [Plain(c, Debug(st))]), Done)
  }

  /** handleConfirmSettings' two ends, given the tables `t` and the outbox
      `out` before the closing debug report. */
  lemma ConfirmWithAt(env: Env, c: int, now: int, w: World, st: State, mid: int, t: Tables, out: seq<Outgoing>)
    requires t == AskTables(w.tables.(sessions := w.tables.sessions[c := st]), c, now, st, mid)
    requires out == w.outbox + [DayKeyboard(c, st), Plain(c, SettingsSaved)] + AskMessages(c, st, now + env.serverOffset)
    ensures c in w.tables.users ==> ConfirmWith(env, c, now, w, st, mid) == Step(World(t, out + [Plain(c, Debug(st))]), Done)
    ensures c !in w.tables.users ==> ConfirmWith(env, c, now, w, st, mid) == Step(World(t, out), Panic)
  {
  }

  /** `HandleCallback`: the query is answered first, then the payload picks
      the branch; the date key comes from the message the button is under. */
  function CallbackEffect(env: Env, q: Query, now: int, w: World, mid: int): Step
  {
    var c := q.message.chatId;
    var key := ExtractDateKey(q.message.sentAt, q.data);
    var acked := Emit(w, [CallbackAnswer(q.id, "")]);
    match Dispatch(q.data)
    case ConfirmSettings => ConfirmEffect(env, c, now, acked, mid)
    case ChangeSettings => ChangeSettingsEffect(c, acked)
    case AteNow => AteNowEffect(env, c, key, now, acked)
    case AteAt => AteAtEffect(c, key, acked)
    case Yes => YesEffect(env, c, q.message, acked)
    case Cancel => CancelEffect(c, acked)
    case Ignore => Step(acked, Done)
  }

  // ---------- messages.go ----------

  /** The morning or evening time typed during set-up (`s` is the wait
      state): a text that is not a clock time is refused, otherwise it is
      stored and the next question asked. */
  function SetupTimeEffect(c: int, s: string, text: string, w: World): Step
  {
    var t := w.tables;
    if !TimeRx(text) then Step(Emit(w, [Plain(c, BadTimeFormat)]), Done)
    else if c !in t.users then Step(w, Panic)
    else if s == "setup_morning" then
      var t' := WithWait(t.(users := t.users[c := t.users[c].(morningAt := text)]), c, "setup_evening");
      Step(World(t', w.outbox + [Plain(c, AskEveningTime)]), Done)
    else
      var t' := WithWait(t.(users := t.users[c := t.users[c].(eveningAt := text)]), c, "setup_timezone");
      Step(World(t', w.outbox + [Plain(c, AskTimezone)]), Done)
  }

  /** The time zone typed during set-up: an unknown zone is fatal; a known
      one is stored, the wait state cleared and the settings confirmed. */
  function SetupZoneEffect(env: Env, c: int, text: string, now: int, w: World, mid: int): Step
  {
    var t := w.tables;
    match ValidateTZ(env.zones, text)
    case None => Step(w, Fatal)
    case Some(tz) =>
      if c !in t.users then Step(w, Panic)
      else
        var t' := WithWait(t.(users := t.users[c := t.users[c].(tz := tz)]), c, "");
        ConfirmEffect(env, c, now, World(t', w.outbox), mid)
  }

  /** Complaints typed in the "wait_complaints:" state `s`: they are asked to
      be confirmed in a reply to the message that carries them. */
  function ComplaintsTextEffect(c: int, s: string, messageId: int, w: World): Step
  {
    var t' := WithWait(w.tables, c, "confirm_complaints:" + TrimPrefix(s, "wait_complaints:"));
    Step(World(t', w.outbox + [Message(c, ConfirmComplaints, ConfirmKB, messageId)]), Done)
  }

  /** A dinner time typed in the "wait_dinner:" state `s`: stored as a time
      of the server's day under the date of the key, which closes the
      question. */
  function DinnerTextEffect(env: Env, c: int, s: string, text: string, now: int, w: World): Step
  {
    var t := w.tables;
    var key := TrimPrefix(s, "wait_dinner:");
    if !TimeRx(text) then Step(Emit(w, [Plain(c, BadTimeFormat)]), Done)
    else if |key| < 10 then Step(w, Panic)
    else
      var dinner := TypedDinner(now + env.serverOffset, text);
      var t' := WithWait(t.(dayRecords := WithDinner(t.dayRecords, c, key[..10], dinner, env.defaults),
                            pending := t.pending - {(c, key)}), c, "");
      Step(World(t', w.outbox + [Plain(c, DinnerSaved)]), Done)
  }

  /** The dinner branch when the time and the key are well-formed. */
  lemma DinnerTextSaved(env: Env, c: int, s: string, text: string, now: int, w: World)
    requires TimeRx(text) && |TrimPrefix(s, "wait_dinner:")| >= 10
    ensures var key := TrimPrefix(s, "wait_dinner:");
      var t := w.tables;
      DinnerTextEffect(env, c, s, text, now, w)
        == Step(World(WithWait(t.(dayRecords := WithDinner(t.dayRecords, c, key[..10], TypedDinner(now + env.serverOffset, text), env.defaults),
                                  pending := t.pending - {(c, key)}), c, ""),
                      w.outbox + [Plain(c, DinnerSaved)]), Done)
  {
  }

  /** `HandleText` given the id `mid` of a question sent when the time zone
      step confirms the settings: the chat's wait state decides what the
      text is. */
  function TextEffect(env: Env, m: Incoming, now: int, w: World, mid: int): Step
  {
    var c := m.chatId;
    var s := WaitOf(w.tables, c);
    if s == "" then Step(w, Done)
    else if s == "setup_morning" || s == "setup_evening" then SetupTimeEffect(c, s, m.text, w)
    else if s == "setup_timezone" then SetupZoneEffect(env, c, m.text, now, w, mid)
    else if HasPrefix(s, "wait_complaints:") then ComplaintsTextEffect(c, s, m.messageId, w)
    else if HasPrefix(s, "wait_dinner:") then DinnerTextEffect(env, c, s, m.text, now, w)
    else Step(w, Done)
  }

  // ---------- commands.go ----------

  /** The session has passed the set-up dialogue. */
  predicate Running(st: State)
  {
    st != NotStarted && st != Initial
  }

  /** The settings text: both times and the zone as "GMT±H". */
  function SettingsSay(env: Env, u: User): Say
  {
    Settings(u.morningAt, u.eveningAt, GmtString(env.zones, u.tz))
  }

  /** `handleStart`: a running session is only reported; otherwise the
      session becomes Initial and the settings are shown for confirmation. */
  function StartEffect(env: Env, c: int, now: int, w: World): Step
  {
    var t := EnsureUser(w.tables, c, now);
    var st := SessionOf(t, c);
    if Running(st) then Step(World(t, w.outbox + [Plain(c, AlreadyRunning(st))]), Done)
    else
      var t' := t.(sessions := t.sessions[c := Initial]);
      Step(World(t', w.outbox + [Message(c, SettingsSay(env, t'.users[c]), DefaultsKB, 0)]), Done)
  }

  /** `handleCurrentState`: the state of the current window, after making
      sure the user exists; a zone that does not resolve panics. */
  function CurrentStateEffect(env: Env, c: int, now: int, w: World): Step
  {
    var t := EnsureUser(w.tables, c, now);
    match CalcCurrentState(env.zones, UserOf(t, c), now)
    case None => Step(World(t, w.outbox), Panic)
    case Some(st) => Step(World(t, w.outbox + [Plain(c, CurrentState(st))]), Done)
  }

  /** `handleSettings`: the settings with "change" and "cancel" buttons; a
      chat without a user panics. */
  function SettingsEffect(env: Env, c: int, w: World): Step
  {
    if c !in w.tables.users then Step(w, Panic)
    else Step(Emit(w, [Message(c, SettingsSay(env, w.tables.users[c]), SettingsKB, 0)]), Done)
  }

  /** The main-menu branch of HandleCommand, keyed by the message text. */
  function MenuEffect(c: int, text: string, w: World): Step
  {
    if text == MenuStats then Step(Emit(w, [Plain(c, StatsNotReady)]), Done)
    else if text == MenuMorning then Step(World(WithWait(w.tables, c, "setup_morning"), w.outbox + [Plain(c, AskMorningTime)]), Done)
    else if text == MenuEvening then Step(World(WithWait(w.tables, c, "setup_evening"), w.outbox + [Plain(c, AskEveningTime)]), Done)
    else if text == MenuTz then Step(World(WithWait(w.tables, c, "setup_timezone"), w.outbox + [Plain(c, AskTimezoneShort)]), Done)
    else if text == MenuClear then Step(World(WithoutChatTables(w.tables, c), w.outbox + [Plain(c, DataCleared)]), Done)
    else Step(w, Done)
  }

  /** `HandleCommand`: reset_all drops the store before the set-up gate is
      consulted (with the session state read before the drop); the gate
      stops everything but start, help and current_state until the settings
      are confirmed. `fileRemoved` says whether the database file could be
      removed: if not, the file and its rows stay and the error is reported. */
  function CommandEffect(env: Env, m: Incoming, fileRemoved: bool, now: int, w: World): Step
  {
    var c, cmd := m.chatId, Command(m.text);
    var st := SessionOf(w.tables, c);
    var w1 :=
      if cmd == "reset_all" then
        World(if fileRemoved then Tables(map[], map[], map[], map[], map[], w.tables.nextId) else w.tables,
              w.outbox + [Plain(c, if fileRemoved then DropDone else DropFailed)])
      else w;
    if !ValidateInitialState(st, cmd) then
      Step(if st == Initial then Emit(w1, [Plain(c, ConfirmSettingsFirst)]) else w1, Done)
    else if cmd == "start" then StartEffect(env, c, now, w1)
    else if cmd == "current_state" then CurrentStateEffect(env, c, now, w1)
    else if cmd == "settings" then SettingsEffect(env, c, w1)
    else if cmd == "help" then Step(Emit(w1, [Plain(c, Help)]), Done)
    else MenuEffect(c, m.text, w1)
  }

  /** `HandleMessage`: commands to HandleCommand, everything else to HandleText. */
  function MessageEffect(env: Env, m: Incoming, fileRemoved: bool, now: int, w: World, mid: int): Step
  {
    if IsCommand(m.text) then CommandEffect(env, m, fileRemoved, now, w) else TextEffect(env, m, now, w, mid)
  }

  // ---------- the handler ----------

  class Handler {
    const db: DB
    const bot: Bot
    const zones: ZoneDb
    /** The server's own zone in seconds east of UTC: what `time.Now()`
        without `In` reports its hour and date in. */
    const serverOffset: int

    constructor (db: DB, bot: Bot, zones: ZoneDb, serverOffset: int)
      requires KnowsLocal(zones, serverOffset)
      ensures this.db == db && this.bot == bot && this.zones == zones && this.serverOffset == serverOffset
    {
      this.db := db;
      this.bot := bot;
      this.zones := zones;
      this.serverOffset := serverOffset;
    }

    function Environment(): Env
    {
      Env(zones, serverOffset, db.defaults)
    }

    function Observe(): World
      reads db, bot
    {
      World(db.Snapshot(), bot.outbox)
    }

    /** `send`: a plain text message whose result is dropped. */
    method SendPlain(c: int, say: Say)
      modifies bot
      ensures bot.outbox == old(bot.outbox) + [Plain(c, say)]
    {
      var r := bot.Send(Plain(c, say));
    }

    /** `pushDayKeyboard`: the keyboard of the stored session state. */
    method PushDayKeyboard(c: int)
      modifies bot
      ensures bot.outbox == old(bot.outbox) + [DayKeyboard(c, db.GetSessionState(c))]
    {
      var st := db.GetSessionState(c);
      var r := bot.Send(Message(c, Blank, BuildDayKeyboard(st), 0));
    }

    /** The answered question's pending row is deleted and the session goes Idle. */
    method CloseQuestion(c: int, key: string)
      requires db.Valid()
      modifies db
      ensures db.Valid()
      ensures db.Snapshot() == old(db.Snapshot()).(pending := old(db.pending) - {(c, key)}, sessions := old(db.sessions)[c := Idle])
    {
      db.DeletePending(c, key);
      db.SetSessionState(c, Idle);
    }

    method HandleYes(c: int, msg: Incoming) returns (o: Outcome)
      requires db.Valid()
      modifies db, bot
      ensures db.Valid()
      ensures Step(Observe(), o) == YesEffect(Environment(), c, msg, old(Observe()))
    {
      ghost var w := Observe();
      if msg.replyTo.None? {
        return Panic;
      }
      var key := TrimPrefix(db.GetUserState(c), "confirm_complaints:");
      assert key == TrimPrefix(WaitOf(w.tables, c), "confirm_complaints:");
      if |key| < 10 {
        return Panic;
      }
      ghost var t := w.tables;
      db.UpsertDayRecord(c, key[..10], msg.replyTo.value);
      CloseQuestion(c, key);
      assert db.Snapshot() == t.(dayRecords := WithComplaints(t.dayRecords, c, key[..10], msg.replyTo.value, db.defaults),
                                 pending := t.pending - {(c, key)},
                                 sessions := t.sessions[c := Idle]);
      PushDayKeyboard(c);
      db.SetUserState(c, "");
      SendPlain(c, Thanks);
      o := Done;
      assert Observe() == YesEffect(Environment(), c, msg, w).world;
    }

    method HandleCancel(c: int)
      requires db.Valid()
      modifies db, bot
      ensures db.Valid()
      ensures Step(Observe(), Done) == CancelEffect(c, old(Observe()))
    {
      var key := TrimPrefix(db.GetUserState(c), "confirm_complaints:");
      db.SetUserState(c, "wait_complaints:" + key);
      SendPlain(c, ReenterComplaints);
    }

    /** Sends `m` and records it as the pending question of period `p` on
        the UTC date, with the id the send returned. */
    method AskSetupQuestion(c: int, m: Outgoing, p: Period, now: int) returns (ghost mid: int)
      requires db.Valid()
      modifies db, bot
      ensures db.Valid()
      ensures mid >= 0
      ensures var t := old(db.Snapshot()); var q := SetupQuestion(c, now, p, mid);
        db.Snapshot() == t.(pending := t.pending[(c, q.dateKey) := Stamped(q, t.nextId, now)], nextId := t.nextId + 1)
      ensures bot.outbox == old(bot.outbox) + [m]
    {
      var r := bot.Send(m);
      mid := MessageId(r);
      db.InsertPending(PendingMessage(0, c, DateString(now) + "-" + p.Name(), p, MessageId(r), 0, 0), now);
    }

    /** The question sent by handleConfirmSettings inside a window. */
    method AskAfterSetup(c: int, st: State, now: int) returns (ghost mid: int)
      requires db.Valid()
      modifies db, bot
      ensures db.Valid()
      ensures mid >= 0 && db.Snapshot() == AskTables(old(db.Snapshot()), c, now, st, mid)
      ensures bot.outbox == old(bot.outbox) + AskMessages(c, st, now + serverOffset)
    {
      mid := 0;
      if st == WaitingMorning {
        mid := AskSetupQuestion(c, Plain(c, MorningCallAfterSetup), Morning, now);
      } else if st == WaitingEvening {
        var hrsLeft := HoursLeftToday(now + serverOffset);
        mid := AskSetupQuestion(c, Message(c, DinnerCallAfterSetup(hrsLeft), EveningKB, 0), Evening, now);
      }
    }

    method HandleConfirmSettings(c: int, now: int) returns (o: Outcome, ghost mid: int)
      requires db.Valid()
      modifies db, bot
      ensures db.Valid()
      ensures mid >= 0 && Step(Observe(), o) == ConfirmEffect(Environment(), c, now, old(Observe()), mid)
    {
      mid := 0;
      ghost var w := Observe();
      var u := db.GetUser(c);
      var st := CalcCurrentState(zones, u, now);
      assert st == CalcCurrentState(Environment().zones, UserOf(w.tables, c), now);
      if st.None? {
        return Panic, mid;
      }
      o, mid := ApplyConfirm(c, st.value, u.Some?, now);
    }

    /** The session takes the computed state, and the day keyboard and the
        "settings saved" note are sent. */
    method SaveState(c: int, st: State)
      requires db.Valid()
      modifies db, bot
      ensures db.Valid()
      ensures Observe() == World(old(db.Snapshot()).(sessions := old(db.sessions)[c := st]),
                                 old(bot.outbox) + [DayKeyboard(c, st), Plain(c, SettingsSaved)])
    {
      db.SetSessionState(c, st);
      PushDayKeyboard(c);
      SendPlain(c, SettingsSaved);
    }

    /** The state is saved and, inside a window, its question asked. */
    method SaveAndAsk(c: int, st: State, now: int) returns (ghost mid: int)
      requires db.Valid()
      modifies db, bot
      ensures db.Valid()
      ensures mid >= 0
      ensures db.Snapshot() == AskTables(old(db.Snapshot()).(sessions := old(db.sessions)[c := st]), c, now, st, mid)
      ensures bot.outbox == old(bot.outbox) + [DayKeyboard(c, st), Plain(c, SettingsSaved)] + AskMessages(c, st, now + serverOffset)
    {
      SaveState(c, st);
      mid := AskAfterSetup(c, st, now);
    }

    /** handleConfirmSettings after the state `st` has been computed;
        `hasUser` says whether the user row was found. */
    method ApplyConfirm(c: int, st: State, hasUser: bool, now: int) returns (o: Outcome, ghost mid: int)
      requires db.Valid() && (hasUser <==> c in db.users)
      modifies db, bot
      ensures db.Valid()
      ensures mid >= 0 && Step(Observe(), o) == ConfirmWith(Environment(), c, now, old(Observe()), st, mid)
    {
      ghost var w, env := Observe(), Environment();
      assert env.serverOffset == serverOffset;
      mid := SaveAndAsk(c, st, now);
      ghost var t, out := db.Snapshot(), bot.outbox;
      ConfirmWithAt(env, c, now, w, st, mid, t, out);
      if !hasUser {
        return Panic, mid;
      }
      SendPlain(c, Debug(st));
      assert Observe() == World(t, out + [Plain(c, Debug(st))]);
      o := Done;
    }

    method HandleChangeSettings(c: int)
      requires db.Valid()
      modifies db, bot
      ensures db.Valid()
      ensures Step(Observe(), Done) == ChangeSettingsEffect(c, old(Observe()))
    {
      db.SetUserState(c, "setup_morning");
      SendPlain(c, AskMorningTime);
    }

    method HandleAteNow(c: int, key: string, now: int) returns (o: Outcome)
      requires db.Valid()
      modifies db, bot
      ensures db.Valid()
      ensures Step(Observe(), o) == AteNowEffect(Environment(), c, key, now, old(Observe()))
    {
      if |key| < 10 {
        return Panic;
      }
      ghost var w, env := Observe(), Environment();
      ghost var t := w.tables;
      db.SetDinner(c, key[..10], now);
      CloseQuestion(c, key);
      assert db.Snapshot() == t.(dayRecords := WithDinner(t.dayRecords, c, key[..10], now, env.defaults),
                                 pending := t.pending - {(c, key)},
                                 sessions := t.sessions[c := Idle]);
      ghost var t' := db.Snapshot();
      PushDayKeyboard(c);
      SendPlain(c, EnjoyEvening);
      assert bot.outbox == w.outbox + [DayKeyboard(c, Idle), Plain(c, EnjoyEvening)];
      assert Observe() == World(t', bot.outbox);
      o := Done;
      AteNowEffectDone(env, c, key, now, w);
    }

    method HandleAteAt(c: int, key: string)
      requires db.Valid()
      modifies db, bot
      ensures db.Valid()
      ensures Step(Observe(), Done) == AteAtEffect(c, key, old(Observe()))
    {
      db.SetUserState(c, "wait_dinner:" + key);
      SendPlain(c, AskDinnerTime);
    }

    method HandleCallback(q: Query, now: int) returns (o: Outcome, ghost mid: int)
      requires db.Valid()
      modifies db, bot
      ensures db.Valid()
      ensures mid >= 0 && Step(Observe(), o) == CallbackEffect(Environment(), q, now, old(Observe()), mid)
    {
      mid := 0;
      var c := q.message.chatId;
      var data := q.data;
      var dateKey := ExtractDateKey(q.message.sentAt, data);
      bot.Request(CallbackAnswer(q.id, ""));
      match Dispatch(data)
      case ConfirmSettings =>
        o, mid := HandleConfirmSettings(c, now);
      case ChangeSettings =>
        HandleChangeSettings(c);
        o := Done;
      case AteNow =>
        o := HandleAteNow(c, dateKey, now);
      case AteAt =>
        HandleAteAt(c, dateKey);
        o := Done;
      case Yes =>
        o := HandleYes(c, q.message);
      case Cancel =>
        HandleCancel(c);
        o := Done;
      case Ignore =>
        o := Done;
    }

    method HandleText(m: Incoming, now: int) returns (o: Outcome, ghost mid: int)
      requires db.Valid()
      modifies db, bot
      ensures db.Valid()
      ensures mid >= 0 && Step(Observe(), o) == TextEffect(Environment(), m, now, old(Observe()), mid)
    {
      mid := 0;
      var c := m.chatId;
      var state := db.GetUserState(c);
      if state == "" {
        o := Done;
      } else if state == "setup_morning" || state == "setup_evening" {
        o := SetupTime(c, state, m.text, now);
      } else if state == "setup_timezone" {
        o, mid := SetupZone(c, m.text, now);
      } else if HasPrefix(state, "wait_complaints:") {
        ComplaintsText(c, state, m.messageId);
        o := Done;
      } else if HasPrefix(state, "wait_dinner:") {
        o := DinnerText(c, state, m.text, now);
      } else {
        o := Done;
      }
    }

    method SetupTime(c: int, state: string, text: string, now: int) returns (o: Outcome)
      requires db.Valid()
      modifies db, bot
      ensures db.Valid()
      ensures Step(Observe(), o) == SetupTimeEffect(c, state, text, old(Observe()))
    {
      if !TimeRx(text) {
        SendPlain(c, BadTimeFormat);
        return Done;
      }
      var u := db.GetUser(c);
      if u.None? {
        return Panic;
      }
      if state == "setup_morning" {
        db.UpsertUser(u.value.(morningAt := text), now);
        db.SetUserState(c, "setup_evening");
        SendPlain(c, AskEveningTime);
      } else {
        db.UpsertUser(u.value.(eveningAt := text), now);
        db.SetUserState(c, "setup_timezone");
        SendPlain(c, AskTimezone);
      }
      o := Done;
    }

    method SetupZone(c: int, text: string, now: int) returns (o: Outcome, ghost mid: int)
      requires db.Valid()
      modifies db, bot
      ensures db.Valid()
      ensures mid >= 0 && Step(Observe(), o) == SetupZoneEffect(Environment(), c, text, now, old(Observe()), mid)
    {
      mid := 0;
      var tz := ValidateTZ(zones, text);
      if tz.None? {
        return Fatal, mid;
      }
      var u := db.GetUser(c);
      if u.None? {
        return Panic, mid;
      }
      db.UpsertUser(u.value.(tz := tz.value), now);
      db.SetUserState(c, "");
      o, mid := HandleConfirmSettings(c, now);
    }

    method ComplaintsText(c: int, state: string, messageId: int)
      requires db.Valid()
      modifies db, bot
      ensures db.Valid()
      ensures Step(Observe(), Done) == ComplaintsTextEffect(c, state, messageId, old(Observe()))
    {
      var dateKey := TrimPrefix(state, "wait_complaints:");
      var r := bot.Send(Message(c, ConfirmComplaints, ConfirmKB, messageId));
      db.SetUserState(c, "confirm_complaints:" + dateKey);
    }

    /** The dinner time `dinner` is stored under the date of `key`, the
        question closed, the wait state cleared and the chat told. */
    method SaveDinner(c: int, key: string, dinner: int)
      requires db.Valid() && |key| >= 10
      modifies db, bot
      ensures db.Valid()
      ensures var t := old(db.Snapshot());
        Observe() == World(WithWait(t.(dayRecords := WithDinner(t.dayRecords, c, key[..10], dinner, db.defaults),
                                       pending := t.pending - {(c, key)}), c, ""),
                           old(bot.outbox) + [Plain(c, DinnerSaved)])
    {
      db.SetDinner(c, key[..10], dinner);
      db.DeletePending(c, key);
      db.SetUserState(c, "");
      SendPlain(c, DinnerSaved);
    }

    method DinnerText(c: int, state: string, text: string, now: int) returns (o: Outcome)
      requires db.Valid()
      modifies db, bot
      ensures db.Valid()
      ensures Step(Observe(), o) == DinnerTextEffect(Environment(), c, state, text, now, old(Observe()))
    {
      if !TimeRx(text) {
        SendPlain(c, BadTimeFormat);
        return Done;
      }
      var dinner := TypedDinner(now + serverOffset, text);
      var dateKey := TrimPrefix(state, "wait_dinner:");
      if |dateKey| < 10 {
        return Panic;
      }
      ghost var w := Observe();
      SaveDinner(c, dateKey, dinner);
      o := Done;
      DinnerTextSaved(Environment(), c, state, text, now, w);
    }

    /** `ensureUser`. */
    method EnsureUserRow(c: int, now: int)
      requires db.Valid()
      modifies db
      ensures db.Valid()
      ensures db.Snapshot() == EnsureUser(old(db.Snapshot()), c, now)
    {
      var user := db.GetUser(c);
      if user.None? {
        db.UpsertUser(DefaultUser(c), now);
      }
    }

    /** `askConfirmDefaults`. */
    method AskConfirmDefaults(c: int) returns (o: Outcome)
      modifies bot
      ensures c !in db.users ==> o == Panic && bot.outbox == old(bot.outbox)
      ensures c in db.users ==>
        o == Done && bot.outbox == old(bot.outbox) + [Message(c, SettingsSay(Environment(), db.users[c]), DefaultsKB, 0)]
    {
      var u := db.GetUser(c);
      if u.None? {
        return Panic;
      }
      var tzDisplay := GmtString(zones, u.value.tz);
      var r := bot.Send(Message(c, Settings(u.value.morningAt, u.value.eveningAt, tzDisplay), DefaultsKB, 0));
      o := Done;
    }

    method HandleStart(c: int, now: int) returns (o: Outcome)
      requires db.Valid()
      modifies db, bot
      ensures db.Valid()
      ensures Step(Observe(), o) == StartEffect(Environment(), c, now, old(Observe()))
    {
      EnsureUserRow(c, now);
      var st := db.GetSessionState(c);
      if st != NotStarted && st != Initial {
        SendPlain(c, AlreadyRunning(st));
        o := Done;
      } else {
        db.SetSessionState(c, Initial);
        o := AskConfirmDefaults(c);
      }
    }

    method HandleCurrentState(c: int, now: int) returns (o: Outcome)
      requires db.Valid()
      modifies db, bot
      ensures db.Valid()
      ensures Step(Observe(), o) == CurrentStateEffect(Environment(), c, now, old(Observe()))
    {
      EnsureUserRow(c, now);
      var u := db.GetUser(c);
      var state := CalcCurrentState(zones, u, now);
      if state.None? {
        return Panic;
      }
      SendPlain(c, CurrentState(state.value));
      o := Done;
    }

    method HandleSettings(c: int) returns (o: Outcome)
      requires db.Valid()
      modifies bot
      ensures Step(Observe(), o) == SettingsEffect(Environment(), c, old(Observe()))
    {
      var u := db.GetUser(c);
      if u.None? {
        return Panic;
      }
      var tzDisplay := GmtString(zones, u.value.tz);
      var r := bot.Send(Message(c, Settings(u.value.morningAt, u.value.eveningAt, tzDisplay), SettingsKB, 0));
      o := Done;
    }

    method HandleMenu(c: int, text: string)
      requires db.Valid()
      modifies db, bot
      ensures db.Valid()
      ensures Step(Observe(), Done) == MenuEffect(c, text, old(Observe()))
    {
      if text == MenuStats {
        SendPlain(c, StatsNotReady);
      } else if text == MenuMorning {
        db.SetUserState(c, "setup_morning");
        SendPlain(c, AskMorningTime);
      } else if text == MenuEvening {
        db.SetUserState(c, "setup_evening");
        SendPlain(c, AskEveningTime);
      } else if text == MenuTz {
        db.SetUserState(c, "setup_timezone");
        SendPlain(c, AskTimezoneShort);
      } else if text == MenuClear {
        db.ClearData(c);
        SendPlain(c, DataCleared);
      }
    }

    method HandleCommand(m: Incoming, fileRemoved: bool, now: int) returns (o: Outcome)
      requires db.Valid()
      modifies db, bot
      ensures db.Valid()
      ensures Step(Observe(), o) == CommandEffect(Environment(), m, fileRemoved, now, old(Observe()))
    {
      var c := m.chatId;
      var cmd := Command(m.text);
      var st := db.GetSessionState(c);
      if cmd == "reset_all" {
        db.DropAll(fileRemoved);
        if fileRemoved {
          SendPlain(c, DropDone);
        } else {
          SendPlain(c, DropFailed);
        }
      }
      if !ValidateInitialState(st, cmd) {
        if st == Initial {
          SendPlain(c, ConfirmSettingsFirst);
        }
        return Done;
      }
      if cmd == "start" {
        o := HandleStart(c, now);
      } else if cmd == "current_state" {
        o := HandleCurrentState(c, now);
      } else if cmd == "settings" {
        o := HandleSettings(c);
      } else if cmd == "help" {
        SendPlain(c, Help);
        o := Done;
      } else {
        HandleMenu(c, m.text);
        o := Done;
      }
    }

    method HandleMessage(m: Incoming, fileRemoved: bool, now: int) returns (o: Outcome, ghost mid: int)
      requires db.Valid()
      modifies db, bot
      ensures db.Valid()
      ensures mid >= 0 && Step(Observe(), o) == MessageEffect(Environment(), m, fileRemoved, now, old(Observe()), mid)
    {
      if IsCommand(m.text) {
        o := HandleCommand(m, fileRemoved, now);
        mid := 0;
      } else {
        o, mid := HandleText(m, now);
      }
    }
  }
}
