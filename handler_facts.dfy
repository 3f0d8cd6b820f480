/** What the newer handlers promise across updates: the complaint and dinner
    dialogues, the set-up dialogue, the command gate and the reset, stated
    over the effect functions of the Handlers module. */
module HandlerFacts {
  import opened Text
  import opened Models
  import opened Calendar
  import opened Zones
  import opened Storage
  import opened Telegram
  import opened Rules
  import opened Worlds
  import opened Handlers

  /** Everything a handler sent before is still there, in order: handlers
      only append to the outbox. */
  predicate Appends(w: World, s: Step)
  {
    w.outbox <= s.world.outbox
  }

  // ---------- callbacks ----------

  /** A pressed button is always answered first, whatever its payload and
      however the branch it picks ends. */
  lemma {:induction false} CallbackAcksFirst(env: Env, q: Query, now: int, w: World, mid: int)
    ensures var s := CallbackEffect(env, q, now, w, mid);
      w.outbox + [CallbackAnswer(q.id, "")] <= s.world.outbox
  {
    var acked := Emit(w, [CallbackAnswer(q.id, "")]);
    var c := q.message.chatId;
    if Dispatch(q.data) == ConfirmSettings {
      ConfirmAppends(env, c, now, acked, mid);
    }
  }

  /** handleConfirmSettings only appends to the outbox. */
  lemma {:induction false} ConfirmAppends(env: Env, c: int, now: int, w: World, mid: int)
    ensures Appends(w, ConfirmEffect(env, c, now, w, mid))
  {
    var state := CalcCurrentState(env.zones, UserOf(w.tables, c), now);
    if state.Some? {
    }
  }

  /** Confirming the settings panics exactly when the user's zone does not
      resolve (before anything changes) or the user row is missing (after
      the keyboard, the note and the question are out). With a user whose
      zone resolves the session takes a running state: never NotStarted and
      never Initial. */
  lemma {:induction false} ConfirmOutcome(env: Env, c: int, now: int, w: World, mid: int)
    ensures var s := ConfirmEffect(env, c, now, w, mid);
      (s.outcome == Panic <==> c !in w.tables.users || TzToLocation(env.zones, w.tables.users[c].tz).None?)
      && (s.outcome != Panic ==> s.outcome == Done)
      && (c in w.tables.users && TzToLocation(env.zones, w.tables.users[c].tz).None? ==> s.world == w)
      && (s.outcome == Done ==> Running(SessionOf(s.world.tables, c)))
  {
    var u := UserOf(w.tables, c);
    var state := CalcCurrentState(env.zones, u, now);
    if state.Some? {
      assert AskTables(w.tables.(sessions := w.tables.sessions[c := state.value]), c, now, state.value, mid).sessions
        == w.tables.sessions[c := state.value];
    }
  }

  /** Inside the morning window the confirmation asks the morning question
      and records it as pending under "<UTC date>-morning"; inside the
      evening window likewise for the evening. */
  lemma {:induction false} ConfirmAsksWindowQuestion(env: Env, c: int, now: int, w: World, mid: int)
    requires c in w.tables.users
    ensures var s := ConfirmEffect(env, c, now, w, mid);
      var st := CalcCurrentState(env.zones, UserOf(w.tables, c), now);
      (st == Some(WaitingMorning) ==> (c, DateString(now) + "-morning") in s.world.tables.pending
                                      && Plain(c, MorningCallAfterSetup) in s.world.outbox)
      && (st == Some(WaitingEvening) ==> (c, DateString(now) + "-evening") in s.world.tables.pending)
      && (st == Some(Idle) ==> s.world.tables.pending == w.tables.pending)
  {
    var state := CalcCurrentState(env.zones, UserOf(w.tables, c), now);
    if state.Some? {
      ConfirmWithAsks(env, c, now, w, state.value, mid);
    }
  }

  /** The same, once the state `st` has been computed. */
  lemma {:induction false} ConfirmWithAsks(env: Env, c: int, now: int, w: World, st: State, mid: int)
    requires c in w.tables.users
    ensures var s := ConfirmWith(env, c, now, w, st, mid);
      (st == WaitingMorning ==> (c, DateString(now) + "-morning") in s.world.tables.pending
                                && Plain(c, MorningCallAfterSetup) in s.world.outbox)
      && (st == WaitingEvening ==> (c, DateString(now) + "-evening") in s.world.tables.pending)
      && (st == Idle ==> s.world.tables.pending == w.tables.pending)
  {
    var out := w.outbox + [DayKeyboard(c, st), Plain(c, SettingsSaved)] + AskMessages(c, st, now + env.serverOffset);
    if st == WaitingMorning {
      assert DateString(now) + "-" + Morning.Name() == DateString(now) + "-morning";
      assert out[|out| - 1] == Plain(c, MorningCallAfterSetup);
      assert (out + [Plain(c, Debug(st))])[|out| - 1] == Plain(c, MorningCallAfterSetup);
    } else if st == WaitingEvening {
      assert DateString(now) + "-" + Evening.Name() == DateString(now) + "-evening";
    }
  }


  /** The complaint dialogue: complaints typed while waiting for them are
      put up for confirmation under the same key, and "Cancel" returns to
      waiting for them under that key again. */
  lemma {:induction false} ComplaintCycle(env: Env, m: Incoming, now: int, w: World, mid: int, key: string)
    requires WaitOf(w.tables, m.chatId) == "wait_complaints:" + key
    ensures var s := TextEffect(env, m, now, w, mid);
      s.outcome == Done
      && WaitOf(s.world.tables, m.chatId) == "confirm_complaints:" + key
      && s.world.outbox == w.outbox + [Message(m.chatId, ConfirmComplaints, ConfirmKB, m.messageId)]
      && CancelEffect(m.chatId, s.world).world.tables == w.tables
  {
    var c := m.chatId;
    var s := "wait_complaints:" + key;
    TrimPrefixRoundTrip("wait_complaints:", key);
    assert s[0] == 'w';
    assert s != "" && s != "setup_morning" && s != "setup_evening" && s != "setup_timezone";
    var t1 := WithWait(w.tables, c, "confirm_complaints:" + key);
    TrimPrefixRoundTrip("confirm_complaints:", key);
    assert WithWait(t1, c, "wait_complaints:" + key) == w.tables;
  }

  /** "Yes" under a confirmation stores the replied-to complaints under the
      date of the key, closes that key's question, makes the session Idle
      and clears the wait state. */
  lemma {:induction false} YesStoresComplaints(env: Env, c: int, msg: Incoming, w: World, key: string, text: string)
    requires WaitOf(w.tables, c) == "confirm_complaints:" + key && |key| >= 10
    requires msg.replyTo == Some(text)
    ensures var s := YesEffect(env, c, msg, w);
      var rec := DayRecordOf(s.world.tables.dayRecords, c, key[..10]);
      s.outcome == Done && rec.Some? && rec.value.complaints == text
      && (c, key) !in s.world.tables.pending
      && SessionOf(s.world.tables, c) == Idle && WaitOf(s.world.tables, c) == ""
  {
    TrimPrefixRoundTrip("confirm_complaints:", key);
  }

  /** Complaints confirmed for a morning key answer that day's morning
      question as HasAnswered reads it, unless they are empty. */
  lemma {:induction false} YesAnswersMorning(env: Env, c: int, msg: Incoming, w: World, d: Date, text: string)
    requires ValidDate(d) && 0 <= d.year <= 9999
    requires WaitOf(w.tables, c) == "confirm_complaints:" + FormatDate(d) + "-morning"
    requires msg.replyTo == Some(text)
    ensures var s := YesEffect(env, c, msg, w);
      s.outcome == Done
      && (Answered(s.world.tables.dayRecords, c, FormatDate(d) + "-morning") <==> text != "")
  {
    var key := FormatDate(d) + "-morning";
    FormatDateLength(d);
    assert key[..10] == FormatDate(d);
    assert "confirm_complaints:" + key == "confirm_complaints:" + FormatDate(d) + "-morning";
    YesStoresComplaints(env, c, msg, w, key, text);
    MorningAnswered(YesEffect(env, c, msg, w).world.tables.dayRecords, c, d);
  }

  /** A confirmation whose key is shorter than a date panics with nothing
      changed: this is where a "Cancel" from the settings screen leads, since
      it leaves the key empty. */
  lemma {:induction false} CancelFromSettingsPanicsLater(env: Env, c: int, msg: Incoming, w: World)
    requires WaitOf(w.tables, c) == ""
    ensures var w1 := CancelEffect(c, w).world;
      WaitOf(w1.tables, c) == "wait_complaints:"
      && YesEffect(env, c, msg, Step(World(WithWait(w1.tables, c, "confirm_complaints:"), w1.outbox), Done).world).outcome == Panic
  {
    assert !HasPrefix("", "confirm_complaints:");
    TrimPrefixRoundTrip("confirm_complaints:", "");
    assert "confirm_complaints:" + "" == "confirm_complaints:";
    assert "wait_complaints:" + "" == "wait_complaints:";
  }

  /** "Ate now" on an evening key answers that day's evening question, as
      long as the day's row has (or starts with) readable complaints. */
  lemma {:induction false} AteNowAnswersEvening(env: Env, c: int, d: Date, now: int, w: World)
    requires ValidDate(d) && 0 <= d.year <= 9999
    requires (c, FormatDate(d)) in w.tables.dayRecords ==> w.tables.dayRecords[(c, FormatDate(d))].complaints.Some?
    requires (c, FormatDate(d)) !in w.tables.dayRecords ==> env.defaults.complaints.Some?
    ensures var s := AteNowEffect(env, c, FormatDate(d) + "-evening", now, w);
      s.outcome == Done && Answered(s.world.tables.dayRecords, c, FormatDate(d) + "-evening")
      && (c, FormatDate(d) + "-evening") !in s.world.tables.pending
  {
    var key := FormatDate(d) + "-evening";
    FormatDateLength(d);
    assert key[..10] == FormatDate(d);
    DinnerAnswersEvening(w.tables.dayRecords, c, d, now, env.defaults);
  }

  /** With no row for the day and a NULL complaints default, the dinner time
      is stored but HasAnswered cannot read the row back, so the evening
      question stays open. */
  lemma {:induction false} AteNowWithoutRecordStaysOpen(env: Env, c: int, d: Date, now: int, w: World)
    requires ValidDate(d) && 0 <= d.year <= 9999
    requires (c, FormatDate(d)) !in w.tables.dayRecords && env.defaults.complaints.None?
    ensures var s := AteNowEffect(env, c, FormatDate(d) + "-evening", now, w);
      s.outcome == Done && !Answered(s.world.tables.dayRecords, c, FormatDate(d) + "-evening")
      && (c, FormatDate(d)) in s.world.tables.dayRecords
      && s.world.tables.dayRecords[(c, FormatDate(d))].dinnerAt == Some(now)
  {
    var key := FormatDate(d) + "-evening";
    FormatDateLength(d);
    assert key[..10] == FormatDate(d);
    var s := AteNowEffect(env, c, key, now, w);
    AnsweredDateKey(s.world.tables.dayRecords, c, d, Evening);
    assert FormatDate(d) + "-" + Evening.Name() == key;
  }

  // ---------- typed text ----------

  /** Without a wait state a text is ignored: nothing changes, nothing is sent. */
  lemma IdleTextIgnored(env: Env, m: Incoming, now: int, w: World, mid: int)
    requires WaitOf(w.tables, m.chatId) == ""
    ensures TextEffect(env, m, now, w, mid) == Step(w, Done)
  {
  }

  /** A typed dinner time is stored as that clock time on the server's
      current day, under the date of the key, and closes the key's question. */
  lemma {:induction false} DinnerTextStored(env: Env, m: Incoming, now: int, w: World, mid: int, key: string)
    requires WaitOf(w.tables, m.chatId) == "wait_dinner:" + key && |key| >= 10 && TimeRx(m.text)
    ensures var s := TextEffect(env, m, now, w, mid);
      var rows := s.world.tables.dayRecords;
      s.outcome == Done && (m.chatId, key[..10]) in rows
      && rows[(m.chatId, key[..10])].dinnerAt
         == Some(DayNumber(now + env.serverOffset) * SecondsPerDay + ClockHour(m.text) * SecondsPerHour + ClockMinute(m.text) * 60)
      && (m.chatId, key) !in s.world.tables.pending && WaitOf(s.world.tables, m.chatId) == ""
  {
    var s := "wait_dinner:" + key;
    TrimPrefixRoundTrip("wait_dinner:", key);
    assert s[5] == 'd' && "wait_complaints:"[5] == 'c';
    assert s != "" && s != "setup_morning" && s != "setup_evening" && s != "setup_timezone";
    DinnerTextSaved(env, m.chatId, s, m.text, now, w);
  }

  /** A dinner time that is not HH:MM is refused and the wait goes on. */
  lemma {:induction false} DinnerTextRefused(env: Env, m: Incoming, now: int, w: World, mid: int, key: string)
    requires WaitOf(w.tables, m.chatId) == "wait_dinner:" + key && !TimeRx(m.text)
    ensures TextEffect(env, m, now, w, mid) == Step(Emit(w, [Plain(m.chatId, BadTimeFormat)]), Done)
  {
    var s := "wait_dinner:" + key;
    assert s[5] == 'd' && "wait_complaints:"[5] == 'c';
    assert s != "" && s != "setup_morning" && s != "setup_evening" && s != "setup_timezone";
  }

  /** The set-up dialogue walks morning, evening, zone: each accepted time
      is stored on the user and moves the wait state on. */
  lemma {:induction false} SetupTimesAdvance(env: Env, m: Incoming, now: int, w: World, mid: int)
    requires m.chatId in w.tables.users && TimeRx(m.text)
    requires WaitOf(w.tables, m.chatId) in {"setup_morning", "setup_evening"}
    ensures var s := TextEffect(env, m, now, w, mid);
      var c := m.chatId;
      s.outcome == Done && c in s.world.tables.users
      && (WaitOf(w.tables, c) == "setup_morning" ==>
            s.world.tables.users[c] == w.tables.users[c].(morningAt := m.text)
            && WaitOf(s.world.tables, c) == "setup_evening")
      && (WaitOf(w.tables, c) == "setup_evening" ==>
            s.world.tables.users[c] == w.tables.users[c].(eveningAt := m.text)
            && WaitOf(s.world.tables, c) == "setup_timezone")
  {
  }

  /** A zone accepted at the last set-up step is stored and the settings
      confirmed without a panic: the session ends in a running state. */
  lemma {:induction false} TzSetupConfirms(env: Env, m: Incoming, now: int, w: World, mid: int)
    requires WaitOf(w.tables, m.chatId) == "setup_timezone" && m.chatId in w.tables.users
    requires ValidateTZ(env.zones, m.text).Some?
    ensures var s := TextEffect(env, m, now, w, mid);
      var c := m.chatId;
      s.outcome == Done && c in s.world.tables.users
      && s.world.tables.users[c].tz == ValidateTZ(env.zones, m.text).value
      && WaitOf(s.world.tables, c) == "" && Running(SessionOf(s.world.tables, c))
  {
    var c := m.chatId;
    var tz := ValidateTZ(env.zones, m.text).value;
    var t := w.tables;
    var t' := WithWait(t.(users := t.users[c := t.users[c].(tz := tz)]), c, "");
    var w' := World(t', w.outbox);
    ConfirmOutcome(env, c, now, w', mid);
    var state := CalcCurrentState(env.zones, UserOf(t', c), now);
  }

  /** "Local" typed at the last set-up step is stored as it is, and the
      settings are confirmed; it then stands for the server's own zone. */
  lemma {:induction false} LocalSetupConfirms(env: Env, m: Incoming, now: int, w: World, mid: int)
    requires KnowsLocal(env.zones, env.serverOffset) && TrimSpace(m.text) == "Local"
    requires WaitOf(w.tables, m.chatId) == "setup_timezone" && m.chatId in w.tables.users
    ensures var s := TextEffect(env, m, now, w, mid);
      var c := m.chatId;
      s.outcome == Done && c in s.world.tables.users
      && s.world.tables.users[c].tz == "Local"
      && TzToLocation(env.zones, s.world.tables.users[c].tz) == Some(env.serverOffset)
      && Running(SessionOf(s.world.tables, c))
  {
    LocalIsServerZone(env.zones, env.serverOffset, m.text);
    TzSetupConfirms(env, m, now, w, mid);
  }

  /** An unknown zone at the last set-up step ends the process. */
  lemma TzSetupUnknownIsFatal(env: Env, m: Incoming, now: int, w: World, mid: int)
    requires WaitOf(w.tables, m.chatId) == "setup_timezone" && ValidateTZ(env.zones, m.text).None?
    ensures TextEffect(env, m, now, w, mid) == Step(w, Fatal)
  {
  }

  // ---------- commands ----------

  /** /start twice leaves the tables as /start once. */
  lemma {:induction false} StartIdempotent(env: Env, c: int, now: int, later: int, w: World)
    ensures var s1 := StartEffect(env, c, now, w);
      StartEffect(env, c, later, s1.world).world.tables == s1.world.tables
  {
    var t := EnsureUser(w.tables, c, now);
    assert c in t.users;
    var s1 := StartEffect(env, c, now, w);
    assert c in s1.world.tables.users;
    assert EnsureUser(s1.world.tables, c, later) == s1.world.tables;
  }

  /** /start never touches a running session: it only says so. */
  lemma StartKeepsRunningSession(env: Env, c: int, now: int, w: World)
    requires c in w.tables.users && Running(SessionOf(w.tables, c))
    ensures StartEffect(env, c, now, w) == Step(Emit(w, [Plain(c, AlreadyRunning(SessionOf(w.tables, c)))]), Done)
  {
  }

  /** /reset_all, whoever sends it and whatever state the session is in,
      empties every table when the database file is removed and keeps every
      row when the removal fails, and reports which happened. */
  lemma {:induction false} ResetAllDropsOnRemoval(env: Env, m: Incoming, fileRemoved: bool, now: int, w: World)
    requires Command(m.text) == "reset_all"
    ensures var s := CommandEffect(env, m, fileRemoved, now, w);
      s.outcome == Done
      && s.world.tables == (if fileRemoved then Tables(map[], map[], map[], map[], map[], w.tables.nextId) else w.tables)
      && s.world.outbox[|w.outbox|] == Plain(m.chatId, if fileRemoved then DropDone else DropFailed)
  {
    var c := m.chatId;
    var st := SessionOf(w.tables, c);
    SetupGate(st, "reset_all");
    assert Command(m.text) != "start" && Command(m.text) != "current_state";
    assert Command(m.text) != "settings" && Command(m.text) != "help";
  }

  /** Until the settings are confirmed (session Initial) every command but
      start, help and current_state only gets the "confirm first" note. */
  lemma {:induction false} GateBlocksUntilConfirmed(env: Env, m: Incoming, fileRemoved: bool, now: int, w: World)
    requires SessionOf(w.tables, m.chatId) == Initial
    requires Command(m.text) !in ["start", "help", "current_state", "reset_all"]
    ensures CommandEffect(env, m, fileRemoved, now, w) == Step(Emit(w, [Plain(m.chatId, ConfirmSettingsFirst)]), Done)
  {
    SetupGate(Initial, Command(m.text));
  }

  /** The main-menu "clear" text removes every row of the chat and no row of
      any other chat. */
  lemma {:induction false} MenuClearOnlyThisChat(c: int, w: World, other: int, day: string)
    requires other != c
    ensures var t := MenuEffect(c, MenuClear, w).world.tables;
      c !in t.users && c !in t.sessions && c !in t.userStates
      && UserOf(t, other) == UserOf(w.tables, other)
      && ((other, day) in t.pending <==> (other, day) in w.tables.pending)
      && ((other, day) in t.dayRecords <==> (other, day) in w.tables.dayRecords)
  {
    assert MenuClear != MenuStats && MenuClear != MenuMorning && MenuClear != MenuEvening && MenuClear != MenuTz;
    WithoutChatKeepsOthers(w.tables, c, other, day);
  }
}
