/** What the older handlers promise across updates: the morning-button
    dialogue, the dinner-time dialogue and the wait state they leave behind. */
module LegacyFacts {
  import opened Text
  import opened Models
  import opened Calendar
  import opened Storage
  import opened Telegram
  import opened Rules
  import opened Worlds
  import opened Legacy

  /** /start creates the default user only when the chat has none, and
      always shows the main menu. */
  lemma StartCreatesOnlyWhenAbsent(c: int, now: int, w: World)
    ensures var s := StartEffect(c, now, w);
      s.outcome == Done && s.world.outbox == w.outbox + [Message(c, MainMenu, MainMenuKB, 0)]
      && (c in w.tables.users ==> s.world.tables == w.tables)
      && (c !in w.tables.users ==>
            s.world.tables == w.tables.(users := w.tables.users[c := User(c, "Europe/Moscow", "10:00", "18:00", now)]))
  {
  }

  /** A morning button on a day that already has complaints changes no
      table, swaps the message's buttons for "change / cancel" and leaves the
      query unanswered. */
  lemma {:induction false} AnsweredDaySwapsKeyboard(env: Env, q: Query, now: int, w: World)
    requires q.data == BtnComplaints || q.data == BtnNoComplaints
    requires var key := PrefixDateKey(q.message.sentAt, q.data);
      var rec := DayRecordOf(w.tables.dayRecords, q.message.chatId, key[..10]);
      rec.Some? && rec.value.complaints != ""
    ensures var s := CallbackEffect(env, q, now, w);
      s.world.tables == w.tables
      && s.world.outbox == w.outbox + [EditMarkup(q.message.chatId, q.message.messageId, ChangeKB(q.data))]
      && CallbackAnswer(q.id, "") !in s.world.outbox[|w.outbox|..]
  {
    var s := CallbackEffect(env, q, now, w);
    assert s.world.outbox[|w.outbox|..] == [EditMarkup(q.message.chatId, q.message.messageId, ChangeKB(q.data))];
  }

  /** "Нет жалоб" under the morning question of a day without complaints
      stores empty complaints, which HasAnswered reads as "not answered",
      and — its key being the evening one — deletes the evening question of
      that date while the morning question stays pending. */
  lemma {:induction false} NoComplaintsClosesEveningKey(env: Env, q: Query, now: int, w: World)
    requires q.data == BtnNoComplaints
    requires 0 <= CivilFromDays(DayNumber(q.message.sentAt)).year <= 9999
    requires var rec := DayRecordOf(w.tables.dayRecords, q.message.chatId, DateString(q.message.sentAt));
      rec.None? || rec.value.complaints == ""
    ensures var s := CallbackEffect(env, q, now, w);
      var c, d := q.message.chatId, DateString(q.message.sentAt);
      s.outcome == Done
      && !Answered(s.world.tables.dayRecords, c, d + "-morning")
      && (c, d + "-evening") !in s.world.tables.pending
      && ((c, d + "-morning") in s.world.tables.pending <==> (c, d + "-morning") in w.tables.pending)
      && s.world.outbox == w.outbox + [Plain(c, HaveANiceDay), CallbackAnswer(q.id, "")]
  {
    var c, d := q.message.chatId, DateString(q.message.sentAt);
    var date := CivilFromDays(DayNumber(q.message.sentAt));
    FormatDateLength(date);
    PrefixDateKeyPeriod(q.message.sentAt, q.data);
    var key := PrefixDateKey(q.message.sentAt, q.data);
    assert key == d + "-evening";
    assert key[..10] == d;
    assert (d + "-evening")[|d| + 1] == 'e' && (d + "-morning")[|d| + 1] == 'm';
    NoComplaintsNotAnswered(w.tables.dayRecords, c, date, env.defaults);
  }

  /** "Жалобы" on a day without complaints waits for them under the
      morning key of the message's date and answers the query. */
  lemma {:induction false} ComplaintsButtonWaits(env: Env, q: Query, now: int, w: World)
    requires q.data == BtnComplaints
    requires 0 <= CivilFromDays(DayNumber(q.message.sentAt)).year <= 9999
    requires var rec := DayRecordOf(w.tables.dayRecords, q.message.chatId, DateString(q.message.sentAt));
      rec.None? || rec.value.complaints == ""
    ensures var c, d := q.message.chatId, DateString(q.message.sentAt);
      CallbackEffect(env, q, now, w)
        == Step(World(WithWait(w.tables, c, "wait_complaints:" + d + "-morning"),
                      w.outbox + [Plain(c, DescribeComplaints), CallbackAnswer(q.id, "")]), Done)
  {
    var d := DateString(q.message.sentAt);
    FormatDateLength(CivilFromDays(DayNumber(q.message.sentAt)));
    PrefixDateKeyPeriod(q.message.sentAt, q.data);
    var key := PrefixDateKey(q.message.sentAt, q.data);
    assert key[..10] == d;
    assert CallbackEffect(env, q, now, w) == MorningButtonEffect(env, q, key, w);
    assert "wait_complaints:" + key == "wait_complaints:" + d + "-morning";
  }

  /** Text received while waiting for complaints under `key` is stored as
      the complaints of the key's date, closes that key's question and
      clears the wait state. */
  lemma {:induction false} ComplaintsKeyStored(env: Env, m: Incoming, now: int, w: World, key: string)
    requires |key| >= 10 && WaitOf(w.tables, m.chatId) == "wait_complaints:" + key
    ensures var s := TextEffect(env, m, now, w);
      var c := m.chatId;
      s.outcome == Done && DayRecordOf(s.world.tables.dayRecords, c, key[..10]).Some?
      && DayRecordOf(s.world.tables.dayRecords, c, key[..10]).value.complaints == m.text
      && (c, key) !in s.world.tables.pending
      && WaitOf(s.world.tables, c) == ""
  {
    TrimPrefixRoundTrip("wait_complaints:", key);
    assert TextEffect(env, m, now, w) == ComplaintsTextEffect(env, m.chatId, "wait_complaints:" + key, m.text, w);
  }

  /** Text received while waiting for complaints of date `d` is stored as
      that date's complaints, closes the morning question and clears the
      wait state; non-empty complaints count as the morning's answer. */
  lemma {:induction false} ComplaintsTextStored(env: Env, m: Incoming, now: int, w: World, date: Date)
    requires ValidDate(date) && 0 <= date.year <= 9999
    requires WaitOf(w.tables, m.chatId) == "wait_complaints:" + FormatDate(date) + "-morning"
    ensures var s := TextEffect(env, m, now, w);
      var c, d := m.chatId, FormatDate(date);
      var rec := DayRecordOf(s.world.tables.dayRecords, c, d);
      s.outcome == Done && rec.Some? && rec.value.complaints == m.text
      && (c, d + "-morning") !in s.world.tables.pending
      && WaitOf(s.world.tables, c) == ""
      && (Answered(s.world.tables.dayRecords, c, d + "-morning") <==> m.text != "")
  {
    var c, d := m.chatId, FormatDate(date);
    FormatDateLength(date);
    var key := d + "-morning";
    assert key[..10] == d;
    assert "wait_complaints:" + key == "wait_complaints:" + d + "-morning";
    ComplaintsKeyStored(env, m, now, w, key);
    MorningAnswered(TextEffect(env, m, now, w).world.tables.dayRecords, c, date);
  }

  /** The complaint dialogue, button then text, end to end. */
  lemma {:induction false} ComplaintsDialogue(env: Env, q: Query, m: Incoming, now: int, later: int, w: World)
    requires q.data == BtnComplaints && m.chatId == q.message.chatId
    requires 0 <= CivilFromDays(DayNumber(q.message.sentAt)).year <= 9999
    requires var rec := DayRecordOf(w.tables.dayRecords, q.message.chatId, DateString(q.message.sentAt));
      rec.None? || rec.value.complaints == ""
    ensures var s1 := CallbackEffect(env, q, now, w);
      var s2 := TextEffect(env, m, later, s1.world);
      var c, d := m.chatId, DateString(q.message.sentAt);
      var rec := DayRecordOf(s2.world.tables.dayRecords, c, d);
      s2.outcome == Done && rec.Some? && rec.value.complaints == m.text
      && (c, d + "-morning") !in s2.world.tables.pending
      && WaitOf(s2.world.tables, c) == ""
      && (Answered(s2.world.tables.dayRecords, c, d + "-morning") <==> m.text != "")
  {
    ComplaintsButtonWaits(env, q, now, w);
    var s1 := CallbackEffect(env, q, now, w);
    var date := CivilFromDays(DayNumber(q.message.sentAt));
    ComplaintsTextStored(env, m, later, s1.world, date);
  }

  /** "Поел в …" waits for a dinner time under the evening key of the
      message's date and answers the query. */
  lemma {:induction false} AteAtButtonWaits(env: Env, q: Query, now: int, w: World)
    requires q.data == BtnAteAt
    ensures var c, d := q.message.chatId, DateString(q.message.sentAt);
      CallbackEffect(env, q, now, w)
        == Step(World(WithWait(w.tables, c, "wait_dinner_time:" + (d + "-evening")),
                      w.outbox + [Plain(c, AskDinnerTimeShort), CallbackAnswer(q.id, "")]), Done)
  {
    assert q.data[0] == 'П' && !HasPrefix(q.data, "Жалоб") && !HasPrefix(q.data, "chg:");
  }

  /** A well-formed time received while waiting under `key` stores the
      dinner, read on the server's current day in UTC, for the key's date,
      closes that key's question and clears the wait state. */
  lemma {:induction false} DinnerKeyStored(env: Env, m: Incoming, now: int, w: World, key: string)
    requires |key| >= 10 && TimeRx(m.text) && WaitOf(w.tables, m.chatId) == "wait_dinner_time:" + key
    ensures var s := TextEffect(env, m, now, w);
      var c, rows := m.chatId, s.world.tables.dayRecords;
      s.outcome == Done && (c, key[..10]) in rows
      && rows[(c, key[..10])].dinnerAt == Some(TypedDinner(now + env.serverOffset, m.text))
      && (c, key) !in s.world.tables.pending
      && WaitOf(s.world.tables, c) == ""
  {
    var st := "wait_dinner_time:" + key;
    TrimPrefixRoundTrip("wait_dinner_time:", key);
    assert st[5] == 'd' && "wait_complaints:"[5] == 'c';
    DinnerTimeStored(env, m.chatId, st, m.text, now, w);
  }

  /** The dinner dialogue: "Поел в …" waits for a time under the evening
      key; a well-formed time then stores the dinner on the server's current
      day in UTC under that date, closes the evening question and clears
      the wait state. */
  lemma {:induction false} DinnerTimeDialogue(env: Env, q: Query, m: Incoming, now: int, later: int, w: World)
    requires q.data == BtnAteAt && m.chatId == q.message.chatId && TimeRx(m.text)
    requires 0 <= CivilFromDays(DayNumber(q.message.sentAt)).year <= 9999
    ensures var s1 := CallbackEffect(env, q, now, w);
      var s2 := TextEffect(env, m, later, s1.world);
      var c, d := m.chatId, DateString(q.message.sentAt);
      var rows := s2.world.tables.dayRecords;
      WaitOf(s1.world.tables, c) == "wait_dinner_time:" + (d + "-evening")
      && s2.outcome == Done && (c, d) in rows
      && rows[(c, d)].dinnerAt == Some(TypedDinner(later + env.serverOffset, m.text))
      && (c, d + "-evening") !in s2.world.tables.pending
      && WaitOf(s2.world.tables, c) == ""
  {
    var d := DateString(q.message.sentAt);
    FormatDateLength(CivilFromDays(DayNumber(q.message.sentAt)));
    var key := d + "-evening";
    assert key[..10] == d;
    AteAtButtonWaits(env, q, now, w);
    DinnerKeyStored(env, m, later, CallbackEffect(env, q, now, w).world, key);
  }

  /** A badly formed dinner time gets the format hint and changes no table:
      the wait goes on. */
  lemma {:induction false} BadDinnerTimeKeepsWaiting(env: Env, m: Incoming, now: int, w: World, key: string)
    requires WaitOf(w.tables, m.chatId) == "wait_dinner_time:" + key && !TimeRx(m.text)
    ensures TextEffect(env, m, now, w) == Step(Emit(w, [Plain(m.chatId, TimeFormatHint)]), Done)
  {
    var s := "wait_dinner_time:" + key;
    TrimPrefixRoundTrip("wait_dinner_time:", key);
    assert s[5] == 'd' && "wait_complaints:"[5] == 'c';
  }

  /** Any other non-empty wait state (a set-up step of the newer handlers,
      say) is simply cleared, with nothing sent. */
  lemma {:induction false} ForeignStateCleared(env: Env, m: Incoming, now: int, w: World)
    requires WaitOf(w.tables, m.chatId) in {"setup_morning", "setup_evening", "setup_timezone"}
    ensures TextEffect(env, m, now, w) == Step(World(WithWait(w.tables, m.chatId, ""), w.outbox), Done)
  {
    var s := WaitOf(w.tables, m.chatId);
    assert s[0] == 's';
    assert !HasPrefix(s, "wait_complaints:") && !HasPrefix(s, "wait_dinner_time:");
  }

  /** Whatever the text, the older HandleText leaves the wait state empty
      unless it panics or refuses a dinner time. */
  lemma {:induction false} TextClearsWaitState(env: Env, m: Incoming, now: int, w: World)
    ensures var s := TextEffect(env, m, now, w);
      var st := WaitOf(w.tables, m.chatId);
      s.outcome == Panic
      || (HasPrefix(st, "wait_dinner_time:") && !HasPrefix(st, "wait_complaints:") && !TimeRx(m.text) && s.world.tables == w.tables)
      || WaitOf(s.world.tables, m.chatId) == ""
  {
    var c := m.chatId;
    var st := WaitOf(w.tables, c);
    if st != "" && !HasPrefix(st, "wait_complaints:") && HasPrefix(st, "wait_dinner_time:") && TimeRx(m.text) {
      var key := TrimPrefix(st, "wait_dinner_time:");
      if |key| >= 10 {
        DinnerTimeStored(env, c, st, m.text, now, w);
      }
    }
  }

  /** The scheduler's tick keys the question by the LOCAL date, while the older
      button handlers key the answer by the UTC date of the message: for a
      user three hours east of UTC asked at 00:30 local time, the morning
      question is pending under the next day's key, and "Жалобы" under it
      stores under the previous day's key, so the question stays pending. */
  lemma {:induction false} LocalKeyMissesUtcKey()
    ensures var off, now := 3 * SecondsPerHour, 21 * SecondsPerHour + 30 * 60;
      ClockString(now + off) == "00:30"
      && DateString(now + off) + "-morning" != PrefixDateKey(now, BtnComplaints)
  {
    var off, now := 3 * SecondsPerHour, 21 * SecondsPerHour + 30 * 60;
    HalfPastMidnight();
    NextDayDiffers();
    PrefixDateKeyPeriod(now, BtnComplaints);
    var s0, s1 := DateString(now), DateString(now + off);
    var k0, k1 := s0 + "-morning", s1 + "-morning";
    assert k0[8..10] == s0[8..] && k1[8..10] == s1[8..];
  }

  /** 1970-01-02T00:30 prints as "00:30". */
  lemma HalfPastMidnight()
    ensures ClockString(SecondsPerDay + 30 * 60) == "00:30"
  {
    assert SecondOfDay(SecondsPerDay + 30 * 60) == 30 * 60;
    assert ZeroPad(0, 2) == "00" && ZeroPad(30, 2) == "30";
  }

  /** The UTC dates of 1970-01-01T21:30 and 1970-01-02T00:30 differ in the
      day digits. */
  lemma {:induction false} NextDayDiffers()
    ensures DateString(21 * SecondsPerHour + 30 * 60)[8..] != DateString(SecondsPerDay + 30 * 60)[8..]
    ensures |DateString(21 * SecondsPerHour + 30 * 60)| == 10 && |DateString(SecondsPerDay + 30 * 60)| == 10
  {
    assert DayNumber(SecondsPerDay + 30 * 60) == 1 && DayNumber(21 * SecondsPerHour + 30 * 60) == 0;
    var d0, d1 := CivilFromDays(0), CivilFromDays(1);
    UnixEpochIsNewYear1970();
    SecondOfJanuary1970();
    FormatDateIsFullDate(d0);
    FormatDateIsFullDate(d1);
  }
}
