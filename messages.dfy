/** internal/messages: the dinner question sent with the hours left until
    23:00 in the user's zone, recorded as pending once it is out. The older
    handlers send the morning and evening questions the same way, so the
    shared step lives here too. */
module Messages {
  import opened Text
  import opened Models
  import opened Calendar
  import opened Zones
  import opened Storage
  import opened Telegram
  import opened Rules
  import opened Worlds

  /** Go's integer conversion of a quotient: the division truncates toward
      zero, so a negative quotient is rounded up. */
  function TruncDiv(a: int, b: int): (q: int)
    requires b > 0
    ensures a >= 0 ==> q * b <= a < (q + 1) * b
    ensures a < 0 ==> (q - 1) * b < a <= q * b
  {
    if a >= 0 then a / b else -((-a) / b)
  }

  /** `hoursLeft`: the zone is loaded with `time.LoadLocation` only, whose
      error is dropped, so a zone that is no zone name leaves a nil location
      and `In` panics (None). Otherwise it is the whole hours from the local
      time to 23:00 of the local day, truncated toward zero. */
  function HoursLeft(zones: ZoneDb, tz: string, now: int): (r: Option<int>)
    ensures r.None? <==> LoadLocation(zones, tz).None?
    ensures r.Some? ==> 0 <= r.value <= 23
  {
    match LoadLocation(zones, tz)
    case None => None
    case Some(off) => Some(TruncDiv(23 * SecondsPerHour - SecondOfDay(now + off), SecondsPerHour))
  }

  /** Before 23:00 the result counts the whole hours left, the hour under way
      not included; from 23:00 on it is 0. Against the scheduler's
      `23 - hour` it is one less except on the full hour and after 23:00. */
  lemma {:induction false} HoursLeftCounts(zones: ZoneDb, tz: string, now: int)
    requires LoadLocation(zones, tz).Some?
    ensures var local := now + LoadLocation(zones, tz).value;
      var sod := SecondOfDay(local);
      var h := HoursLeft(zones, tz, now).value;
      (sod <= 23 * SecondsPerHour ==> h * SecondsPerHour <= 23 * SecondsPerHour - sod < (h + 1) * SecondsPerHour)
      && (sod >= 23 * SecondsPerHour ==> h == 0)
      && h == (if HourOf(local) == 23 || sod % SecondsPerHour == 0 then HoursLeftToday(local) else HoursLeftToday(local) - 1)
  {
    var local := now + LoadLocation(zones, tz).value;
    var sod := SecondOfDay(local);
    var hr := HourOf(local);
    var a := 23 * SecondsPerHour - sod;
    var h := HoursLeft(zones, tz, now).value;
    assert h == TruncDiv(a, SecondsPerHour);
    if hr < 23 {
      assert a > 0;
      if sod % SecondsPerHour == 0 {
        assert sod == hr * SecondsPerHour;
        assert a == (23 - hr) * SecondsPerHour;
      } else {
        assert hr * SecondsPerHour < sod < (hr + 1) * SecondsPerHour;
        assert (22 - hr) * SecondsPerHour < a < (23 - hr) * SecondsPerHour;
      }
    } else {
      assert -SecondsPerHour < a <= 0;
    }
  }

  /** A zone typed as an offset ("+3", "UTC-5") is stored in its normalised
      "±HH:MM" form, which the handlers resolve but `time.LoadLocation` does
      not: the set-up accepts it, and sending the dinner question to that
      user panics. */
  lemma {:induction false} OffsetZoneBreaksHoursLeft(zones: ZoneDb, input: string, now: int)
    requires forall name :: name in zones ==> !IsNormalOffset(name)
    requires ValidateTZ(zones, input).Some? && LoadLocation(zones, TrimSpace(input)).None?
    ensures TzToLocation(zones, ValidateTZ(zones, input).value).Some?
    ensures HoursLeft(zones, ValidateTZ(zones, input).value, now).None?
  {
    ValidateAcceptsParsed(zones, input);
    ParseUserTZShape(zones, input);
    var tz := ValidateTZ(zones, input).value;
    assert IsNormalOffset(tz);
    assert tz != "" && tz != "UTC";
  }

  /** Sends a question of the day and, when Telegram took it, records it as
      pending under `dateKey` with the id of the sent message, created now. A
      failed send is fatal (`log.Fatal`) and records nothing. */
  function AskEffect(c: int, dateKey: string, p: Period, say: Say, kb: Markup, now: int, w: World, r: SendResult): Step
  {
    var out := w.outbox + [Message(c, say, kb, 0)];
    if r.Failed? then Step(World(w.tables, out), Fatal)
    else
      var q := PendingMessage(0, c, dateKey, p, r.messageId, now, 0);
      var t := w.tables;
      Step(World(t.(pending := t.pending[(c, dateKey) := Stamped(q, t.nextId, now)], nextId := t.nextId + 1), out), Done)
  }

  /** `SendEvening`: the hours left are computed before anything is sent. */
  function EveningEffect(zones: ZoneDb, u: User, dateKey: string, now: int, w: World, r: SendResult): Step
  {
    match HoursLeft(zones, u.tz, now)
    case None => Step(w, Panic)
    case Some(h) => AskEffect(u.chatId, dateKey, Evening, DinnerCall(h), EveningKB, now, w, r)
  }

  /** Pending ids are distinct and below the next id handed out. */
  predicate FreshIds(t: Tables)
  {
    (forall k :: k in t.pending ==> t.pending[k].id < t.nextId)
    && (forall k, k' :: k in t.pending && k' in t.pending && k != k' ==> t.pending[k].id != t.pending[k'].id)
  }

  /** A question that went out is recorded under its own key with the sent
      message's id, its period and the current time, under a fresh id that no
      other pending row carries; one that did not go out is fatal and leaves
      the tables as they were. */
  lemma {:induction false} AskRecords(c: int, dateKey: string, p: Period, say: Say, kb: Markup, now: int, w: World, r: SendResult)
    requires FreshIds(w.tables) && now > 0
    ensures var s := AskEffect(c, dateKey, p, say, kb, now, w, r);
      var t := s.world.tables;
      s.world.outbox == w.outbox + [Message(c, say, kb, 0)]
      && (r.Failed? ==> s.outcome == Fatal && t == w.tables)
      && (r.Sent? ==>
            (s.outcome == Done && FreshIds(t) && (c, dateKey) in t.pending
             && t.pending[(c, dateKey)] == PendingMessage(w.tables.nextId, c, dateKey, p, r.messageId, now, now)
             && (forall k :: k in w.tables.pending && k != (c, dateKey) ==> k in t.pending && t.pending[k] == w.tables.pending[k])))
  {
    if r.Sent? {
      var t := AskEffect(c, dateKey, p, say, kb, now, w, r).world.tables;
      forall k, k' | k in t.pending && k' in t.pending && k != k'
        ensures t.pending[k].id != t.pending[k'].id
      {
        if k != (c, dateKey) && k' != (c, dateKey) {
          assert t.pending[k] == w.tables.pending[k] && t.pending[k'] == w.tables.pending[k'];
        }
      }
    }
  }

  /** `SendEvening` on the store and the bot, with the send's result `r`. */
  method SendEvening(bot: Bot, db: DB, zones: ZoneDb, u: User, dateKey: string, now: int) returns (o: Outcome, ghost r: SendResult)
    requires db.Valid()
    modifies bot, db
    ensures db.Valid()
    ensures r.Sent? ==> r.messageId > 0
    ensures Step(World(db.Snapshot(), bot.outbox), o) == EveningEffect(zones, u, dateKey, now, World(old(db.Snapshot()), old(bot.outbox)), r)
  {
    r := Failed;
    var hrs := HoursLeft(zones, u.tz, now);
    if hrs.None? {
      return Panic, r;
    }
    o, r := Ask(bot, db, u.chatId, dateKey, Evening, DinnerCall(hrs.value), EveningKB, now);
  }

  /** The send-then-insert step shared by the questions of the day. */
  method Ask(bot: Bot, db: DB, c: int, dateKey: string, p: Period, say: Say, kb: Markup, now: int) returns (o: Outcome, ghost r: SendResult)
    requires db.Valid()
    modifies bot, db
    ensures db.Valid()
    ensures r.Sent? ==> r.messageId > 0
    ensures Step(World(db.Snapshot(), bot.outbox), o) == AskEffect(c, dateKey, p, say, kb, now, World(old(db.Snapshot()), old(bot.outbox)), r)
  {
    var sent := bot.Send(Message(c, say, kb, 0));
    r := sent;
    if sent.Failed? {
      return Fatal, r;
    }
    db.InsertPending(PendingMessage(0, c, dateKey, p, MessageId(sent), now, 0), now);
    o := Done;
  }
}
