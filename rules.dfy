/** The pure decisions of the newer handlers (internal/handlers): which
    payload a callback carries, which date key it belongs to, the "HH:MM"
    checks, the morning and evening windows that give a chat its session
    state, the set-up gate in front of commands and the day keyboard. */
module Rules {
  import opened Text
  import opened Models
  import opened Calendar
  import opened Zones
  import opened Telegram

  // ---------- button labels and payloads ----------

  const BtnAteNow := "Поел"
  const BtnAteAt := "Поел в …"
  const BtnChange := "Изменить"
  const BtnYes := "Да"
  const BtnCancel := "Отмена"
  const BtnConfirm := "Подтвердить"

  /** The morning question's buttons of the scheduler and the older handlers. */
  const BtnComplaints := "Жалобы"
  const BtnNoComplaints := "Нет жалоб"

  const CbCfgConfirm := "cfg_confirm"
  const CbCfgChange := "cfg_change"

  /** The reply-keyboard labels of the day keyboard. */
  const KbYesterdayDinner := "Вчера ужинал в …"
  const KbTodayMorningStatus := "Самочувствие утром"
  const KbDinner := "Ужинал в …"
  const KbPrevMorningStatus := "Самочувствие прошлым утром"

  /** The main-menu texts HandleCommand compares a message with. */
  const MenuStats := "Показать статистику"
  const MenuMorning := "Задать время утреннего сообщения"
  const MenuEvening := "Задать время вечернего сообщения"
  const MenuTz := "Сменить часовой пояс"
  const MenuClear := "Очистить данные"

  /** "Save the complaints?" buttons, sent under the user's own text. */
  const ConfirmKB := Inline([[Button(BtnYes, "cmp_yes"), Button(BtnCancel, "cmp_cancel")]])
  /** The dinner question's buttons: the payload is the caption. */
  const EveningKB := Inline([[Button(BtnAteNow, BtnAteNow), Button(BtnAteAt, BtnAteAt)]])
  /** The morning question's buttons: the payload is the caption. */
  const MorningKB := Inline([[Button(BtnComplaints, BtnComplaints), Button(BtnNoComplaints, BtnNoComplaints)]])
  /** Under the /settings reply. */
  const SettingsKB := Inline([[Button(BtnChange, CbCfgChange), Button(BtnCancel, BtnCancel)]])
  /** Under the defaults shown by /start. */
  const DefaultsKB := Inline([[Button(BtnConfirm, CbCfgConfirm), Button(BtnChange, CbCfgChange)]])

  /** The callback payloads of a row of inline buttons, in order. */
  function RowPayloads(row: seq<Button>): (r: seq<string>)
    ensures |r| == |row| && forall j :: 0 <= j < |row| ==> r[j] == row[j].data
  {
    if |row| == 0 then [] else [row[0].data] + RowPayloads(row[1..])
  }

  /** Every callback payload an inline keyboard can send, row by row. */
  function Payloads(m: Markup): (r: seq<string>)
    ensures !m.Inline? ==> r == []
    decreases if m.Inline? then |m.buttons| else 0
  {
    if !m.Inline? || |m.buttons| == 0 then []
    else RowPayloads(m.buttons[0]) + Payloads(Inline(m.buttons[1..]))
  }

  // ---------- callbacks ----------

  /** The branch of HandleCallback a payload selects. */
  datatype Action = ConfirmSettings | ChangeSettings | AteNow | AteAt | Yes | Cancel | Ignore

  function Dispatch(data: string): Action
  {
    if data == CbCfgConfirm then ConfirmSettings
    else if data == CbCfgChange then ChangeSettings
    else if data == BtnAteNow then AteNow
    else if data == BtnAteAt then AteAt
    else if data == BtnYes then Yes
    else if data == BtnCancel then Cancel
    else Ignore
  }

  /** The buttons under the dinner question, /settings and the /start
      defaults all reach a branch of HandleCallback. */
  lemma OwnButtonsDispatch()
    ensures forall d :: d in Payloads(EveningKB) + Payloads(SettingsKB) + Payloads(DefaultsKB) ==> Dispatch(d) != Ignore
  {
    assert Payloads(EveningKB) == [BtnAteNow, BtnAteAt];
    assert Payloads(SettingsKB) == [CbCfgChange, BtnCancel];
    assert Payloads(DefaultsKB) == [CbCfgConfirm, CbCfgChange];
  }

  /** The two buttons under "save the complaints?" send "cmp_yes" and
      "cmp_cancel", which no branch handles: the confirmation step can never
      be completed by pressing them. */
  lemma ConfirmButtonsIgnored()
    ensures |Payloads(ConfirmKB)| == 2
    ensures forall d :: d in Payloads(ConfirmKB) ==> Dispatch(d) == Ignore
  {
    assert Payloads(ConfirmKB) == ["cmp_yes", "cmp_cancel"];
  }

  /** The morning question the scheduler sends carries "Жалобы" and
      "Нет жалоб", which the newer HandleCallback has no branch for. */
  lemma MorningButtonsIgnored()
    ensures |Payloads(MorningKB)| == 2
    ensures forall d :: d in Payloads(MorningKB) ==> Dispatch(d) == Ignore
  {
    assert Payloads(MorningKB) == [BtnComplaints, BtnNoComplaints];
  }

  /** Which question a payload answers: everything about dinner is the
      evening one, everything else the morning one. */
  function PeriodOf(data: string): Period
  {
    if data == BtnAteNow || data == BtnAteAt || data == "cmp_dinner_yes" || data == "cmp_dinner_cancel"
    then Evening else Morning
  }

  /** `extractDateKey`: the UTC date of the message the button sits under,
      then the period. */
  function ExtractDateKey(sentAt: int, data: string): (k: string)
    ensures |k| >= 10
  {
    DateString(sentAt) + "-" + PeriodOf(data).Name()
  }

  /** The first ten characters of a date key are the date, and the dinner
      buttons give the evening key. */
  lemma DateKeyDay(sentAt: int, data: string)
    requires 0 <= CivilFromDays(DayNumber(sentAt)).year <= 9999
    ensures ExtractDateKey(sentAt, data)[..10] == DateString(sentAt)
    ensures IsFullDate(ExtractDateKey(sentAt, data)[..10])
    ensures Dispatch(data) == AteNow || Dispatch(data) == AteAt ==>
      ExtractDateKey(sentAt, data) == DateString(sentAt) + "-evening"
  {
    var d := CivilFromDays(DayNumber(sentAt));
    FormatDateIsFullDate(d);
    assert |DateString(sentAt)| == 10;
    assert ExtractDateKey(sentAt, data)[..10] == DateString(sentAt);
  }

  // ---------- "HH:MM" ----------

  /** `^\d{1,2}:\d{2}$`: one or two digits, ':' and two digits; the values
      are not checked. */
  predicate TimeRx(s: string)
  {
    (|s| == 4 || |s| == 5) && AllDigits(s[..|s| - 3]) && s[|s| - 3] == ':' && AllDigits(s[|s| - 2..])
  }

  function ClockHour(s: string): nat
    requires TimeRx(s)
  {
    Value(s[..|s| - 3])
  }

  function ClockMinute(s: string): nat
    requires TimeRx(s)
  {
    Value(s[|s| - 2..])
  }

  /** `time.ParseInLocation("15:04", s, loc)` as the hour and minute: one or
      two hour digits below 24, ':', exactly two minute digits below 60 and
      nothing after them. */
  function ParseClock(s: string): Option<(nat, nat)>
  {
    if |s| == 0 || !IsDigit(s[0]) then None
    else
      var hd := if |s| >= 2 && IsDigit(s[1]) then 2 else 1;
      var h := Value(s[..hd]);
      if h >= 24 then None
      else if |s| != hd + 3 || s[hd] != ':' || !IsDigit(s[hd + 1]) || !IsDigit(s[hd + 2]) then None
      else
        var m := Value(s[hd + 1..]);
        if m >= 60 then None else Some((h, m))
  }

  /** Go's clock layout accepts exactly the texts of the input pattern whose
      hour is below 24 and whose minute is below 60, and reads the same
      numbers from them. */
  lemma ParseClockMatchesPattern(s: string)
    ensures ParseClock(s).Some? <==> TimeRx(s) && ClockHour(s) < 24 && ClockMinute(s) < 60
    ensures ParseClock(s).Some? ==> ParseClock(s).value == (ClockHour(s), ClockMinute(s))
  {
    if |s| > 0 && IsDigit(s[0]) {
      var hd := if |s| >= 2 && IsDigit(s[1]) then 2 else 1;
      if |s| == hd + 3 && s[hd] == ':' && IsDigit(s[hd + 1]) && IsDigit(s[hd + 2]) {
        assert s[..|s| - 3] == s[..hd];
        assert s[|s| - 2..] == s[hd + 1..];
        assert AllDigits(s[..hd]);
      }
      if TimeRx(s) {
        assert IsDigit(s[..|s| - 3][0]);
        assert |s| == 5 ==> IsDigit(s[..|s| - 3][1]);
        assert |s| == 4 ==> hd == 1;
      }
    }
  }

  /** What the clock layout prints it reads back: the "15:04" text of a wall
      time parses as its hour and minute. */
  lemma ParseClockString(t: int)
    ensures ParseClock(ClockString(t)) == Some((SecondOfDay(t) / SecondsPerHour, SecondOfDay(t) % SecondsPerHour / 60))
  {
    ClockStringShape(t);
    var s := ClockString(t);
    assert TimeRx(s);
    ParseClockMatchesPattern(s);
  }

  /** The text handlers accept "25:99" as a time, though the clock layout
      cannot read it; a one-digit minute is refused. */
  lemma PatternWiderThanClock()
    ensures TimeRx("25:99") && ParseClock("25:99").None?
    ensures TimeRx("9:05") && ParseClock("9:05") == Some((9, 5))
    ensures !TimeRx("9:5") && !TimeRx("09:300")
  {
    assert ClockHour("25:99") == 25 by { ValueOfTwo('2', '5'); assert "25:99"[..2] == ['2', '5']; }
    ParseClockMatchesPattern("25:99");
    assert "9:05"[..1] == ['9'] && "9:05"[2..] == ['0', '5'];
    assert Value(['9']) == 9 by { assert ['9'][..0] == []; }
    ValueOfTwo('0', '5');
    ParseClockMatchesPattern("9:05");
  }

  // ---------- session state ----------

  /** Length of the morning and the evening window, in seconds. */
  const WindowLength := 2 * SecondsPerHour

  /** Seconds after local midnight at which a "HH:MM" setting starts; a text
      the clock layout cannot read counts as midnight. */
  function WindowStart(hm: string): (s: nat)
    ensures s < SecondsPerDay
  {
    match ParseClock(hm)
    case Some((h, m)) => h * SecondsPerHour + m * 60
    case None => 0
  }

  /** `inWindow`: [start, start + 2h) of the same local day. */
  predicate InWindow(sod: int, start: int)
  {
    start <= sod < start + WindowLength
  }

  /** `calcCurrentState`: NotStarted without a user; None where the user's
      zone does not resolve and `time.Now().In(nil)` panics; otherwise the
      morning window, then the evening window, then Idle. */
  function CalcCurrentState(zones: ZoneDb, u: Option<User>, now: int): (r: Option<State>)
    ensures r.None? <==> u.Some? && TzToLocation(zones, u.value.tz).None?
    ensures r == Some(NotStarted) <==> u.None?
    ensures r != Some(Initial)
  {
    if u.None? then Some(NotStarted)
    else
      match TzToLocation(zones, u.value.tz)
      case None => None
      case Some(off) =>
        var sod := SecondOfDay(now + off);
        if InWindow(sod, WindowStart(u.value.morningAt)) then Some(WaitingMorning)
        else if InWindow(sod, WindowStart(u.value.eveningAt)) then Some(WaitingEvening)
        else Some(Idle)
  }

  /** The local second of the day of a user whose zone resolves. */
  function LocalSecond(zones: ZoneDb, u: User, now: int): (sod: int)
    requires TzToLocation(zones, u.tz).Some?
    ensures 0 <= sod < SecondsPerDay
  {
    SecondOfDay(now + TzToLocation(zones, u.tz).value)
  }

  /** The state names the window the local time falls in, the morning
      window taking precedence where both cover it. */
  lemma CurrentStateWindows(zones: ZoneDb, u: User, now: int)
    requires TzToLocation(zones, u.tz).Some?
    ensures var sod := LocalSecond(zones, u, now);
      var inMorning := InWindow(sod, WindowStart(u.morningAt));
      var inEvening := InWindow(sod, WindowStart(u.eveningAt));
      (CalcCurrentState(zones, Some(u), now) == Some(WaitingMorning) <==> inMorning)
      && (CalcCurrentState(zones, Some(u), now) == Some(WaitingEvening) <==> !inMorning && inEvening)
      && (CalcCurrentState(zones, Some(u), now) == Some(Idle) <==> !inMorning && !inEvening)
  {
  }

  /** Windows do not run past local midnight: with the morning set to 23:30
      the state at 00:30 local time is not WaitingMorning, although 00:30 is
      within two hours of 23:30. */
  lemma WindowStopsAtMidnight(zones: ZoneDb, u: User, now: int)
    requires u.morningAt == "23:30" && TzToLocation(zones, u.tz).Some?
    requires LocalSecond(zones, u, now) == 30 * 60
    ensures CalcCurrentState(zones, Some(u), now) != Some(WaitingMorning)
  {
    assert WindowStart("23:30") == 23 * SecondsPerHour + 30 * 60 by {
      ParseClockMatchesPattern("23:30");
      assert "23:30"[..2] == ['2', '3'] && "23:30"[3..] == ['3', '0'];
      ValueOfTwo('2', '3');
      ValueOfTwo('3', '0');
    }
  }

  // ---------- commands ----------

  predicate IsCommandChar(c: char)
  {
    'a' <= c <= 'z' || 'A' <= c <= 'Z' || IsDigit(c) || c == '_'
  }

  /** A message is a command when it starts with '/' and a command
      character, as Telegram marks a bot_command entity at offset 0. */
  predicate IsCommand(text: string)
  {
    |text| >= 2 && text[0] == '/' && IsCommandChar(text[1])
  }

  /** The longest run of command characters at the front of `s`. */
  function CommandWord(s: string): (w: string)
    ensures |w| <= |s| && w == s[..|w|]
    ensures forall i :: 0 <= i < |w| ==> IsCommandChar(w[i])
    ensures |w| < |s| ==> !IsCommandChar(s[|w|])
  {
    if |s| > 0 && IsCommandChar(s[0]) then [s[0]] + CommandWord(s[1..]) else ""
  }

  /** `msg.Command()`: the command name without '/', arguments or "@bot". */
  function Command(text: string): string
  {
    if IsCommand(text) then CommandWord(text[1..]) else ""
  }

  /** "/name", "/name args" and "/name@bot" all give the command "name". */
  lemma {:induction false} CommandOf(name: string, rest: string)
    requires |name| >= 1 && forall i :: 0 <= i < |name| ==> IsCommandChar(name[i])
    requires |rest| == 0 || rest[0] == ' ' || rest[0] == '@'
    ensures IsCommand("/" + name + rest) && Command("/" + name + rest) == name
  {
    assert ("/" + name + rest)[1..] == name + rest;
    CommandWordOf(name, rest);
  }

  lemma {:induction false} CommandWordOf(name: string, rest: string)
    requires forall i :: 0 <= i < |name| ==> IsCommandChar(name[i])
    requires |rest| == 0 || rest[0] == ' ' || rest[0] == '@'
    ensures CommandWord(name + rest) == name
    decreases |name|
  {
    if |name| > 0 {
      assert (name + rest)[1..] == name[1..] + rest;
      CommandWordOf(name[1..], rest);
      assert [name[0]] + name[1..] == name;
    }
  }

  /** `validateInitialState`: before the settings are confirmed only start,
      help and current_state get through. */
  function ValidateInitialState(st: State, cmd: string): bool
  {
    var isInitialState := st == NotStarted || st == Initial;
    var isAvailableForAll := cmd == "start" || cmd == "help" || cmd == "current_state";
    !(isInitialState && !isAvailableForAll)
  }

  /** Once the session is running every command passes; before that
      settings and reset_all are refused while start is let through. */
  lemma SetupGate(st: State, cmd: string)
    ensures st != NotStarted && st != Initial ==> ValidateInitialState(st, cmd)
    ensures (st == NotStarted || st == Initial) ==>
      (ValidateInitialState(st, cmd) <==> cmd in ["start", "help", "current_state"])
  {
  }

  /** None of the main-menu texts can reach HandleCommand's menu branch:
      they are not commands, and only commands are handed to it. */
  lemma MenuTextsAreNotCommands()
    ensures forall t :: t in [MenuStats, MenuMorning, MenuEvening, MenuTz, MenuClear] ==> !IsCommand(t)
  {
  }

  // ---------- day keyboard ----------

  /** `buildDayKeyboard`: the reply keyboard shown under the day's messages. */
  function BuildDayKeyboard(st: State): (kb: Markup)
    ensures kb.Keyboard? && |kb.labels| <= 1
  {
    match st
    case WaitingMorning | Idle => Keyboard([[KbYesterdayDinner, KbTodayMorningStatus]])
    case WaitingEvening => Keyboard([[KbDinner, KbPrevMorningStatus]])
    case _ => Keyboard([])
  }

  /** Before the settings are confirmed the keyboard is hidden; afterwards
      it has one row of two buttons, none of which is a command or a menu
      text, so pressing one reaches only the wait-state text handler. */
  lemma DayKeyboardShape(st: State)
    ensures st == NotStarted || st == Initial <==> BuildDayKeyboard(st).labels == []
    ensures st != NotStarted && st != Initial ==>
      |BuildDayKeyboard(st).labels| == 1 && |BuildDayKeyboard(st).labels[0]| == 2
    ensures forall row, l :: row in BuildDayKeyboard(st).labels && l in row ==>
      !IsCommand(l) && l !in [MenuStats, MenuMorning, MenuEvening, MenuTz, MenuClear]
  {
  }

  // ---------- dinner time ----------

  /** `23 - t.Hour()`: the hours of the clock left before 23:00 of the wall
      time `t`. */
  function HoursLeftToday(serverNow: int): (h: int)
    ensures 0 <= h <= 23
  {
    23 - HourOf(serverNow)
  }

  /** The dinner time stored from a typed "HH:MM": the server's current
      calendar day at that hour and minute in UTC; values the pattern lets
      through past 23:59 roll over into the next days as `time.Date` does. */
  function TypedDinner(serverNow: int, text: string): (t: int)
    requires TimeRx(text)
    ensures t == DayNumber(serverNow) * SecondsPerDay + ClockHour(text) * SecondsPerHour + ClockMinute(text) * 60
  {
    var parts := Split(text, ':');
    SplitClock(text);
    DayNumber(serverNow) * SecondsPerDay + Value(parts[0]) * SecondsPerHour + Value(parts[1]) * 60
  }

  /** Splitting a pattern-matching time on ':' gives its hour and minute digits. */
  lemma SplitClock(text: string)
    requires TimeRx(text)
    ensures Split(text, ':') == [text[..|text| - 3], text[|text| - 2..]]
  {
    var a, b := text[..|text| - 3], text[|text| - 2..];
    assert text == a + [':'] + b;
    NoColonInDigits(a);
    NoColonInDigits(b);
    SplitAfter(a, ':', b);
    SplitWithout(b, ':');
  }

  lemma NoColonInDigits(s: string)
    requires AllDigits(s)
    ensures ':' !in s
  {
  }

  /** A valid typed time lands on the server's current day, at that hour and
      minute. */
  lemma TypedDinnerSameDay(serverNow: int, text: string)
    requires TimeRx(text) && ParseClock(text).Some?
    ensures DayNumber(TypedDinner(serverNow, text)) == DayNumber(serverNow)
    ensures SecondOfDay(TypedDinner(serverNow, text)) == ClockHour(text) * SecondsPerHour + ClockMinute(text) * 60
  {
    ParseClockMatchesPattern(text);
    var sod := ClockHour(text) * SecondsPerHour + ClockMinute(text) * 60;
    assert 0 <= sod < SecondsPerDay;
    var t := TypedDinner(serverNow, text);
    assert t == DayNumber(serverNow) * SecondsPerDay + sod;
    assert t / SecondsPerDay == DayNumber(serverNow);
  }
}
