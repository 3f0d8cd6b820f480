/** Time-zone strings: the user's input normalised to an IANA name or a
    "+03:00" offset, the UTC offset such a string stands for, and the "GMT+3"
    text shown in the settings. The IANA database is a parameter: a map from
    zone name to the zone's current UTC offset in seconds. */
module Zones {
  import opened Text
  import opened Models

  type ZoneDb = map<string, int>

  /** `time.LoadLocation`: the empty name and "UTC" are built in, every other
      name, "Local" included, is looked up in the database (see `KnowsLocal`). */
  function LoadLocation(zones: ZoneDb, name: string): (r: Option<int>)
    ensures name in zones && name != "" && name != "UTC" ==> r == Some(zones[name])
    ensures (name == "" || name == "UTC") ==> r == Some(0)
    ensures r.None? <==> name !in zones && name != "" && name != "UTC"
  {
    if name == "" || name == "UTC" then Some(0)
    else if name in zones then Some(zones[name])
    else None
  }

  /** `time.LoadLocation("Local")` always succeeds, with the zone of the
      server the bot runs on. A database describes a server whose own zone
      is `serverOffset` seconds east of UTC when it maps "Local" there. */
  predicate KnowsLocal(zones: ZoneDb, serverOffset: int)
  {
    "Local" in zones && zones["Local"] == serverOffset
  }

  /** What the offset pattern `^(?i)(?:gmt|utc)?([+-]\d{1,2})(?::?(\d{2}))?$`
      captures: the sign and digits of the hour ("+3", "-05") and the minute
      digits ("" when absent). */
  datatype OffsetMatch = OffsetMatch(sign: char, hourDigits: string, minutes: string)

  predicate IsSign(c: char) { c == '+' || c == '-' }

  predicate WellFormedMatch(m: OffsetMatch)
  {
    IsSign(m.sign) && 1 <= |m.hourDigits| <= 2 && AllDigits(m.hourDigits)
    && (m.minutes == "" || (|m.minutes| == 2 && AllDigits(m.minutes)))
  }

  /** The input with its optional, case-insensitive "gmt" or "utc" prefix removed. */
  function StripZonePrefix(s: string): string
  {
    if |s| >= 3 && (ToUpper(s[..3]) == "GMT" || ToUpper(s[..3]) == "UTC") then s[3..] else s
  }

  lemma StripNoPrefix(s: string)
    requires |s| > 0 && IsSign(s[0])
    ensures StripZonePrefix(s) == s
  {
    if |s| >= 3 { assert ToUpper(s[..3])[0] == s[0]; }
  }

  /** What follows the sign, with Go's leftmost-first preference: the hour takes
      two digits when the rest still matches, then the minutes group is tried
      with and without its colon. Gives the hour digits and the minute digits. */
  function MatchBody(b: string): Option<(string, string)>
  {
    if |b| == 5 && IsDigit(b[0]) && IsDigit(b[1]) && b[2] == ':' && IsDigit(b[3]) && IsDigit(b[4]) then
      Some(([b[0], b[1]], [b[3], b[4]]))
    else if |b| == 4 && IsDigit(b[0]) && b[1] == ':' && IsDigit(b[2]) && IsDigit(b[3]) then
      Some(([b[0]], [b[2], b[3]]))
    else if |b| == 4 && IsDigit(b[0]) && IsDigit(b[1]) && IsDigit(b[2]) && IsDigit(b[3]) then
      Some(([b[0], b[1]], [b[2], b[3]]))
    else if |b| == 3 && IsDigit(b[0]) && IsDigit(b[1]) && IsDigit(b[2]) then
      Some(([b[0]], [b[1], b[2]]))
    else if |b| == 2 && IsDigit(b[0]) && IsDigit(b[1]) then
      Some(([b[0], b[1]], ""))
    else if |b| == 1 && IsDigit(b[0]) then
      Some(([b[0]], ""))
    else None
  }

  /** The whole offset pattern, anchored at both ends. */
  function MatchOffset(s: string): (r: Option<OffsetMatch>)
    ensures r.Some? ==> WellFormedMatch(r.value)
  {
    var t := StripZonePrefix(s);
    if |t| == 0 || !IsSign(t[0]) then None
    else
      match MatchBody(t[1..])
      case None => None
      case Some(p) => Some(OffsetMatch(t[0], p.0, p.1))
  }

  /** `strconv.Atoi` of the signed hour text. */
  function HourValue(m: OffsetMatch): (h: int)
    requires WellFormedMatch(m)
    ensures -100 < h < 100
  {
    ValueBelow100(m.hourDigits);
    var v: int := Value(m.hourDigits);
    if m.sign == '-' then -v else v
  }

  lemma ValueBelow100(s: string)
    requires AllDigits(s) && |s| <= 2
    ensures Value(s) < 100
  {
    if |s| == 2 { assert Value(s[..1]) < 10; }
  }

  /** `math.Copysign(x, h)` for a non-negative x: a zero hour counts as positive. */
  function CopySign(x: nat, h: int): int
  {
    if h < 0 then 0 - x else x
  }

  /** `tzToLocation` (identical in the handlers and in the scheduler): an IANA
      zone gives its own offset; otherwise an offset text gives
      hours * 3600 + CopySign(minutes * 60, hours); anything else is rejected. */
  function TzToLocation(zones: ZoneDb, tz: string): Option<int>
  {
    match LoadLocation(zones, tz)
    case Some(off) => Some(off)
    case None =>
      match MatchOffset(tz)
      case None => None
      case Some(m) =>
        Some(OffsetSeconds(HourValue(m), MinuteValue(m)))
  }

  /** The minutes group as a number, zero when it is absent. */
  function MinuteValue(m: OffsetMatch): nat
    requires WellFormedMatch(m)
  {
    if m.minutes == "" then 0 else Value(m.minutes)
  }

  /** hours * 3600 + CopySign(minutes * 60, hours). */
  function OffsetSeconds(h: int, mins: nat): int
  {
    h * 3600 + CopySign(mins * 60, h)
  }

  /** An offset text that is no zone name stands for the offset its match gives. */
  lemma TzOfOffsetText(zones: ZoneDb, tz: string, m: OffsetMatch)
    requires LoadLocation(zones, tz).None? && MatchOffset(tz) == Some(m)
    ensures TzToLocation(zones, tz) == Some(OffsetSeconds(HourValue(m), MinuteValue(m)))
  {
  }

  /** `%+03d` for an hour of at most two digits: a sign, then two digits. */
  function SignedHour(h: int): (s: string)
    requires -100 < h < 100
    ensures |s| == 3 && IsSign(s[0]) && IsDigit(s[1]) && IsDigit(s[2])
    ensures (s[0] == '-') == (h < 0)
    ensures Value(s[1..]) == if h < 0 then -h else h
  {
    var a := if h < 0 then -h else h;
    ZeroPadTwo(a);
    ValueOfZeroPad(a, 2);
    var s := (if h < 0 then "-" else "+") + ZeroPad(a, 2);
    assert s[1..] == ZeroPad(a, 2);
    s
  }

  /** `parseUserTZ`: the trimmed input when it names a zone; otherwise an offset
      text rewritten as sign, two-digit hour, ':' and the minutes ("00" when
      absent); None when neither applies. */
  function ParseUserTZ(zones: ZoneDb, input: string): Option<string>
  {
    var t := TrimSpace(input);
    if LoadLocation(zones, t).Some? then Some(t)
    else
      match MatchOffset(t)
      case None => None
      case Some(m) =>
        var mins := if m.minutes == "" then "00" else m.minutes;
        Some(SignedHour(HourValue(m)) + ":" + mins)
  }

  /** `validateTZ`: the normalised text, provided `tzToLocation` accepts it. */
  function ValidateTZ(zones: ZoneDb, input: string): Option<string>
  {
    match ParseUserTZ(zones, input)
    case None => None
    case Some(tz) => if TzToLocation(zones, tz).Some? then Some(tz) else None
  }

  /** On such a server "Local" typed at set-up is accepted as it is and
      resolves to the server's own offset. */
  lemma LocalIsServerZone(zones: ZoneDb, serverOffset: int, input: string)
    requires KnowsLocal(zones, serverOffset) && TrimSpace(input) == "Local"
    ensures ParseUserTZ(zones, input) == Some("Local") && ValidateTZ(zones, input) == Some("Local")
    ensures TzToLocation(zones, "Local") == Some(serverOffset)
  {
  }

  /** The normalised text of an offset is of the form "±HH:MM". */
  predicate IsNormalOffset(s: string)
  {
    |s| == 6 && IsSign(s[0]) && IsDigit(s[1]) && IsDigit(s[2]) && s[3] == ':' && IsDigit(s[4]) && IsDigit(s[5])
  }

  lemma NormalOffsetMatches(s: string)
    requires IsNormalOffset(s)
    ensures MatchOffset(s) == Some(OffsetMatch(s[0], [s[1], s[2]], [s[4], s[5]]))
    ensures TrimSpace(s) == s
  {
    StripNoPrefix(s);
    var b := s[1..];
    assert |b| == 5 && b[0] == s[1] && b[1] == s[2] && b[2] == ':' && b[3] == s[4] && b[4] == s[5];
    TrimSpaceKeeps(s);
  }

  /** Every successful normalisation is a zone name or an "±HH:MM" text. */
  lemma ParseUserTZShape(zones: ZoneDb, input: string)
    requires ParseUserTZ(zones, input).Some?
    ensures var tz := ParseUserTZ(zones, input).value;
      (tz == TrimSpace(input) && LoadLocation(zones, tz).Some?)
      || (LoadLocation(zones, TrimSpace(input)).None? && IsNormalOffset(tz))
  {
    var t := TrimSpace(input);
    if LoadLocation(zones, t).None? {
      var m := MatchOffset(t).value;
      var mins := if m.minutes == "" then "00" else m.minutes;
      var tz := SignedHour(HourValue(m)) + ":" + mins;
      assert tz[4] == mins[0] && tz[5] == mins[1];
    }
  }

  /** Normalising a normalised zone text changes nothing. */
  lemma ParseUserTZIdempotent(zones: ZoneDb, input: string)
    requires ParseUserTZ(zones, input).Some?
    ensures var tz := ParseUserTZ(zones, input).value; ParseUserTZ(zones, tz) == Some(tz)
  {
    var t := TrimSpace(input);
    if LoadLocation(zones, t).Some? {
      TrimSpaceKeeps(t);
    } else {
      var m := MatchOffset(t).value;
      OffsetTextReparses(zones, m, if m.minutes == "" then "00" else m.minutes);
    }
  }

  /** The "±HH:MM" text made from a match normalises to itself. */
  lemma OffsetTextReparses(zones: ZoneDb, m: OffsetMatch, mins: string)
    requires WellFormedMatch(m) && |mins| == 2 && AllDigits(mins)
    ensures var tz := SignedHour(HourValue(m)) + ":" + mins; ParseUserTZ(zones, tz) == Some(tz)
  {
    var h := HourValue(m);
    var hs := SignedHour(h);
    var tz := hs + ":" + mins;
    assert tz == [hs[0], hs[1], hs[2], ':', mins[0], mins[1]];
    assert IsNormalOffset(tz);
    NormalOffsetMatches(tz);
    if LoadLocation(zones, tz).None? {
      var m2 := OffsetMatch(hs[0], [hs[1], hs[2]], [mins[0], mins[1]]);
      assert [hs[1], hs[2]] == hs[1..];
      assert HourValue(m2) == h;
      assert [mins[0], mins[1]] == mins;
    }
  }

  /** `validateTZ` rejects nothing that `parseUserTZ` accepts: every
      normalised text resolves. */
  lemma ValidateAcceptsParsed(zones: ZoneDb, input: string)
    ensures ValidateTZ(zones, input) == ParseUserTZ(zones, input)
  {
    var p := ParseUserTZ(zones, input);
    if p.Some? {
      ResolvesParsed(zones, input);
    }
  }

  lemma ResolvesParsed(zones: ZoneDb, input: string)
    requires ParseUserTZ(zones, input).Some?
    ensures TzToLocation(zones, ParseUserTZ(zones, input).value).Some?
  {
    var tz := ParseUserTZ(zones, input).value;
    ParseUserTZShape(zones, input);
    if LoadLocation(zones, tz).None? {
      NormalOffsetMatches(tz);
      TzOfOffsetText(zones, tz, MatchOffset(tz).value);
    }
  }

  /** The offset an "±HH:MM" text stands for: the hour with its sign, the
      minutes carrying the hour's sign, where a zero hour counts as positive. */
  lemma {:induction false} NormalOffsetValue(zones: ZoneDb, s: string)
    requires IsNormalOffset(s) && LoadLocation(zones, s).None?
    ensures var v: int := Value([s[1], s[2]]);
      TzToLocation(zones, s) == Some(OffsetSeconds(if s[0] == '-' then -v else v, Value([s[4], s[5]])))
  {
    var m := OffsetMatch(s[0], [s[1], s[2]], [s[4], s[5]]);
    NormalOffsetMatches(s);
    TzOfOffsetText(zones, s, m);
    NormalOffsetParts(s);
  }

  lemma NormalOffsetParts(s: string)
    requires IsNormalOffset(s)
    ensures var m := OffsetMatch(s[0], [s[1], s[2]], [s[4], s[5]]); var v: int := Value([s[1], s[2]]);
      WellFormedMatch(m) && MinuteValue(m) == Value([s[4], s[5]])
      && HourValue(m) == if s[0] == '-' then -v else v
  {
  }

  /** "-0:30" is accepted and stored as "+00:30", thirty minutes EAST of
      UTC: the sign of a zero hour is lost. */
  lemma NegativeHalfHourFlips(zones: ZoneDb)
    requires "-0:30" !in zones && "+00:30" !in zones
    ensures ValidateTZ(zones, "-0:30") == Some("+00:30")
    ensures TzToLocation(zones, "+00:30") == Some(1800)
  {
    NegativeHalfHourNormalised(zones);
    HalfHourEast(zones);
  }

  /** Read directly, "-0:30" also stands for thirty minutes east. */
  lemma NegativeHalfHourReadEast(zones: ZoneDb)
    requires "-0:30" !in zones
    ensures TzToLocation(zones, "-0:30") == Some(1800)
  {
    MatchNegativeHalfHour();
    var m := OffsetMatch('-', "0", "30");
    TzOfOffsetText(zones, "-0:30", m);
    assert OffsetSeconds(0, 30) == 1800;
  }

  lemma HalfHourEast(zones: ZoneDb)
    requires "+00:30" !in zones
    ensures TzToLocation(zones, "+00:30") == Some(1800)
  {
    var s := "+00:30";
    assert s[0] == '+' && [s[1], s[2]] == "00" && s[3] == ':' && [s[4], s[5]] == "30";
    NormalOffsetValue(zones, s);
    assert Value("00") == 0 && Value("30") == 30 by { ValueOfTwo('0', '0'); ValueOfTwo('3', '0'); }
    assert OffsetSeconds(0, 30) == 1800;
  }

  lemma NegativeHalfHourNormalised(zones: ZoneDb)
    requires "-0:30" !in zones
    ensures ParseUserTZ(zones, "-0:30") == Some("+00:30")
  {
    var t := "-0:30";
    TrimSpaceKeeps(t);
    assert TrimSpace(t) == t;
    assert LoadLocation(zones, t).None?;
    MatchNegativeHalfHour();
    var m := OffsetMatch('-', "0", "30");
    SignedHourZero();
    assert SignedHour(HourValue(m)) + ":" + m.minutes == "+00:30";
  }

  lemma SignedHourZero()
    ensures SignedHour(0) == "+00"
  {
    assert ZeroPad(0, 2) == "00";
  }

  lemma MatchNegativeHalfHour()
    ensures MatchOffset("-0:30") == Some(OffsetMatch('-', "0", "30"))
    ensures WellFormedMatch(OffsetMatch('-', "0", "30"))
    ensures HourValue(OffsetMatch('-', "0", "30")) == 0 && MinuteValue(OffsetMatch('-', "0", "30")) == 30
  {
    StripNoPrefix("-0:30");
    assert "-0:30"[1..] == "0:30";
    ValueOfTwo('3', '0');
  }

  /** The offset pattern ignores the case of its prefix. */
  lemma PrefixCaseIgnored(zones: ZoneDb, body: string)
    requires "gmt" + body !in zones && "GMT" + body !in zones
    ensures TzToLocation(zones, "gmt" + body) == TzToLocation(zones, "GMT" + body)
  {
    var lo, up := "gmt" + body, "GMT" + body;
    assert lo[..3] == "gmt" && up[..3] == "GMT";
    assert ToUpper("gmt") == "GMT" && ToUpper("GMT") == "GMT";
    assert lo[3..] == body && up[3..] == body;
  }

  // ---------- gmtString ----------

  /** The "GMT±H" / "GMT±HH:MM" text of an offset in seconds; "GMT" for zero. */
  function GmtText(off: int): string
  {
    if off == 0 then "GMT"
    else
      var sign := if off < 0 then '-' else '+';
      var a := if off < 0 then -off else off;
      var h, m := a / 3600, a % 3600 / 60;
      if m == 0 then "GMT" + [sign] + Itoa(h)
      else "GMT" + [sign] + ZeroPad(h, 2) + ":" + ZeroPad(m, 2)
  }

  /** `gmtString`: "GMT" when the zone does not resolve, else the text of its offset. */
  function GmtString(zones: ZoneDb, tz: string): (s: string)
    ensures |s| >= 3 && s[..3] == "GMT"
    ensures TzToLocation(zones, tz).None? ==> s == "GMT"
  {
    match TzToLocation(zones, tz)
    case None => "GMT"
    case Some(off) => GmtText(off)
  }

  /** Reading the shown text back gives the offset it was made from, for every
      whole-minute offset below 100 hours, except negative offsets of less
      than an hour, which `NegativeHalfHourFlips` shows are read as positive. */
  lemma GmtTextRoundTrip(zones: ZoneDb, off: int)
    requires off != 0 && off % 60 == 0 && -360000 < off < 360000
    requires !(-3600 < off < 0)
    requires LoadLocation(zones, GmtText(off)).None?
    ensures TzToLocation(zones, GmtText(off)) == Some(off)
  {
    var sign := if off < 0 then '-' else '+';
    var a := if off < 0 then -off else off;
    var h, m := a / 3600, a % 3600 / 60;
    GmtTextParts(off);
    assert a == h * 3600 + m * 60 by { SplitWholeMinutes(a); }
    if m == 0 {
      assert GmtText(off) == "GMT" + [sign] + Itoa(h);
      assert off == if sign == '-' then -(h * 3600) else h * 3600;
      GmtHourReadBack(zones, sign, h);
    } else {
      assert GmtText(off) == "GMT" + [sign] + ZeroPad(h, 2) + ":" + ZeroPad(m, 2);
      assert off == if sign == '-' then -(h * 3600 + m * 60) else h * 3600 + m * 60;
      GmtHourMinuteReadBack(zones, sign, h, m);
    }
  }

  /** The two shapes of a non-zero offset's text. */
  lemma GmtTextParts(off: int)
    requires off != 0
    ensures var sign := if off < 0 then '-' else '+';
      var a := if off < 0 then -off else off;
      var h, m := a / 3600, a % 3600 / 60;
      GmtText(off) == if m == 0 then "GMT" + [sign] + Itoa(h) else "GMT" + [sign] + ZeroPad(h, 2) + ":" + ZeroPad(m, 2)
  {
  }

  lemma GmtHourReadBack(zones: ZoneDb, sign: char, h: nat)
    requires IsSign(sign) && h < 100 && (sign == '-' ==> h >= 1)
    requires LoadLocation(zones, "GMT" + [sign] + Itoa(h)).None?
    ensures TzToLocation(zones, "GMT" + [sign] + Itoa(h)) == Some(if sign == '-' then -(h * 3600) else h * 3600)
  {
    var d := Itoa(h);
    ValueOfItoa(h);
    if h >= 10 { ItoaTwoDigits(h); }
    MatchGmtHour(sign, d);
    var mt := OffsetMatch(sign, d, "");
    TzOfOffsetText(zones, "GMT" + [sign] + d, mt);
  }

  lemma GmtHourMinuteReadBack(zones: ZoneDb, sign: char, h: nat, m: nat)
    requires IsSign(sign) && h < 100 && 0 < m < 100 && (sign == '-' ==> h >= 1)
    requires LoadLocation(zones, "GMT" + [sign] + ZeroPad(h, 2) + ":" + ZeroPad(m, 2)).None?
    ensures TzToLocation(zones, "GMT" + [sign] + ZeroPad(h, 2) + ":" + ZeroPad(m, 2))
      == Some(if sign == '-' then -(h * 3600 + m * 60) else h * 3600 + m * 60)
  {
    var hh, mm := ZeroPad(h, 2), ZeroPad(m, 2);
    ZeroPadTwo(h);
    ZeroPadTwo(m);
    ValueOfZeroPad(h, 2);
    ValueOfZeroPad(m, 2);
    MatchGmtHourMinutes(sign, hh, mm);
    var mt := OffsetMatch(sign, hh, mm);
    TzOfOffsetText(zones, "GMT" + [sign] + hh + ":" + mm, mt);
  }

  lemma SplitWholeMinutes(a: int)
    requires 0 < a && a % 60 == 0
    ensures a == (a / 3600) * 3600 + (a % 3600 / 60) * 60
  {
    var q, r := a / 3600, a % 3600;
    assert a == q * 3600 + r;
    assert r == a - 60 * (q * 60);
    assert r % 60 == 0;
  }

  lemma StripGmt(body: string)
    ensures StripZonePrefix("GMT" + body) == body
  {
    var s := "GMT" + body;
    assert s[..3] == "GMT" && s[3..] == body;
    assert ToUpper("GMT") == "GMT";
  }

  lemma MatchGmtHour(sign: char, d: string)
    requires IsSign(sign) && AllDigits(d) && 1 <= |d| <= 2
    ensures MatchOffset("GMT" + [sign] + d) == Some(OffsetMatch(sign, d, ""))
  {
    var body := [sign] + d;
    assert "GMT" + [sign] + d == "GMT" + body;
    StripGmt(body);
    assert body[1..] == d;
    if |d| == 2 { assert d == [d[0], d[1]]; } else { assert d == [d[0]]; }
  }

  lemma MatchGmtHourMinutes(sign: char, hh: string, mm: string)
    requires IsSign(sign) && |hh| == 2 && |mm| == 2 && AllDigits(hh) && AllDigits(mm)
    ensures MatchOffset("GMT" + [sign] + hh + ":" + mm) == Some(OffsetMatch(sign, hh, mm))
  {
    var body := [sign] + hh + ":" + mm;
    assert "GMT" + [sign] + hh + ":" + mm == "GMT" + body;
    StripGmt(body);
    var b := body[1..];
    assert b == hh + ":" + mm;
    assert hh == [b[0], b[1]] && mm == [b[3], b[4]];
  }
}
