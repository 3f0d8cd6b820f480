/** The records the store is built from (internal/models/models.go) and the
    coarse session state the handlers keep per chat. */
module Models {

  datatype Option<T> = None | Some(value: T)

  /** The per-chat session state. The source keeps it as a string column with
      exactly these five values. */
  datatype State = NotStarted | Initial | WaitingMorning | WaitingEvening | Idle

  /** Which daily question a pending row belongs to; `Name()` is the text kept
      in the `type` column and in the suffix of a date key. */
  datatype Period = Morning | Evening {
    function Name(): (s: string)
      ensures s == "morning" || s == "evening"
    {
      if Morning? then "morning" else "evening"
    }
  }

  /** Bot settings of one chat: `tz` is an IANA name or a "+03:00" offset,
      `morningAt` and `eveningAt` are meant to be "HH:MM" local times. */
  datatype User = User(chatId: int, tz: string, morningAt: string, eveningAt: string, createdAt: int)

  /** One day of one chat: `day` is "YYYY-MM-DD", empty complaints mean "no
      complaints", and `dinnerAt` (Unix seconds) is None when not yet set. */
  datatype DayRecord = DayRecord(chatId: int, day: string, complaints: string, dinnerAt: Option<int>)

  /** A question that was sent and not yet answered: `dateKey` is
      "YYYY-MM-DD-morning" or "YYYY-MM-DD-evening"; times are Unix seconds. */
  datatype PendingMessage = PendingMessage(
    id: int, chatId: int, dateKey: string, kind: Period,
    msgId: int, createdAt: int, remindedAt: int)

  /** The transient "waiting for X" marker of one chat. */
  datatype UserState = UserState(chatId: int, state: string)

  /** How a handler invocation ends: normally, by a Go runtime panic (a nil
      pointer or an out-of-range slice), or by log.Fatal, which stops the
      process. */
  datatype Outcome = Done | Panic | Fatal

  /** The settings a chat gets on first contact. */
  const DefaultTz := "Europe/Moscow"
  const DefaultMorning := "10:00"
  const DefaultEvening := "18:00"

  /** A fresh user as the /start paths create it: the created-at time is
      filled in by the store. */
  function DefaultUser(chatId: int): User
  {
    User(chatId, DefaultTz, DefaultMorning, DefaultEvening, 0)
  }
}
