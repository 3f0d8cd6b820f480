/** What a handler sees and changes: the incoming update, the store's tables
    and everything the bot has sent, with the small reads and writes of the
    tables that both generations of handlers share. */
module Worlds {
  import opened Models
  import opened Storage
  import opened Telegram
  import opened Zones

  /** A chat message: its id, when it was sent, its text and, for a reply,
      the text of the message it answers. */
  datatype Incoming = Incoming(chatId: int, messageId: int, sentAt: int, text: string, replyTo: Option<string>)

  /** A pressed inline button: the query id, its payload and the message the
      button sits under. */
  datatype Query = Query(id: string, data: string, message: Incoming)

  /** What the handlers see besides the update: the zone database, the
      server's zone and the store's column defaults. */
  datatype Env = Env(zones: ZoneDb, serverOffset: int, defaults: DayRow)

  /** The store's tables together with everything sent so far. */
  datatype World = World(tables: Tables, outbox: seq<Outgoing>)

  /** A world after a handler, and how the handler ended. */
  datatype Step = Step(world: World, outcome: Outcome)

  /** The user row of a chat, if any. */
  function UserOf(t: Tables, c: int): Option<User>
  {
    if c in t.users then Some(t.users[c]) else None
  }

  /** The wait state of a chat; no row reads as "". */
  function WaitOf(t: Tables, c: int): string
  {
    if c in t.userStates then t.userStates[c] else ""
  }

  /** The session state of a chat; no row reads as NotStarted. */
  function SessionOf(t: Tables, c: int): State
  {
    if c in t.sessions then t.sessions[c] else NotStarted
  }

  function WithWait(t: Tables, c: int, s: string): Tables
  {
    t.(userStates := t.userStates[c := s])
  }

  /** A text message without markup that replies to nothing. */
  function Plain(c: int, say: Say): Outgoing
  {
    Message(c, say, NoMarkup, 0)
  }

  /** The world with `ms` sent after everything else. */
  function Emit(w: World, ms: seq<Outgoing>): World
  {
    w.(outbox := w.outbox + ms)
  }

  /** `ensureUser`: a chat without a user row gets the default settings. */
  function EnsureUser(t: Tables, c: int, now: int): Tables
  {
    if c in t.users then t else t.(users := t.users[c := DefaultUser(c).(createdAt := now)])
  }
}
