/** The part of the Telegram Bot API the bot uses: sending a message with an
    optional keyboard, answering a callback query and editing a message's
    inline keyboard. The bot's outbox records every request in order; whether
    Telegram accepts a message is not known in advance, so a send either gives
    a positive message id or fails. Message texts are named by their role
    rather than spelled out in Russian. */
module Telegram {
  import opened Models

  /** An inline button: the caption shown and the callback payload it sends. */
  datatype Button = Button(caption: string, data: string)

  datatype Markup =
    | NoMarkup
    | Inline(buttons: seq<seq<Button>>)
    | Keyboard(labels: seq<seq<string>>)

  /** The texts the bot sends. */
  datatype Say =
    // questions of the day
    | MorningCall                       // "Доброе утро! Как самочувствие?"
    | MorningCallAfterSetup             // "Доброе утро! Опишите своё самочувствие"
    | DinnerCall(hoursLeft: int)        // "Пора ужинать! До конца дня осталось N ч."
    | DinnerCallAfterSetup(hoursLeft: int) // "Пора ужинать, до конца дня осталось N ч."
    // replies of the newer handlers
    | Thanks | ReenterComplaints | SettingsSaved | Debug(state: State)
    | AskMorningTime | AskEveningTime | AskTimezone | AskTimezoneShort
    | EnjoyEvening | AskDinnerTime | BadTimeFormat | ConfirmComplaints | DinnerSaved
    | DropFailed | DropDone | ConfirmSettingsFirst | Help | StatsNotReady | DataCleared
    | AlreadyRunning(state: State) | CurrentState(state: State)
    | Settings(morningAt: string, eveningAt: string, zone: string)
    | Blank                             // the invisible separator carrying a keyboard
    // replies of the older handlers
    | MainMenu | DescribeComplaints | HaveANiceDay | AskDinnerTimeShort
    | ComplaintsSaved | TimeFormatHint | SavedThanks

  datatype Outgoing =
    | Message(chatId: int, say: Say, markup: Markup, replyTo: int)
    | CallbackAnswer(queryId: string, text: string)
    | EditMarkup(chatId: int, messageId: int, markup: Markup)

  datatype SendResult = Sent(messageId: int) | Failed

  /** The id of the returned message; a failed send returns the zero message. */
  function MessageId(r: SendResult): (id: int)
    ensures r.Failed? ==> id == 0
    ensures r.Sent? ==> id == r.messageId
  {
    if r.Sent? then r.messageId else 0
  }

  class Bot {
    var outbox: seq<Outgoing>

    constructor ()
      ensures outbox == []
    {
      outbox := [];
    }

    /** `Bot.Send`: the message joins the outbox whether or not Telegram
        accepts it. */
    method Send(m: Outgoing) returns (r: SendResult)
      modifies this
      ensures outbox == old(outbox) + [m]
      ensures r.Sent? ==> r.messageId > 0
    {
      outbox := outbox + [m];
      if * {
        var id: int :| id > 0;
        r := Sent(id);
      } else {
        r := Failed;
      }
    }

    /** `Bot.Request` for callback answers and markup edits; its result is
        never inspected by the bot. */
    method Request(m: Outgoing)
      modifies this
      ensures outbox == old(outbox) + [m]
    {
      outbox := outbox + [m];
    }
  }
}
