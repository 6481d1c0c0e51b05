/** What the Telegram bot acts on and what it sends (internal/bot): the
    chat a message comes from, the messages and keyboards it sends, and the
    part of the world a handler changes, the `users` table and the sent
    messages. Telegram itself is not modelled: a sent message is recorded
    in order, whether or not Telegram accepted it, since SendMessage only
    logs a failure. */
module Outbox {
  import opened Model

  const EmojiApproved: string := "✅"
  const EmojiDeclined: string := "❌"
  const EmojiAdmin: string := "👑"
  const EmojiUser: string := "👤"
  const EmojiAlert: string := "🚨"

  /** The fields of a Telegram chat the bot reads. */
  datatype Chat = Chat(id: int, firstName: string, lastName: string, username: string)

  /** An inline button: its label is `mark + " " + user.String()`, its data
      the callback payload. User.String is not part of this model, so the
      label keeps the user it names. */
  datatype Button = Button(mark: string, subject: User, data: string)

  /** One line of the /users listing: `mark + " " + user.String() + "\n"`. */
  datatype ListLine = ListLine(mark: string, subject: User)

  /** A message the bot sends. `Formatted` is `fmt.Sprintf(format, user)`. */
  datatype Outgoing =
    | Text(chatId: int, text: string)
    | Formatted(chatId: int, format: string, subject: User)
    | Keyboard(chatId: int, text: string, rows: seq<Button>)
    | UserList(chatId: int, lines: seq<ListLine>)

  /** The statements of one handler's repository calls that fail. */
  datatype Faults = Faults(user: bool, admins: bool, users: bool, add: bool, save: bool)

  const NoFaults: Faults := Faults(false, false, false, false, false)

  /** The state a handler changes. */
  datatype BotState = BotState(users: seq<User>, outbox: seq<Outgoing>)

  /** A handler's returned error and the state it leaves. */
  datatype Step = Step(err: Option<Error>, state: BotState)

  /** Some row of the table has the admin flag. */
  predicate HasAdmin(users: seq<User>) {
    exists i :: 0 <= i < |users| && users[i].admin
  }
}
