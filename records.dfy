/** The persisted records, the incoming messages and the outbound calls
    the bot can make. */
module Records {

  datatype Option<+T> = None | Some(value: T) {
    function GetOr(default: T): T {
      match this
      case Some(v) => v
      case None => default
    }
  }

  /** Python truthiness of a nullable text column: NULL and "" are false. */
  predicate TruthyText(o: Option<string>) {
    o.Some? && o.value != ""
  }

  /** Python truthiness of a nullable integer column: NULL and 0 are false. */
  predicate TruthyInt(o: Option<int>) {
    o.Some? && o.value != 0
  }

  /** The single row of the `settings` table, restricted to the columns the
      handlers read and write. */
  datatype Settings = Settings(
    channelId: Option<int>,
    startMessage: Option<string>,
    welcomeText: Option<string>,
    welcomePhoto: Option<string>,
    goodbyeText: Option<string>,
    goodbyePhoto: Option<string>,
    autoApprove: int,
    postPhoto: Option<string>,
    postText: Option<string>,
    postButtonText: Option<string>,
    postButtonUrl: Option<string>)

  /** The range of an SQLite INTEGER: binding a Python int outside it
      raises before the statement runs. */
  const MinInteger: int := -0x8000_0000_0000_0000
  const MaxInteger: int := 0x7FFF_FFFF_FFFF_FFFF

  predicate FitsInteger(n: int) {
    MinInteger <= n <= MaxInteger
  }

  /** `users` table: user id to its `is_admin` flag. */
  type Users = map<int, bool>

  /** The `SELECT is_admin FROM users WHERE user_id = ?` gate. */
  predicate IsAdmin(users: Users, uid: int) {
    uid in users && users[uid]
  }

  /** An incoming private message: plain text, or a photo (the file id of
      its largest size) with an optional caption. */
  datatype Msg = Text(text: string) | Photo(fileId: string, caption: Option<string>)

  /** `message.text`: absent on a photo message. */
  function MessageText(m: Msg): Option<string> {
    match m
    case Text(t) => Some(t)
    case Photo(_, _) => None
  }

  /** The inline call-to-action button of a post. */
  datatype Button = Button(text: Option<string>, url: Option<string>)

  /** The outbound platform calls the modelled handlers choose between. */
  datatype Action =
    | SendText(chatId: int, text: string)
    | SendPhoto(chatId: int, photo: string, caption: string)
    | Approve(chatId: int, userId: int)
    | PostText(chatId: int, postText: Option<string>, button: Button)
    | PostPhoto(chatId: int, photo: string, postCaption: Option<string>, button: Button)
}
