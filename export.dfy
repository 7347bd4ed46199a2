/**
 * The already-parsed Telegram Desktop export (the `result.json` document), as far
 * as the two parsers read it. A JSON object key that may be missing is an `Option`
 * field: `None` means the key is absent.
 */
module Export {
  import opened Wrappers

  /** A JSON scalar that the parsers copy into a row without inspecting it. */
  datatype Value = Null | Int(i: int) | Str(s: string)

  /** What the parsers raise: `KeyError` for a missing key, `TypeError` where a string is needed. */
  datatype Error = MissingKey(key: string) | NotAString(key: string)

  /** One element of a rich-text `text` list: a bare string, an entity object with `type` and `text`, or anything else. */
  datatype Run = Literal(s: string) | Typed(kind: Option<string>, text: Option<string>) | Unknown

  /** The `text` key holds a plain string or a list of runs. */
  datatype Content = Plain(s: string) | Runs(runs: seq<Run>)

  /** The `poll` object; only its `total_voters` key is read. */
  datatype Poll = Poll(totalVoters: Option<int>)

  /** The `location_information` object, coordinates already rendered as text. */
  datatype Location = Location(latitude: Option<string>, longitude: Option<string>)

  /** One entry of a chat's `messages` list; field comments give the JSON key where it differs. */
  datatype Message = Message(
    kind: Option<string>,             // "type"
    id: Option<Value>,
    sender: Option<Value>,            // "from"
    senderId: Option<Value>,          // "from_id"
    date: Option<string>,
    dateUnixtime: Option<Value>,      // "date_unixtime"
    replyTo: Option<Value>,           // "reply_to_message_id"
    forwardedFrom: Option<Value>,     // "forwarded_from"
    action: Option<Value>,
    text: Option<Content>,
    mediaType: Option<string>,        // "media_type"
    file: Option<string>,
    stickerEmoji: Option<string>,     // "sticker_emoji"
    photo: Option<string>,
    poll: Option<Poll>,
    location: Option<Location>)       // "location_information"

  /** A chat object: its `name` and its `messages` list. */
  datatype Chat = Chat(name: Option<Value>, messages: Option<seq<Message>>)

  /** The `chats` and `left_chats` containers, holding their chats under `list`. */
  datatype Container = Container(list: Option<seq<Chat>>)

  /**
   * The whole document. `top` is the document read as a chat on its own (its own
   * `name` and `messages` keys), used when it is a single-chat export.
   */
  datatype Document = Document(chats: Option<Container>, leftChats: Option<Container>, top: Chat)

  /** An entry that is a candidate for a row: its `type` is "message". */
  predicate IsMessage(m: Message)
  {
    m.kind == Some("message")
  }
}
