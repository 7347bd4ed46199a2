/**
 * The class-based parser: `TelegramChatParser.process_message`, `process_chat` and
 * the choice of chats inside `process`. The class holds only the constant lists its
 * constructor builds (the columns, the file types and the mention types), so its
 * methods are modelled as the module's methods over those constants.
 */
module TelegramChatParser {
  import opened Wrappers
  import opened Export
  import opened Text
  import opened Normalize

  /** The CSV columns, in order. */
  const COLUMNS: seq<string> := [
    "msg_id", "sender", "sender_id", "reply_to_msg_id", "date", "date_unixtime", "msg_type",
    "msg_content", "forwarded_from", "action", "has_mention", "has_email", "has_phone",
    "has_hashtag", "is_bot_command"]

  /** A row, field by field in the order of `COLUMNS`; the five flags are in `flags`. */
  datatype Row = Row(
    msgId: Value,
    sender: Value,
    senderId: Value,
    replyToMsgId: Value,
    date: string,
    dateUnixtime: Value,
    msgType: string,
    msgContent: string,
    forwardedFrom: Value,
    action: Value,
    flags: Flags)

  /** The row of a message, `None` for an entry that is not a message, or the missing key. */
  function RowOf(m: Message): Result<Option<Row>, Error>
  {
    if m.kind.None? then Err(MissingKey("type"))
    else if !IsMessage(m) then Ok(None)
    else if m.id.None? then Err(MissingKey("id"))
    else if m.sender.None? then Err(MissingKey("from"))
    else if m.senderId.None? then Err(MissingKey("from_id"))
    else if m.date.None? then Err(MissingKey("date"))
    else if m.dateUnixtime.None? then Err(MissingKey("date_unixtime"))
    else match NormalForm(m)
      case Err(e) => Err(e)
      case Ok(n) =>
        Ok(Some(Row(m.id.value, m.sender.value, m.senderId.value, m.replyTo.GetOr(Str("")),
                    m.date.value, m.dateUnixtime.value, n.msgType, n.content,
                    m.forwardedFrom.GetOr(Str("")), m.action.GetOr(Str("")), n.flags)))
  }

  /** Some key this parser reads unconditionally from a message is absent. */
  predicate LacksRequired(m: Message)
  {
    m.id.None? || m.sender.None? || m.senderId.None? || m.date.None? || m.dateUnixtime.None?
  }

  /** `process_message`. */
  method ProcessMessage(m: Message) returns (r: Result<Option<Row>, Error>)
    ensures r == RowOf(m)
  {
    if m.kind.None? {
      return Err(MissingKey("type"));
    }
    if m.kind.value != "message" {
      return Ok(None);
    }
    if m.id.None? {
      return Err(MissingKey("id"));
    }
    if m.sender.None? {
      return Err(MissingKey("from"));
    }
    if m.senderId.None? {
      return Err(MissingKey("from_id"));
    }
    if m.date.None? {
      return Err(MissingKey("date"));
    }
    if m.dateUnixtime.None? {
      return Err(MissingKey("date_unixtime"));
    }
    var replyToMsgId := m.replyTo.GetOr(Str(""));
    var action := m.action.GetOr(Str(""));
    var forwardedFrom := m.forwardedFrom.GetOr(Str(""));
    var n := ClassifyAndFlatten(m);
    if n.Err? {
      return Err(n.error);
    }
    r := Ok(Some(Row(m.id.value, m.sender.value, m.senderId.value, replyToMsgId, m.date.value,
                     m.dateUnixtime.value, n.value.msgType, n.value.content, forwardedFrom,
                     action, n.value.flags)));
  }

  /** An entry gives a row exactly when its type is "message"; any other type is skipped. */
  lemma RowOnlyForMessages(m: Message)
    ensures RowOf(m).Ok? ==> (RowOf(m).value.Some? <==> IsMessage(m))
    ensures m.kind.Some? && !IsMessage(m) ==> RowOf(m) == Ok(None)
  {
  }

  /** The missing-key cases: no `type`, or a message lacking a required key or failing normalisation. */
  lemma RowFails(m: Message)
    ensures RowOf(m).Err? <==> m.kind.None? || (IsMessage(m) && (LacksRequired(m) || NormalForm(m).Err?))
  {
  }

  /**
   * A row copies the message's keys, with "" for an absent reply, forward or action,
   * and carries the normalised type, a newline-free content and 0/1 flags.
   */
  lemma RowFields(m: Message)
    requires RowOf(m).Ok? && RowOf(m).value.Some?
    ensures var row := RowOf(m).value.value;
      && Some(row.msgId) == m.id && Some(row.sender) == m.sender && Some(row.senderId) == m.senderId
      && Some(row.date) == m.date && Some(row.dateUnixtime) == m.dateUnixtime
      && row.replyToMsgId == (if m.replyTo.Some? then m.replyTo.value else Str(""))
      && row.forwardedFrom == (if m.forwardedFrom.Some? then m.forwardedFrom.value else Str(""))
      && row.action == (if m.action.Some? then m.action.value else Str(""))
      && NormalForm(m) == Ok(Normalized(row.msgType, row.msgContent, row.flags))
      && '\n' !in row.msgContent
      && row.flags.Binary()
  {
    NoNewlineBinaryFlags(m);
  }

  /** What `process_chat` returns: the chat's name and its rows. */
  datatype ChatDump = ChatDump(chat: Value, rows: seq<Row>)

  /** The dump of a chat: its `name`, then its rows; a missing key or failing message is an error. */
  function ChatOf(c: Chat): Result<ChatDump, Error>
  {
    if c.name.None? then Err(MissingKey("name"))
    else if c.messages.None? then Err(MissingKey("messages"))
    else match Collect(RowOf, c.messages.value)
      case Err(e) => Err(e)
      case Ok(rows) => Ok(ChatDump(c.name.value, rows))
  }

  /** `process_chat`. */
  method ProcessChat(c: Chat) returns (r: Result<ChatDump, Error>)
    ensures r == ChatOf(c)
  {
    if c.name.None? {
      return Err(MissingKey("name"));
    }
    var chat := c.name.value;
    if c.messages.None? {
      return Err(MissingKey("messages"));
    }
    var messages := c.messages.value;
    var rows: seq<Row> := [];
    var i := 0;
    CollectEnds(RowOf, messages, rows);
    while i < |messages|
      invariant 0 <= i <= |messages|
      invariant Collect(RowOf, messages) == Prepend(rows, Collect(RowOf, messages[i..]))
    {
      CollectStep(RowOf, messages, i, rows);
      var row := ProcessMessage(messages[i]);
      if row.Err? {
        return Err(row.error);
      }
      if row.value.Some? {
        rows := rows + [row.value.value];
      }
      i := i + 1;
    }
    CollectEnds(RowOf, messages, rows);
    return Ok(ChatDump(chat, rows));
  }

  /**
   * A chat's rows are one per entry of type "message", in input order, so there are
   * never more rows than messages.
   */
  lemma ChatRowsInOrder(c: Chat)
    requires ChatOf(c).Ok?
    ensures c.messages.Some?
    ensures var rows := ChatOf(c).value.rows; var kept := Kept(c.messages.value);
      && |rows| == |kept| <= |c.messages.value|
      && forall i :: 0 <= i < |kept| ==> RowOf(kept[i]) == Ok(Some(rows[i]))
  {
    forall m ensures RowOf(m).Ok? ==> (RowOf(m).value.Some? <==> IsMessage(m)) {
      RowOnlyForMessages(m);
    }
    CollectKeepsMessages(RowOf, c.messages.value);
  }

  /** The chats of a document: the `chats` list, else the `left_chats` list, else the document itself. */
  function SelectChats(doc: Document): Result<seq<Chat>, Error>
  {
    if doc.chats.Some? then
      if doc.chats.value.list.None? then Err(MissingKey("list")) else Ok(doc.chats.value.list.value)
    else if doc.leftChats.Some? then
      if doc.leftChats.value.list.None? then Err(MissingKey("list")) else Ok(doc.leftChats.value.list.value)
    else Ok([doc.top])
  }

  /** The list comprehension over the selected chats: one dump per chat, in order, or the first error. */
  function ProcessAll(cs: seq<Chat>): (r: Result<seq<ChatDump>, Error>)
    ensures r.Err? <==> exists i :: 0 <= i < |cs| && ChatOf(cs[i]).Err?
    ensures r.Ok? ==> |r.value| == |cs| && forall i :: 0 <= i < |cs| ==> ChatOf(cs[i]) == Ok(r.value[i])
    decreases |cs|
  {
    if cs == [] then Ok([])
    else match ChatOf(cs[0])
      case Err(e) => Err(e)
      case Ok(d) =>
        match ProcessAll(cs[1..])
        case Err(e) =>
          assert exists i :: 0 <= i < |cs| && ChatOf(cs[i]).Err? by {
            var i :| 0 <= i < |cs[1..]| && ChatOf(cs[1..][i]).Err?;
            assert ChatOf(cs[i + 1]).Err?;
          }
          Err(e)
        case Ok(rest) => Ok([d] + rest)
  }

  /** The dispatch in `process` over an already-parsed document. */
  function Process(doc: Document): (r: Result<seq<ChatDump>, Error>)
    ensures r.Ok? ==> SelectChats(doc).Ok?
    ensures r.Ok? ==>
      var cs := SelectChats(doc).value;
      |r.value| == |cs| && forall i :: 0 <= i < |cs| ==> ChatOf(cs[i]) == Ok(r.value[i])
    ensures SelectChats(doc).Ok? ==> (r.Err? <==> exists i :: 0 <= i < |SelectChats(doc).value| && ChatOf(SelectChats(doc).value[i]).Err?)
  {
    match SelectChats(doc)
    case Err(e) => Err(e)
    case Ok(cs) => ProcessAll(cs)
  }

  /** With a `chats` container, the result is one dump per element of its list, whatever `left_chats` holds. */
  lemma ChatsFirst(doc: Document, cs: seq<Chat>)
    requires doc.chats == Some(Container(Some(cs)))
    ensures Process(doc).Ok? ==>
      |Process(doc).value| == |cs| && forall i :: 0 <= i < |cs| ==> ChatOf(cs[i]) == Ok(Process(doc).value[i])
    ensures forall x :: Process(doc.(leftChats := x)) == Process(doc)
  {
  }

  /** Without `chats` but with `left_chats`, the result is one dump per element of that list. */
  lemma LeftChatsNext(doc: Document, cs: seq<Chat>)
    requires doc.chats.None? && doc.leftChats == Some(Container(Some(cs)))
    ensures Process(doc).Ok? ==>
      |Process(doc).value| == |cs| && forall i :: 0 <= i < |cs| ==> ChatOf(cs[i]) == Ok(Process(doc).value[i])
  {
  }

  /** Without either container, the whole document is the one chat. */
  lemma WholeDocument(doc: Document)
    requires doc.chats.None? && doc.leftChats.None?
    ensures Process(doc) == match ChatOf(doc.top) case Err(e) => Err(e) case Ok(d) => Ok([d])
  {
    assert [doc.top][1..] == [];
    match ChatOf(doc.top)
    case Err(_) =>
    case Ok(d) => assert [d] + [] == [d];
  }

  /** A container without `list` is a missing-key error. */
  lemma ContainerWithoutList(doc: Document)
    requires doc.chats == Some(Container(None)) || (doc.chats.None? && doc.leftChats == Some(Container(None)))
    ensures Process(doc) == Err(MissingKey("list"))
  {
  }
}
