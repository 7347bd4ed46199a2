/**
 * The stand-alone script: `process_message`, `get_chat_name` with its process-wide
 * counter of unnamed chats, the message loop of `parse_telegram_to_csv` and the
 * choice between the `chats` list and the whole document.
 */
module ParserScript {
  import opened Wrappers
  import opened Export
  import opened Text
  import opened Normalize
  import TelegramChatParser

  /** The CSV columns, in order. */
  const COLUMNS: seq<string> := [
    "msg_id", "sender", "sender_id", "reply_to_msg_id", "date", "msg_type", "msg_content",
    "has_mention", "has_email", "has_phone", "has_hashtag", "is_bot_command"]

  /** A row, field by field in the order of `COLUMNS`; the five flags are in `flags`. */
  datatype Row = Row(
    msgId: Value,
    sender: Value,
    senderId: Value,
    replyToMsgId: Value,
    date: string,
    msgType: string,
    msgContent: string,
    flags: Flags)

  /** The row of a message, `None` for an entry that is not a message, or the missing key. */
  function RowOf(m: Message): Result<Option<Row>, Error>
  {
    if m.kind.None? then Err(MissingKey("type"))
    else if !IsMessage(m) then Ok(None)
    else if m.id.None? then Err(MissingKey("id"))
    else if m.sender.None? then Err(MissingKey("from"))
    else if m.senderId.None? then Err(MissingKey("from_id"))
    else if m.date.None? then Err(MissingKey("date"))
    else match NormalForm(m)
      case Err(e) => Err(e)
      case Ok(n) =>
        Ok(Some(Row(m.id.value, m.sender.value, m.senderId.value, m.replyTo.GetOr(Int(-1)),
                    Subst(m.date.value, 'T', ' '), n.msgType, n.content, n.flags)))
  }

  /** `process_message`. */
  method ProcessMessage(m: Message) returns (r: Result<Option<Row>, Error>)
    ensures r == RowOf(m)
  {
    if m.kind.None? {
      return Err(MissingKey("type"));
    }
    if m.kind.value != "message" {
      return Ok(None);
    }
    if m.id.None? {
      return Err(MissingKey("id"));
    }
    if m.sender.None? {
      return Err(MissingKey("from"));
    }
    if m.senderId.None? {
      return Err(MissingKey("from_id"));
    }
    var replyToMsgId := m.replyTo.GetOr(Int(-1));
    if m.date.None? {
      return Err(MissingKey("date"));
    }
    var date := Subst(m.date.value, 'T', ' ');
    var n := ClassifyAndFlatten(m);
    if n.Err? {
      return Err(n.error);
    }
    r := Ok(Some(Row(m.id.value, m.sender.value, m.senderId.value, replyToMsgId, date,
                     n.value.msgType, n.value.content, n.value.flags)));
  }

  /** An entry gives a row exactly when its type is "message"; any other type is skipped. */
  lemma RowOnlyForMessages(m: Message)
    ensures RowOf(m).Ok? ==> (RowOf(m).value.Some? <==> IsMessage(m))
    ensures m.kind.Some? && !IsMessage(m) ==> RowOf(m) == Ok(None)
  {
  }

  /**
   * A row copies the message's id, sender and sender id; its reply id is -1 when the
   * message replies to nothing; its date is the message's date with every 'T' turned
   * into a space and nothing else changed; its type, content and flags are the
   * message's normal form, so its content has no newline and its flags are 0 or 1.
   */
  lemma RowFields(m: Message)
    requires RowOf(m).Ok? && RowOf(m).value.Some?
    ensures var row := RowOf(m).value.value; var date := m.date.value;
      && Some(row.msgId) == m.id && Some(row.sender) == m.sender && Some(row.senderId) == m.senderId
      && NormalForm(m) == Ok(Normalized(row.msgType, row.msgContent, row.flags))
      && row.replyToMsgId == (if m.replyTo.Some? then m.replyTo.value else Int(-1))
      && |row.date| == |date|
      && (forall i :: 0 <= i < |date| ==> row.date[i] == (if date[i] == 'T' then ' ' else date[i]))
      && 'T' !in row.date
      && '\n' !in row.msgContent
      && row.flags.Binary()
  {
    SubstRemoves(m.date.value, 'T', ' ');
    NoNewlineBinaryFlags(m);
  }

  /**
   * Where the class-based parser gives a row, the script gives one too, with the same
   * id, sender, type, content and flags. The two files' classification and flattening
   * (telegram-chat-parser.py lines 68-123, telegram_chat_parser.py lines 117-166) are the
   * same logic, so both rows are built from the one `NormalForm`: the agreement of the
   * normal forms is a modelling decision read off the two sources, and this lemma
   * carries it over to the rows, where the two parsers differ in what they read and
   * in which order.
   */
  lemma SameClassification(m: Message)
    requires TelegramChatParser.RowOf(m).Ok? && TelegramChatParser.RowOf(m).value.Some?
    ensures RowOf(m).Ok? && RowOf(m).value.Some?
    ensures var a := TelegramChatParser.RowOf(m).value.value; var b := RowOf(m).value.value;
      && a.msgId == b.msgId && a.sender == b.sender && a.senderId == b.senderId
      && a.msgType == b.msgType && a.msgContent == b.msgContent && a.flags == b.flags
  {
  }

  /** A chat whose `name` is absent or null. */
  predicate Unnamed(name: Option<Value>)
  {
    name.None? || name == Some(Null)
  }

  /** The name given to the `n`-th unnamed chat. */
  function SyntheticName(n: nat): string
  {
    "UnnamedChat-" + NatToString(n)
  }

  /** Distinct counter values give distinct synthetic names. */
  lemma SyntheticNamesDistinct(a: nat, b: nat)
    requires a != b
    ensures SyntheticName(a) != SyntheticName(b)
  {
    if SyntheticName(a) == SyntheticName(b) {
      assert SyntheticName(a)[12..] == NatToString(a);
      assert SyntheticName(b)[12..] == NatToString(b);
      NatToStringInjective(a, b);
    }
  }

  /** A stripped name never contains '-', so it never equals a synthetic name. */
  lemma StrippedNotSynthetic(s: string, n: nat)
    ensures StripNonWord(s) != SyntheticName(n)
  {
    assert SyntheticName(n)[11] == '-';
    assert !IsNameChar('-');
  }

  /** How many of the first `k` chats of `cs` are unnamed, and so move the counter on. */
  function UnnamedAmong(cs: seq<Chat>, k: nat): (r: nat)
    requires k <= |cs|
    ensures r <= k
  {
    if k == 0 then 0 else UnnamedAmong(cs, k - 1) + (if Unnamed(cs[k - 1].name) then 1 else 0)
  }

  /**
   * Chats parsed in turn from the counter value `n0`: one result per chat, each with its
   * chat's rows; a named chat gets its stripped name, the k-th unnamed chat the synthetic
   * name of `n0 + k`; and no two names are equal when one of the chats is unnamed.
   */
  ghost predicate ParsedInTurn(cs: seq<Chat>, out: seq<ParsedChat>, n0: nat)
  {
    && |out| == |cs|
    && (forall k {:trigger ChatRows(cs[k])} :: 0 <= k < |cs| ==> ChatRows(cs[k]) == Ok(out[k].rows))
    && (forall k :: 0 <= k < |cs| && !Unnamed(cs[k].name) ==>
          cs[k].name.value.Str? && out[k].name == StripNonWord(cs[k].name.value.s))
    && (forall k :: 0 <= k < |cs| && Unnamed(cs[k].name) ==>
          out[k].name == SyntheticName(n0 + UnnamedAmong(cs, k + 1)))
    && (forall a, b :: 0 <= a < b < |cs| && (Unnamed(cs[a].name) || Unnamed(cs[b].name)) ==>
          out[a].name != out[b].name)
  }

  /** Counting over fewer chats never gives more. */
  lemma {:induction false} UnnamedAmongMonotone(cs: seq<Chat>, i: nat, j: nat)
    requires i <= j <= |cs|
    ensures UnnamedAmong(cs, i) <= UnnamedAmong(cs, j)
  {
    if i < j {
      UnnamedAmongMonotone(cs, i, j - 1);
    }
  }

  /** An unnamed chat at `b` counts one more than every chat before it. */
  lemma UnnamedAmongGrows(cs: seq<Chat>, a: nat, b: nat)
    requires a < b < |cs| && Unnamed(cs[b].name)
    ensures UnnamedAmong(cs, a + 1) < UnnamedAmong(cs, b + 1)
  {
    UnnamedAmongMonotone(cs, a + 1, b);
  }

  /** The first |out| chats are parsed from the counter value `n0`, which has moved on to `n`. */
  ghost predicate NamedInTurn(cs: seq<Chat>, out: seq<ParsedChat>, n0: nat, n: nat)
  {
    RowsInTurn(cs, out) && NamesInTurn(cs, out, n0, n)
  }

  /** The first |out| chats' rows. */
  ghost predicate RowsInTurn(cs: seq<Chat>, out: seq<ParsedChat>)
  {
    && |out| <= |cs|
    && (forall k {:trigger ChatRows(cs[k])} :: 0 <= k < |out| ==> ChatRows(cs[k]) == Ok(out[k].rows))
  }

  /** The first |out| chats' names, with the counter moved on once per unnamed chat. */
  ghost predicate NamesInTurn(cs: seq<Chat>, out: seq<ParsedChat>, n0: nat, n: nat)
  {
    && |out| <= |cs|
    && n == n0 + UnnamedAmong(cs, |out|)
    && (forall k :: 0 <= k < |out| && Unnamed(cs[k].name) ==>
          out[k].name == SyntheticName(n0 + UnnamedAmong(cs, k + 1)))
    && (forall k :: 0 <= k < |out| && !Unnamed(cs[k].name) ==>
          cs[k].name.value.Str? && out[k].name == StripNonWord(cs[k].name.value.s))
  }

  /** Parsing the next chat, after the counter has moved on for it, keeps the bookkeeping. */
  lemma NamedInTurnStep(cs: seq<Chat>, out: seq<ParsedChat>, n0: nat, n: nat, p: ParsedChat)
    requires NamedInTurn(cs, out, n0, n) && |out| < |cs|
    requires ParsedOf(cs[|out|], n + (if Unnamed(cs[|out|].name) then 1 else 0)) == Ok(p)
    ensures NamedInTurn(cs, out + [p], n0, n + (if Unnamed(cs[|out|].name) then 1 else 0))
  {
    var i := |out|;
    var out' := out + [p];
    assert ChatRows(cs[i]) == Ok(p.rows);
    forall k {:trigger ChatRows(cs[k])} | 0 <= k < |out'|
      ensures ChatRows(cs[k]) == Ok(out'[k].rows)
    {
      if k < i {
        assert out'[k] == out[k];
      }
    }
    NamesInTurnStep(cs, out, n0, n, p);
  }

  /** The names half of `NamedInTurnStep`. */
  lemma NamesInTurnStep(cs: seq<Chat>, out: seq<ParsedChat>, n0: nat, n: nat, p: ParsedChat)
    requires NamesInTurn(cs, out, n0, n) && |out| < |cs|
    requires NameFor(cs[|out|].name, n + (if Unnamed(cs[|out|].name) then 1 else 0)) == Ok(p.name)
    ensures NamesInTurn(cs, out + [p], n0, n + (if Unnamed(cs[|out|].name) then 1 else 0))
  {
    var i := |out|;
    var next := n + (if Unnamed(cs[i].name) then 1 else 0);
    var out' := out + [p];
    assert next == n0 + UnnamedAmong(cs, i + 1);
    forall k | 0 <= k < |out'| && Unnamed(cs[k].name)
      ensures out'[k].name == SyntheticName(n0 + UnnamedAmong(cs, k + 1))
    {
      if k < i {
        assert out'[k] == out[k];
      }
    }
    forall k | 0 <= k < |out'| && !Unnamed(cs[k].name)
      ensures cs[k].name.value.Str? && out'[k].name == StripNonWord(cs[k].name.value.s)
    {
      if k < i {
        assert out'[k] == out[k];
      }
    }
  }

  /**
   * Once every chat is parsed, the counter has moved on once per unnamed chat and
   * unnamed chats never share a name with another chat.
   */
  lemma NamesDistinct(cs: seq<Chat>, out: seq<ParsedChat>, n0: nat, n: nat)
    requires NamedInTurn(cs, out, n0, n) && |out| == |cs|
    ensures n == n0 + UnnamedAmong(cs, |cs|)
    ensures ParsedInTurn(cs, out, n0)
  {
    forall a, b | 0 <= a < b < |cs| && (Unnamed(cs[a].name) || Unnamed(cs[b].name))
      ensures out[a].name != out[b].name
    {
      NamesApart(cs, out, n0, n, a, b);
    }
  }

  /** Two chats parsed in turn, one of them unnamed, get different names. */
  lemma NamesApart(cs: seq<Chat>, out: seq<ParsedChat>, n0: nat, n: nat, a: nat, b: nat)
    requires NamesInTurn(cs, out, n0, n) && a < b < |out|
    requires Unnamed(cs[a].name) || Unnamed(cs[b].name)
    ensures out[a].name != out[b].name
  {
    var ida, idb := n0 + UnnamedAmong(cs, a + 1), n0 + UnnamedAmong(cs, b + 1);
    if Unnamed(cs[a].name) && Unnamed(cs[b].name) {
      UnnamedAmongGrows(cs, a, b);
      SyntheticNamesDistinct(ida, idb);
    } else if Unnamed(cs[a].name) {
      StrippedNotSynthetic(cs[b].name.value.s, ida);
    } else {
      StrippedNotSynthetic(cs[a].name.value.s, idb);
    }
  }

  /** The name `get_chat_name` gives when the counter, after the call, is `n`. */
  function NameFor(name: Option<Value>, n: nat): Result<string, Error>
  {
    if Unnamed(name) then Ok(SyntheticName(n))
    else if name.value.Str? then Ok(StripNonWord(name.value.s))
    else Err(NotAString("name"))
  }

  /** The rows of a chat under the script's `process_message`. */
  function ChatRows(c: Chat): Result<seq<Row>, Error>
  {
    if c.messages.None? then Err(MissingKey("messages")) else Collect(RowOf, c.messages.value)
  }

  /** The message loop of `parse_telegram_to_csv`: the rows of the non-skipped entries, in order. */
  method ProcessMessages(messages: seq<Message>) returns (r: Result<seq<Row>, Error>)
    ensures r == Collect(RowOf, messages)
  {
    var rows: seq<Row> := [];
    var i := 0;
    CollectEnds(RowOf, messages, rows);
    while i < |messages|
      invariant 0 <= i <= |messages|
      invariant Collect(RowOf, messages) == Prepend(rows, Collect(RowOf, messages[i..]))
    {
      CollectStep(RowOf, messages, i, rows);
      var row := ProcessMessage(messages[i]);
      if row.Err? {
        return Err(row.error);
      }
      if row.value.Some? {
        rows := rows + [row.value.value];
      }
      i := i + 1;
    }
    CollectEnds(RowOf, messages, rows);
    return Ok(rows);
  }

  /** A chat's rows are one per entry of type "message", in input order. */
  lemma ChatRowsInOrder(c: Chat)
    requires ChatRows(c).Ok?
    ensures c.messages.Some?
    ensures var rows := ChatRows(c).value; var kept := Kept(c.messages.value);
      && |rows| == |kept| <= |c.messages.value|
      && forall i :: 0 <= i < |kept| ==> RowOf(kept[i]) == Ok(Some(rows[i]))
  {
    forall m ensures RowOf(m).Ok? ==> (RowOf(m).value.Some? <==> IsMessage(m)) {
      RowOnlyForMessages(m);
    }
    CollectKeepsMessages(RowOf, c.messages.value);
  }

  /** A parsed chat: the name the script prints for it, and its rows. */
  datatype ParsedChat = ParsedChat(name: string, rows: seq<Row>)

  /** What `parse_telegram_to_csv` computes for a chat when the counter after naming it is `n`. */
  function ParsedOf(c: Chat, n: nat): Result<ParsedChat, Error>
  {
    match NameFor(c.name, n)
    case Err(e) => Err(e)
    case Ok(name) =>
      match ChatRows(c)
      case Err(e) => Err(e)
      case Ok(rows) => Ok(ParsedChat(name, rows))
  }

  /** Parsing `c` fails, whatever the counter: its name is not a string, or its rows fail. */
  predicate ChatFails(c: Chat)
  {
    (!Unnamed(c.name) && !c.name.value.Str?) || ChatRows(c).Err?
  }

  /** `ChatFails` is exactly when `ParsedOf` fails, for every counter value. */
  lemma ChatFailsExactly(c: Chat, n: nat)
    ensures ParsedOf(c, n).Err? <==> ChatFails(c)
  {
  }

  /** Chat `j` is the first of `cs` whose parsing fails. */
  predicate FirstFailure(cs: seq<Chat>, j: nat)
  {
    && j < |cs|
    && ChatFails(cs[j])
    && forall k :: 0 <= k < j ==> !ChatFails(cs[k])
  }

  /** The chats the script parses: the `chats` list, else the whole document. */
  function ScriptChats(doc: Document): Result<seq<Chat>, Error>
  {
    if doc.chats.None? then Ok([doc.top])
    else if doc.chats.value.list.None? then Err(MissingKey("list"))
    else Ok(doc.chats.value.list.value)
  }

  /** The script has no `left_chats` branch; otherwise it picks the same chats as the class-based parser. */
  lemma ScriptIgnoresLeftChats(doc: Document)
    ensures forall x :: ScriptChats(doc.(leftChats := x)) == ScriptChats(doc)
    ensures doc.leftChats.None? ==> ScriptChats(doc) == TelegramChatParser.SelectChats(doc)
  {
  }

  /** The process-wide state of the script: the counter of unnamed chats. */
  class ChatNamer {
    var counter: nat

    constructor()
      ensures counter == 0
    {
      counter := 0;
    }

    /** `get_chat_name`: a fresh synthetic name for an unnamed chat, else the stripped name. */
    method GetChatName(name: Option<Value>) returns (r: Result<string, Error>)
      modifies this
      ensures counter == old(counter) + (if Unnamed(name) then 1 else 0)
      ensures r == NameFor(name, counter)
    {
      if name.None? || name.value.Null? {
        counter := counter + 1;
        return Ok(SyntheticName(counter));
      }
      if !name.value.Str? {
        return Err(NotAString("name"));
      }
      r := Ok(StripNonWord(name.value.s));
    }

    /** `parse_telegram_to_csv` without its file output: the chat's name, then its rows. */
    method ParseChat(c: Chat) returns (r: Result<ParsedChat, Error>)
      modifies this
      ensures counter == old(counter) + (if Unnamed(c.name) then 1 else 0)
      ensures r == ParsedOf(c, counter)
    {
      var name := GetChatName(c.name);
      if name.Err? {
        return Err(name.error);
      }
      if c.messages.None? {
        return Err(MissingKey("messages"));
      }
      var rows := ProcessMessages(c.messages.value);
      if rows.Err? {
        return Err(rows.error);
      }
      return Ok(ParsedChat(name.value, rows.value));
    }

    /**
     * The main block: parse each chosen chat in turn. It fails exactly when the chats
     * cannot be chosen or some chosen chat fails, and then with the first failing chat's
     * error, the counter having moved on for every unnamed chat up to and including it. Every chat gets its rows, a named
     * chat its stripped name, each unnamed chat the next counter value, which the counter
     * ends on; no two chats share a name when one of them is unnamed.
     */
    method ParseDocument(doc: Document) returns (r: Result<seq<ParsedChat>, Error>)
      modifies this
      ensures counter >= old(counter)
      ensures r.Ok? ==> ScriptChats(doc).Ok?
      ensures r.Ok? ==> var cs := ScriptChats(doc).value;
        && counter == old(counter) + UnnamedAmong(cs, |cs|)
        && ParsedInTurn(cs, r.value, old(counter))
      ensures ScriptChats(doc).Err? ==> r == Err(ScriptChats(doc).error) && counter == old(counter)
      ensures ScriptChats(doc).Ok? ==> var cs := ScriptChats(doc).value;
        r.Err? <==> exists k :: 0 <= k < |cs| && ChatFails(cs[k])
      ensures ScriptChats(doc).Ok? && r.Err? ==> var cs := ScriptChats(doc).value;
        exists j: nat :: FirstFailure(cs, j)
          && counter == old(counter) + UnnamedAmong(cs, j + 1)
          && r == Err(ParsedOf(cs[j], counter).error)
    {
      var chats := ScriptChats(doc);
      if chats.Err? {
        return Err(chats.error);
      }
      var cs := chats.value;
      var out: seq<ParsedChat> := [];
      var i := 0;
      while i < |cs|
        invariant 0 <= i <= |cs| && i == |out|
        invariant counter >= old(counter)
        invariant NamedInTurn(cs, out, old(counter), counter)
        invariant forall k :: 0 <= k < i ==> !ChatFails(cs[k])
      {
        ghost var before := counter;
        var parsed := ParseChat(cs[i]);
        if parsed.Err? {
          assert FirstFailure(cs, i);
          return Err(parsed.error);
        }
        assert !ChatFails(cs[i]);
        NamedInTurnStep(cs, out, old(counter), before, parsed.value);
        out := out + [parsed.value];
        i := i + 1;
      }
      NamesDistinct(cs, out, old(counter), counter);
      r := Ok(out);
    }
  }
}
