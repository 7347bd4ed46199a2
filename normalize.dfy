/**
 * The message normaliser shared by both parsers: classification of a message by
 * its media keys, the photo / poll / location override chain, the left fold that
 * flattens a list of text runs while raising the entity flags, and the final
 * newline replacement. Also the loop that keeps the non-skipped rows of a chat.
 */
module Normalize {
  import opened Wrappers
  import opened Export
  import opened Text

  /** The media types whose content is the attached `file`. */
  const FILE_TYPES: seq<string> := ["animation", "video_file", "video_message", "voice_message", "audio_file"]

  /** The run types that count as a mention. */
  const MENTION_TYPES: seq<string> := ["mention", "mention_name"]

  /** The five entity flags of a row. */
  datatype Tag = Mention | Email | Phone | Hashtag | BotCommand

  /** The flag columns has_mention, has_email, has_phone, has_hashtag and is_bot_command. */
  datatype Flags = Flags(hasMention: int, hasEmail: int, hasPhone: int, hasHashtag: int, isBotCommand: int)
  {
    function Get(t: Tag): int
    {
      match t
      case Mention => hasMention
      case Email => hasEmail
      case Phone => hasPhone
      case Hashtag => hasHashtag
      case BotCommand => isBotCommand
    }

    /** Every flag is 0 or 1. */
    predicate Binary()
    {
      forall t :: Get(t) == 0 || Get(t) == 1
    }
  }

  const NO_FLAGS := Flags(0, 0, 0, 0, 0)

  /** Whether a run of type `kind` raises flag `t`; the reference the flag chain is checked against. */
  predicate Raises(kind: string, t: Tag)
  {
    match t
    case Mention => kind in MENTION_TYPES
    case Email => kind == "email"
    case Phone => kind == "phone"
    case Hashtag => kind == "hashtag"
    case BotCommand => kind == "bot_command"
  }

  /** The `if/elif` chain on a run's type: "link" raises nothing, each other known type raises its flag. */
  function Mark(f: Flags, kind: string): Flags
  {
    if kind == "link" then f
    else if kind in MENTION_TYPES then f.(hasMention := 1)
    else if kind == "email" then f.(hasEmail := 1)
    else if kind == "phone" then f.(hasPhone := 1)
    else if kind == "hashtag" then f.(hasHashtag := 1)
    else if kind == "bot_command" then f.(isBotCommand := 1)
    else f
  }

  /** A message's type and content after classification, before flattening. */
  datatype Draft = Draft(msgType: string, content: Content)

  /** The normalised part of a row: msg_type, msg_content and the flags. */
  datatype Normalized = Normalized(msgType: string, content: string, flags: Flags)

  /** The seeded content: `message.get("text", "")`. */
  function Seed(m: Message): Content
  {
    if m.text.Some? then m.text.value else Plain("")
  }

  /** Whether the media branch reads `message["file"]`. */
  predicate ReadsFile(m: Message)
  {
    m.mediaType.Some? &&
    (if m.mediaType.value == "sticker" then m.stickerEmoji.Some? else m.mediaType.value in FILE_TYPES)
  }

  function FileDraft(t: string, m: Message): Result<Draft, Error>
  {
    if m.file.None? then Err(MissingKey("file")) else Ok(Draft(t, Plain(m.file.value)))
  }

  /** Seeding and classification by `media_type` or `file`. */
  function Classify(m: Message): Result<Draft, Error>
  {
    match m.mediaType
    case Some(t) =>
      if t == "sticker" then
        if m.stickerEmoji.Some? then FileDraft(t, m) else Ok(Draft(t, Plain("?")))
      else if t in FILE_TYPES then FileDraft(t, m)
      else Ok(Draft(t, Seed(m)))
    case None =>
      if m.file.Some? then Ok(Draft("file", Plain(m.file.value))) else Ok(Draft("text", Seed(m)))
  }

  /** The override chain: photo, else poll, else location; otherwise `d` stands. */
  function Override(m: Message, d: Draft): Result<Draft, Error>
  {
    if m.photo.Some? then Ok(Draft("photo", Plain(m.photo.value)))
    else if m.poll.Some? then
      if m.poll.value.totalVoters.None? then Err(MissingKey("total_voters"))
      else Ok(Draft("poll", Plain(IntToString(m.poll.value.totalVoters.value))))
    else if m.location.Some? then
      var loc := m.location.value;
      if loc.latitude.None? then Err(MissingKey("latitude"))
      else if loc.longitude.None? then Err(MissingKey("longitude"))
      else Ok(Draft("location", Plain(loc.latitude.value + "," + loc.longitude.value)))
    else Ok(d)
  }

  /** Classification followed by the override chain. */
  function Prepared(m: Message): Result<Draft, Error>
  {
    match Classify(m)
    case Err(e) => Err(e)
    case Ok(d) => Override(m, d)
  }

  /** The state of the run loop: msg_type, the text so far and the flags. */
  datatype Acc = Acc(msgType: string, text: string, flags: Flags)

  /** One iteration of the run loop. An entity reads `type` before `text`. */
  function Absorb(acc: Acc, run: Run): Result<Acc, Error>
  {
    match run
    case Literal(s) => Ok(acc.(text := acc.text + s))
    case Typed(kind, text) =>
      if kind.None? then Err(MissingKey("type"))
      else if text.None? then Err(MissingKey("text"))
      else Ok(Acc(if kind.value == "link" then "link" else acc.msgType,
                  acc.text + text.value,
                  Mark(acc.flags, kind.value)))
    case Unknown => Ok(acc)
  }

  /** The run loop as a left fold; the first failing run stops it. */
  function Fold(acc: Acc, runs: seq<Run>): Result<Acc, Error>
    decreases |runs|
  {
    if runs == [] then Ok(acc)
    else match Absorb(acc, runs[0])
      case Err(e) => Err(e)
      case Ok(next) => Fold(next, runs[1..])
  }

  /** Flattening of run content and the newline replacement. */
  function Flatten(d: Draft): Result<Normalized, Error>
  {
    match d.content
    case Plain(s) => Ok(Normalized(d.msgType, Subst(s, '\n', ' '), NO_FLAGS))
    case Runs(rs) =>
      match Fold(Acc(d.msgType, "", NO_FLAGS), rs)
      case Err(e) => Err(e)
      case Ok(a) => Ok(Normalized(a.msgType, Subst(a.text, '\n', ' '), a.flags))
  }

  /** The normalised type, content and flags of a message, or the key it lacks. */
  function NormalForm(m: Message): Result<Normalized, Error>
  {
    match Prepared(m)
    case Err(e) => Err(e)
    case Ok(d) => Flatten(d)
  }

  // ---------------------------------------------------------------------------
  // Reference definitions for the run fold

  /** What a run contributes to the text. */
  function Piece(run: Run): string
  {
    match run
    case Literal(s) => s
    case Typed(_, text) => if text.Some? then text.value else ""
    case Unknown => ""
  }

  /** The in-order concatenation of every run's contribution. */
  function Concat(runs: seq<Run>): string
  {
    if runs == [] then "" else Piece(runs[0]) + Concat(runs[1..])
  }

  /** An entity object lacking `type` or `text`. */
  predicate Malformed(run: Run)
  {
    run.Typed? && (run.kind.None? || run.text.None?)
  }

  predicate RaisesFlag(run: Run, t: Tag)
  {
    run.Typed? && run.kind.Some? && Raises(run.kind.value, t)
  }

  /** Some entity run has a type that raises flag `t`. */
  predicate Tagged(runs: seq<Run>, t: Tag)
  {
    exists i :: 0 <= i < |runs| && RaisesFlag(runs[i], t)
  }

  predicate IsLink(run: Run)
  {
    run.Typed? && run.kind == Some("link")
  }

  /** Some entity run is a link. */
  predicate Linked(runs: seq<Run>)
  {
    exists i :: 0 <= i < |runs| && IsLink(runs[i])
  }

  // ---------------------------------------------------------------------------
  // Properties of the run fold

  /** The fold fails exactly when some entity run is malformed. */
  lemma {:induction false} FoldFails(acc: Acc, runs: seq<Run>)
    ensures Fold(acc, runs).Err? <==> exists i :: 0 <= i < |runs| && Malformed(runs[i])
    decreases |runs|
  {
    if runs != [] {
      match Absorb(acc, runs[0])
      case Err(_) =>
        assert Malformed(runs[0]);
      case Ok(next) =>
        FoldFails(next, runs[1..]);
        if exists i :: 0 <= i < |runs[1..]| && Malformed(runs[1..][i]) {
          var i :| 0 <= i < |runs[1..]| && Malformed(runs[1..][i]);
          assert Malformed(runs[i + 1]);
        }
        if exists i :: 0 <= i < |runs| && Malformed(runs[i]) {
          var i :| 0 <= i < |runs| && Malformed(runs[i]);
          assert i != 0;
          assert Malformed(runs[1..][i - 1]);
        }
    }
  }

  /** The error is the `KeyError` of the first malformed run: "type" if it lacks a type, else "text". */
  lemma {:induction false} FoldFirstError(acc: Acc, runs: seq<Run>, j: nat)
    requires j < |runs| && Malformed(runs[j])
    requires forall i :: 0 <= i < j ==> !Malformed(runs[i])
    ensures Fold(acc, runs) == Err(MissingKey(if runs[j].kind.None? then "type" else "text"))
    decreases j
  {
    if j > 0 {
      assert !Malformed(runs[0]);
      var next := Absorb(acc, runs[0]).value;
      FoldFirstError(next, runs[1..], j - 1);
    }
  }

  /** The text is the old text followed by the concatenation of the runs. */
  lemma {:induction false} FoldText(acc: Acc, runs: seq<Run>)
    ensures Fold(acc, runs).Ok? ==> Fold(acc, runs).value.text == acc.text + Concat(runs)
    decreases |runs|
  {
    if runs != [] {
      match Absorb(acc, runs[0])
      case Err(_) =>
      case Ok(next) =>
        FoldText(next, runs[1..]);
        assert next.text == acc.text + Piece(runs[0]);
    }
  }

  /** A link run switches the type to "link"; without one the type stays. */
  lemma {:induction false} FoldType(acc: Acc, runs: seq<Run>)
    ensures Fold(acc, runs).Ok? ==>
      Fold(acc, runs).value.msgType == (if Linked(runs) then "link" else acc.msgType)
    decreases |runs|
  {
    if runs != [] {
      match Absorb(acc, runs[0])
      case Err(_) =>
      case Ok(next) =>
        FoldType(next, runs[1..]);
        if Linked(runs[1..]) {
          var i :| 0 <= i < |runs[1..]| && IsLink(runs[1..][i]);
          assert IsLink(runs[i + 1]);
        }
        if Linked(runs) && !IsLink(runs[0]) {
          var i :| 0 <= i < |runs| && IsLink(runs[i]);
          assert IsLink(runs[1..][i - 1]);
        }
    }
  }

  /** A step of the flag chain raises exactly the flag the run's type names. */
  lemma MarkRaises(f: Flags, kind: string, t: Tag)
    ensures Mark(f, kind).Get(t) == (if Raises(kind, t) then 1 else f.Get(t))
  {
  }

  /** A flag ends up 1 exactly when it was 1 already or some run raises it. */
  lemma {:induction false} FoldFlags(acc: Acc, runs: seq<Run>, t: Tag)
    ensures Fold(acc, runs).Ok? ==>
      Fold(acc, runs).value.flags.Get(t) == (if Tagged(runs, t) then 1 else acc.flags.Get(t))
    decreases |runs|
  {
    if runs != [] {
      match Absorb(acc, runs[0])
      case Err(_) =>
      case Ok(next) =>
        FoldFlags(next, runs[1..], t);
        if runs[0].Typed? {
          MarkRaises(acc.flags, runs[0].kind.value, t);
        }
        assert next.flags.Get(t) == (if RaisesFlag(runs[0], t) then 1 else acc.flags.Get(t));
        if Tagged(runs[1..], t) {
          var i :| 0 <= i < |runs[1..]| && RaisesFlag(runs[1..][i], t);
          assert RaisesFlag(runs[i + 1], t);
        }
        if Tagged(runs, t) && !RaisesFlag(runs[0], t) {
          var i :| 0 <= i < |runs| && RaisesFlag(runs[i], t);
          assert RaisesFlag(runs[1..][i - 1], t);
        }
    }
  }

  // ---------------------------------------------------------------------------
  // Properties of the normaliser

  /** No override key at all. */
  predicate NoOverride(m: Message)
  {
    m.photo.None? && m.poll.None? && m.location.None?
  }

  /** Classification fails only on the `file` read of the media branch. */
  lemma ClassifyFails(m: Message)
    ensures Classify(m).Err? <==> ReadsFile(m) && m.file.None?
    ensures Classify(m).Err? ==> Classify(m).error == MissingKey("file")
  {
  }

  /** A sticker without `sticker_emoji` and without override is a "sticker" with content "?". */
  lemma StickerWithoutEmoji(m: Message)
    requires m.mediaType == Some("sticker") && m.stickerEmoji.None? && NoOverride(m)
    ensures NormalForm(m) == Ok(Normalized("sticker", "?", NO_FLAGS))
  {
    SubstAbsent("?", '\n', ' ');
  }

  /** A sticker with `sticker_emoji` and without override has the `file` as content. */
  lemma StickerWithEmoji(m: Message)
    requires m.mediaType == Some("sticker") && m.stickerEmoji.Some? && NoOverride(m)
    ensures NormalForm(m) ==
      if m.file.None? then Err(MissingKey("file"))
      else Ok(Normalized("sticker", Subst(m.file.value, '\n', ' '), NO_FLAGS))
  {
  }

  /** A file-category media type keeps its name as type and has the `file` as content. */
  lemma FileCategory(m: Message, t: string)
    requires m.mediaType == Some(t) && t in FILE_TYPES && NoOverride(m)
    ensures NormalForm(m) ==
      if m.file.None? then Err(MissingKey("file"))
      else Ok(Normalized(t, Subst(m.file.value, '\n', ' '), NO_FLAGS))
  {
  }

  /** Any other media type keeps its name as type and the seeded text as content. */
  lemma OtherMediaKeepsText(m: Message, t: string)
    requires m.mediaType == Some(t) && t != "sticker" && t !in FILE_TYPES && NoOverride(m)
    ensures Prepared(m) == Ok(Draft(t, Seed(m)))
  {
  }

  /** A `file` without `media_type` and without override gives type "file". */
  lemma BareFile(m: Message)
    requires m.mediaType.None? && m.file.Some? && NoOverride(m)
    ensures NormalForm(m) == Ok(Normalized("file", Subst(m.file.value, '\n', ' '), NO_FLAGS))
  {
  }

  /** A message with none of the media or override keys is "text" with its seeded text. */
  lemma PlainText(m: Message)
    requires m.mediaType.None? && m.file.None? && NoOverride(m)
    ensures Prepared(m) == Ok(Draft("text", Seed(m)))
  {
  }

  /** A photo wins over everything else; only the media branch's `file` read can fail first. */
  lemma PhotoWins(m: Message)
    requires m.photo.Some?
    ensures NormalForm(m) ==
      if ReadsFile(m) && m.file.None? then Err(MissingKey("file"))
      else Ok(Normalized("photo", Subst(m.photo.value, '\n', ' '), NO_FLAGS))
  {
    ClassifyFails(m);
  }

  /** Without a photo, a poll gives type "poll" and the rendered voter count. */
  lemma PollNext(m: Message)
    requires m.photo.None? && m.poll.Some?
    ensures NormalForm(m) ==
      if ReadsFile(m) && m.file.None? then Err(MissingKey("file"))
      else if m.poll.value.totalVoters.None? then Err(MissingKey("total_voters"))
      else Ok(Normalized("poll", IntToString(m.poll.value.totalVoters.value), NO_FLAGS))
  {
    ClassifyFails(m);
    if m.poll.value.totalVoters.Some? {
      SubstAbsent(IntToString(m.poll.value.totalVoters.value), '\n', ' ');
    }
  }

  /** Without photo or poll, a location gives type "location" and "latitude,longitude". */
  lemma LocationLast(m: Message)
    requires m.photo.None? && m.poll.None? && m.location.Some?
    ensures NormalForm(m) ==
      var loc := m.location.value;
      if ReadsFile(m) && m.file.None? then Err(MissingKey("file"))
      else if loc.latitude.None? then Err(MissingKey("latitude"))
      else if loc.longitude.None? then Err(MissingKey("longitude"))
      else Ok(Normalized("location", Subst(loc.latitude.value + "," + loc.longitude.value, '\n', ' '), NO_FLAGS))
  {
    ClassifyFails(m);
  }

  /** Plain-string content raises no flag and keeps its type. */
  lemma PlainHasNoFlags(t: string, s: string)
    ensures Flatten(Draft(t, Plain(s))) == Ok(Normalized(t, Subst(s, '\n', ' '), NO_FLAGS))
  {
  }

  /**
   * Run content is flattened: it fails exactly on a malformed entity; otherwise the
   * content is the concatenation of the runs, the type becomes "link" exactly when
   * a link run occurs, and each flag is 1 exactly when a run raises it.
   */
  lemma FlattenedRuns(t: string, runs: seq<Run>)
    ensures Flatten(Draft(t, Runs(runs))).Err? <==> exists i :: 0 <= i < |runs| && Malformed(runs[i])
    ensures Flatten(Draft(t, Runs(runs))).Ok? ==>
      var n := Flatten(Draft(t, Runs(runs))).value;
      && n.content == Subst(Concat(runs), '\n', ' ')
      && n.msgType == (if Linked(runs) then "link" else t)
      && forall tag :: n.flags.Get(tag) == (if Tagged(runs, tag) then 1 else 0)
  {
    var init := Acc(t, "", NO_FLAGS);
    FoldFails(init, runs);
    FoldText(init, runs);
    FoldType(init, runs);
    forall tag ensures Fold(init, runs).Ok? ==>
      Fold(init, runs).value.flags.Get(tag) == (if Tagged(runs, tag) then 1 else 0)
    {
      FoldFlags(init, runs, tag);
    }
  }

  /** The content of a normalised message holds no newline, and its flags are 0 or 1. */
  lemma NoNewlineBinaryFlags(m: Message)
    requires NormalForm(m).Ok?
    ensures '\n' !in NormalForm(m).value.content
    ensures NormalForm(m).value.flags.Binary()
  {
    var d := Prepared(m).value;
    match d.content
    case Plain(s) =>
      SubstRemoves(s, '\n', ' ');
    case Runs(runs) =>
      FlattenedRuns(d.msgType, runs);
      SubstRemoves(Concat(runs), '\n', ' ');
  }

  /** The runs of the worked example `["see ", {"type": "hashtag", "text": "#fun"}, " today"]`. */
  const EXAMPLE_RUNS := [Literal("see "), Typed(Some("hashtag"), Some("#fun")), Literal(" today")]

  /** The text the worked example flattens to. */
  const EXAMPLE_TEXT := "see #fun today"

  /** The worked example gives "see #fun today" with only the hashtag flag raised. */
  lemma HashtagExample()
    ensures Flatten(Draft("text", Runs(EXAMPLE_RUNS))) ==
      Ok(Normalized("text", EXAMPLE_TEXT, Flags(0, 0, 0, 1, 0)))
  {
    HashtagFold();
    ExampleTextHasNoNewline();
    SubstAbsent(EXAMPLE_TEXT, '\n', ' ');
  }

  /** The example's text has no newline for the replacement to change. */
  lemma ExampleTextHasNoNewline()
    ensures '\n' !in EXAMPLE_TEXT
  {
    assert forall i :: 0 <= i < |EXAMPLE_TEXT| ==> EXAMPLE_TEXT[i] != '\n';
  }

  /** The run loop over the worked example. */
  lemma HashtagFold()
    ensures Fold(Acc("text", "", NO_FLAGS), EXAMPLE_RUNS) ==
      Ok(Acc("text", EXAMPLE_TEXT, Flags(0, 0, 0, 1, 0)))
  {
    var a1 := Acc("text", "see ", NO_FLAGS);
    var a2 := Acc("text", "see #fun", Flags(0, 0, 0, 1, 0));
    var a3 := Acc("text", "see #fun today", Flags(0, 0, 0, 1, 0));
    assert Fold(a2, EXAMPLE_RUNS[2..]) == Ok(a3) by {
      assert "see #fun" + " today" == "see #fun today";
      assert EXAMPLE_RUNS[2..][1..] == [];
    }
    assert Fold(a1, EXAMPLE_RUNS[1..]) == Ok(a3) by {
      assert "see " + "#fun" == "see #fun";
      assert Mark(NO_FLAGS, "hashtag") == Flags(0, 0, 0, 1, 0);
      assert EXAMPLE_RUNS[1..][1..] == EXAMPLE_RUNS[2..];
    }
    assert Fold(Acc("text", "", NO_FLAGS), EXAMPLE_RUNS) == Ok(a3) by {
      assert "" + "see " == "see ";
    }
  }

  // ---------------------------------------------------------------------------
  // The imperative normaliser

  /** `process_message` from the seeding of the content to the newline replacement. */
  method ClassifyAndFlatten(m: Message) returns (r: Result<Normalized, Error>)
    ensures r == NormalForm(m)
  {
    var content := if m.text.Some? then m.text.value else Plain("");
    var msgType := "text";
    if m.mediaType.Some? {
      msgType := m.mediaType.value;
      if m.mediaType.value == "sticker" {
        if m.stickerEmoji.Some? {
          if m.file.None? {
            return Err(MissingKey("file"));
          }
          content := Plain(m.file.value);
        } else {
          content := Plain("?");
        }
      } else if m.mediaType.value in FILE_TYPES {
        if m.file.None? {
          return Err(MissingKey("file"));
        }
        content := Plain(m.file.value);
      }
    } else if m.file.Some? {
      msgType := "file";
      content := Plain(m.file.value);
    }
    assert Classify(m) == Ok(Draft(msgType, content));

    if m.photo.Some? {
      msgType := "photo";
      content := Plain(m.photo.value);
    } else if m.poll.Some? {
      if m.poll.value.totalVoters.None? {
        return Err(MissingKey("total_voters"));
      }
      msgType := "poll";
      content := Plain(IntToString(m.poll.value.totalVoters.value));
    } else if m.location.Some? {
      var loc := m.location.value;
      if loc.latitude.None? {
        return Err(MissingKey("latitude"));
      }
      if loc.longitude.None? {
        return Err(MissingKey("longitude"));
      }
      msgType := "location";
      content := Plain(loc.latitude.value + "," + loc.longitude.value);
    }
    assert Prepared(m) == Ok(Draft(msgType, content));

    var flags := NO_FLAGS;
    var text: string;
    match content {
      case Plain(s) =>
        text := s;
      case Runs(runs) =>
        ghost var start := Acc(msgType, "", NO_FLAGS);
        text := "";
        var i := 0;
        while i < |runs|
          invariant 0 <= i <= |runs|
          invariant Fold(start, runs) == Fold(Acc(msgType, text, flags), runs[i..])
        {
          assert runs[i..][0] == runs[i] && runs[i..][1..] == runs[i + 1..];
          match runs[i] {
            case Literal(s) =>
              text := text + s;
            case Typed(kind, t) =>
              if kind.None? {
                return Err(MissingKey("type"));
              }
              if kind.value == "link" {
                msgType := "link";
              } else if kind.value in MENTION_TYPES {
                flags := flags.(hasMention := 1);
              } else if kind.value == "email" {
                flags := flags.(hasEmail := 1);
              } else if kind.value == "phone" {
                flags := flags.(hasPhone := 1);
              } else if kind.value == "hashtag" {
                flags := flags.(hasHashtag := 1);
              } else if kind.value == "bot_command" {
                flags := flags.(isBotCommand := 1);
              }
              if t.None? {
                return Err(MissingKey("text"));
              }
              text := text + t.value;
            case Unknown =>
          }
          i := i + 1;
        }
        assert runs[i..] == [];
    }
    r := Ok(Normalized(msgType, Subst(text, '\n', ' '), flags));
  }

  // ---------------------------------------------------------------------------
  // The rows of a chat

  /**
   * The loop over a chat's messages: each message gives an error, a skip or a row;
   * rows are kept in order and the first error stops the loop.
   */
  function Collect<R>(f: Message -> Result<Option<R>, Error>, msgs: seq<Message>): Result<seq<R>, Error>
    decreases |msgs|
  {
    if msgs == [] then Ok([])
    else match f(msgs[0])
      case Err(e) => Err(e)
      case Ok(row) =>
        match Collect(f, msgs[1..])
        case Err(e) => Err(e)
        case Ok(rest) => Ok((if row.Some? then [row.value] else []) + rest)
  }

  /** `rows` put in front of the rows of a later part of the chat. */
  function Prepend<R>(rows: seq<R>, later: Result<seq<R>, Error>): Result<seq<R>, Error>
  {
    match later
    case Err(e) => Err(e)
    case Ok(rest) => Ok(rows + rest)
  }

  /** One turn of the chat loop: the rows so far, the current message's outcome, then the rest. */
  lemma CollectStep<R>(f: Message -> Result<Option<R>, Error>, msgs: seq<Message>, i: nat, rows: seq<R>)
    requires i < |msgs|
    ensures Prepend(rows, Collect(f, msgs[i..])) ==
      match f(msgs[i])
      case Err(e) => Err(e)
      case Ok(row) =>
        if row.Some? then Prepend(rows + [row.value], Collect(f, msgs[i + 1..]))
        else Prepend(rows, Collect(f, msgs[i + 1..]))
  {
    assert msgs[i..][0] == msgs[i] && msgs[i..][1..] == msgs[i + 1..];
    match f(msgs[i])
    case Err(_) =>
    case Ok(row) =>
      match Collect(f, msgs[i + 1..])
      case Err(_) =>
      case Ok(rest) =>
        if row.Some? {
          assert rows + ([row.value] + rest) == (rows + [row.value]) + rest;
        } else {
          assert [] + rest == rest;
        }
  }

  /** Before the chat loop no row is kept; after it nothing is left. */
  lemma CollectEnds<R>(f: Message -> Result<Option<R>, Error>, msgs: seq<Message>, rows: seq<R>)
    ensures Prepend([], Collect(f, msgs[0..])) == Collect(f, msgs)
    ensures Prepend(rows, Collect(f, msgs[|msgs|..])) == Ok(rows)
  {
    assert msgs[0..] == msgs;
    assert msgs[|msgs|..] == [];
    match Collect(f, msgs)
    case Err(_) =>
    case Ok(all) => assert [] + all == all;
    assert rows + [] == rows;
  }

  /** The entries of type "message", in order. */
  function Kept(msgs: seq<Message>): (r: seq<Message>)
    ensures |r| <= |msgs|
  {
    if msgs == [] then []
    else (if IsMessage(msgs[0]) then [msgs[0]] else []) + Kept(msgs[1..])
  }

  /**
   * For a per-message function that gives a row exactly for the "message" entries,
   * the chat's rows are one per such entry, in input order, so never more rows than
   * messages; and the loop fails exactly when some message fails.
   */
  lemma {:induction false} CollectKeepsMessages<R>(f: Message -> Result<Option<R>, Error>, msgs: seq<Message>)
    requires forall m :: f(m).Ok? ==> (f(m).value.Some? <==> IsMessage(m))
    ensures Collect(f, msgs).Err? <==> exists i :: 0 <= i < |msgs| && f(msgs[i]).Err?
    ensures Collect(f, msgs).Ok? ==>
      && |Collect(f, msgs).value| == |Kept(msgs)| <= |msgs|
      && forall i :: 0 <= i < |Kept(msgs)| ==> f(Kept(msgs)[i]) == Ok(Some(Collect(f, msgs).value[i]))
    decreases |msgs|
  {
    if msgs != [] {
      CollectKeepsMessages(f, msgs[1..]);
      if exists i :: 0 <= i < |msgs[1..]| && f(msgs[1..][i]).Err? {
        var i :| 0 <= i < |msgs[1..]| && f(msgs[1..][i]).Err?;
        assert f(msgs[i + 1]).Err?;
      }
      if f(msgs[0]).Ok? && exists i :: 0 <= i < |msgs| && f(msgs[i]).Err? {
        var i :| 0 <= i < |msgs| && f(msgs[i]).Err?;
        assert f(msgs[1..][i - 1]).Err?;
      }
    }
  }
}
