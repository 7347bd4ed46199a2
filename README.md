# telegram-chat-parser, modelled in Dafny

The repository turns a Telegram Desktop chat export (`result.json`) into one CSV
table per chat. It does so twice: once in the class-based `telegram_chat_parser.py`
and once in the older script `telegram-chat-parser.py`. The only part that makes
decisions is the message normaliser, `process_message`, which exists in both files.
It does the following:

- drops every entry whose `type` is not `"message"`;
- classifies a message by `media_type` or `file`;
- lets `photo`, then `poll`, then `location_information` override that classification;
- folds a rich-text list of runs into one string while raising five 0/1 entity flags;
- replaces every newline in the content with a space.

Around the normaliser sit the chat-level loops that keep the non-skipped rows in
order, the choice of which chats a document holds, and, in the script, the naming
of unnamed chats from a process-wide counter.

The model works on an already-parsed document (`Export`). A JSON key that may be
missing is an `Option` field. A Python `KeyError` becomes `Err(MissingKey(key))`,
raised in the same order in which the code reads the keys.

- `Normalize` holds the parts both files share: the file-type and mention-type
  lists, the classification and override chain (`Classify`, `Override`), the run
  loop as a left fold (`Fold`), and the newline replacement. It also holds
  `ClassifyAndFlatten`, the imperative normaliser with its run loop, proved equal to
  `NormalForm`. `Collect` is the loop that keeps the non-`None` rows of a chat.
- `TelegramChatParser` models `telegram_chat_parser.py`. The class
  `TelegramChatParser` has no state besides three constant lists, so its methods are
  module methods: `ProcessMessage`, `ProcessChat`, and `Process`, the choice
  between `chats`, `left_chats` and the whole document.
- `ParserScript` models `telegram-chat-parser.py`. It has its own row shape: the
  reply id defaults to -1 and the `T` in the date becomes a space. The global
  `NULL_NAME_COUNTER` is the field of class `ChatNamer`, whose `GetChatName`,
  `ParseChat` and `ParseDocument` update it.
- `Text` models the Python string operations that were needed:
  - `str.replace` of one character (`Subst`);
  - `str` of an integer (`NatToString`, `IntToString`), with a decimal read-back;
  - `re.sub(r'[\W_]+', '', name)` (`StripNonWord`).

Decisions taken from the code where a reader might expect otherwise:

- A photo wins over a poll and a location. `photo` is tested first, and `poll` and
  `location_information` are `elif` branches after it.
- `telegram_chat_parser.py` requires `date_unixtime` on every message: it is read
  with `message["date_unixtime"]`.
- A run object without `type` or `text` raises `KeyError`; it is not skipped.
- A document that has neither `chats` nor `left_chats` is processed as one chat, so
  the class-based parser fails on it with `KeyError` on `name` when it lacks `name`
  (read first), and otherwise with `KeyError` on `messages` when it lacks `messages`.
  The script names the chat before reading `messages`, giving an absent name a
  synthetic one, so there only a missing `messages` (or a name that is not a string)
  fails. There is no separate shape error.
- `process_chat` requires `name`. Only the script gives unnamed chats a synthetic
  name.

## Model

| member | source | states |
|---|---|---|
| `Text.Subst` | telegram_chat_parser.py:166 | the replacement keeps the length and changes exactly the positions holding the replaced character |
| `Text.SubstRemoves` | telegram_chat_parser.py:166 | after replacing `'\n'` by a space no newline is left |
| `Text.SubstAbsent` | telegram_chat_parser.py:166 | replacing in a string without the character leaves it unchanged |
| `Text.SubstIdempotent` | telegram_chat_parser.py:166 | replacing twice gives the same string as replacing once |
| `Text.NatToString` | telegram-chat-parser.py:53 | `str` of a natural number is a non-empty string of digits, one digit exactly below 10, with no leading zero |
| `Text.DecimalRoundTrip` | telegram-chat-parser.py:53 | reading the decimal rendering back gives the number |
| `Text.NatToStringInjective` | telegram-chat-parser.py:52-53 | different counter values render differently |
| `Text.IntToString` | telegram_chat_parser.py:138 | `str` of the voter count is non-empty, starts with '-' exactly for negatives and has no newline |
| `Text.StripNonWord` | telegram-chat-parser.py:54 | the stripped name holds exactly the word characters of the name other than '_', and is no longer |
| `Text.StripKeepsNames` | telegram-chat-parser.py:54 | a name of word characters only is not changed |
| `Text.StripIdempotent` | telegram-chat-parser.py:54 | stripping a stripped name changes nothing |
| `Text.StripConcat` | telegram-chat-parser.py:54 | stripping is character by character and keeps the order: it distributes over concatenation |
| `Normalize.FoldFails` | telegram_chat_parser.py:144-164 | the run loop fails exactly when some object run lacks `type` or `text`; strings and other runs never fail |
| `Normalize.FoldFirstError` | telegram_chat_parser.py:150-163 | the error is the KeyError of the first malformed run: `type` when it has no type, else `text` |
| `Normalize.FoldText` | telegram_chat_parser.py:144-164 | the flattened text is the in-order concatenation of every string run and every object run's `text`; other runs add nothing |
| `Normalize.FoldType` | telegram_chat_parser.py:150-151 | the type becomes "link" exactly when some run is a link, and is otherwise unchanged |
| `Normalize.MarkRaises` | telegram_chat_parser.py:150-161 | one step of the `if/elif` chain raises exactly the flag its run type names (mention and mention_name both raise has_mention; link raises none) |
| `Normalize.FoldFlags` | telegram_chat_parser.py:150-161 | a flag ends as 1 exactly when it was 1 or some object run has a matching type; flags are never reset |
| `Normalize.ClassifyFails` | telegram_chat_parser.py:120-131 | classification fails only with KeyError `file`, exactly when a sticker with emoji or a file-type medium lacks `file` |
| `Normalize.StickerWithoutEmoji` | telegram_chat_parser.py:122-126 | a sticker without `sticker_emoji` and no photo, poll or location gives type "sticker", content "?" and no flags |
| `Normalize.StickerWithEmoji` | telegram_chat_parser.py:122-124 | a sticker with `sticker_emoji` gives its `file` as content, or KeyError `file` |
| `Normalize.FileCategory` | telegram_chat_parser.py:127-128 | a media type in the file-type list keeps its name as type and gives the `file` as content, or KeyError `file` |
| `Normalize.OtherMediaKeepsText` | telegram_chat_parser.py:117-121 | any other media type keeps its name as type and the seeded `text` (default "") as content |
| `Normalize.BareFile` | telegram_chat_parser.py:129-131 | a `file` without `media_type` gives type "file" and the file as content |
| `Normalize.PlainText` | telegram_chat_parser.py:117-118 | a message without media or override keys is "text" with its `text` (default "") |
| `Normalize.PhotoWins` | telegram_chat_parser.py:133-135 | with a photo the result is type "photo" and the photo as content, whatever poll, location, media type or file say, unless the media branch's `file` read fails first |
| `Normalize.PollNext` | telegram_chat_parser.py:136-138 | without a photo, a poll gives type "poll" and `str(total_voters)`, or KeyError `total_voters` |
| `Normalize.LocationLast` | telegram_chat_parser.py:139-142 | without photo or poll, a location gives type "location" and "latitude,longitude", or the KeyError of the missing coordinate |
| `Normalize.PlainHasNoFlags` | telegram_chat_parser.py:144-166 | plain-string content keeps its type, raises no flag and only has its newlines replaced |
| `Normalize.FlattenedRuns` | telegram_chat_parser.py:144-166 | run content fails exactly on a malformed run; otherwise its content is the concatenation with newlines replaced, its type is "link" iff a link run occurs, and each flag is 1 iff a matching run occurs |
| `Normalize.NoNewlineBinaryFlags` | telegram_chat_parser.py:111-166 | a normalised content holds no newline and every flag is 0 or 1 |
| `Normalize.HashtagExample` | telegram_chat_parser.py:144-166 | `["see ", {"type": "hashtag", "text": "#fun"}, " today"]` gives "see #fun today" with only has_hashtag raised |
| `Normalize.ClassifyAndFlatten` | telegram_chat_parser.py:117-166 | the step-by-step normaliser, with its run loop, computes exactly `NormalForm` (classification, overrides, fold, newline replacement) |
| `Normalize.CollectKeepsMessages` | telegram_chat_parser.py:198-202 | the chat's rows are one per entry of type "message", in input order, never more than the messages; the loop fails iff some message fails |
| `TelegramChatParser.ProcessMessage` | telegram_chat_parser.py:86-186 | `process_message` gives exactly `RowOf`: `None` for non-messages, KeyError on `type`, `id`, `from`, `from_id`, `date`, `date_unixtime`, else the row |
| `TelegramChatParser.RowOnlyForMessages` | telegram_chat_parser.py:98-99 | an entry gives a row exactly when its type is "message"; any other type gives `None` |
| `TelegramChatParser.RowFails` | telegram_chat_parser.py:98-105 | the call fails iff `type` is missing, or a message lacks a required key or fails to normalise |
| `TelegramChatParser.RowFields` | telegram_chat_parser.py:101-186 | a row copies id, sender, sender id, date and unix date, defaults reply, forward and action to "", and carries the normal form, newline-free and with 0/1 flags |
| `TelegramChatParser.ProcessChat` | telegram_chat_parser.py:188-211 | `process_chat` gives exactly `ChatOf`: KeyError on `name` or `messages`, else the name and the collected rows |
| `TelegramChatParser.ChatRowsInOrder` | telegram_chat_parser.py:198-202 | a processed chat has one row per "message" entry, in order, never more rows than messages |
| `TelegramChatParser.ProcessAll` | telegram_chat_parser.py:226 | processing a list of chats gives one dump per chat in order, and fails iff some chat fails |
| `TelegramChatParser.Process` | telegram_chat_parser.py:225-230 | the dispatch gives one dump per selected chat in order, and fails iff the selection or some chat fails |
| `TelegramChatParser.ChatsFirst` | telegram_chat_parser.py:225-226 | with `chats`, the result is one dump per element of `chats.list`, whatever `left_chats` holds |
| `TelegramChatParser.LeftChatsNext` | telegram_chat_parser.py:227-228 | without `chats` but with `left_chats`, one dump per element of `left_chats.list` |
| `TelegramChatParser.WholeDocument` | telegram_chat_parser.py:229-230 | without either container, the whole document is processed as the single chat |
| `TelegramChatParser.ContainerWithoutList` | telegram_chat_parser.py:225-228 | a selected container without `list` fails with KeyError `list` |
| `ParserScript.ProcessMessage` | telegram-chat-parser.py:57-138 | the script's `process_message` gives exactly its `RowOf`: `None` for non-messages, KeyError on `type`, `id`, `from`, `from_id`, `date`, else the row |
| `ParserScript.RowOnlyForMessages` | telegram-chat-parser.py:58-59 | an entry gives a row exactly when its type is "message" |
| `ParserScript.RowFields` | telegram-chat-parser.py:64-123 | a row copies id, sender and sender id; reply id is -1 when absent; the date is the input date with every 'T' a space and otherwise unchanged; type, content and flags are the message's `NormalForm`, so the content has no newline and the flags are 0 or 1 |
| `ParserScript.SameClassification` | telegram-chat-parser.py:68-123 | wherever the class-based parser gives a row, the script gives one with the same id, sender, type, content and flags; both rows are built from the one `NormalForm`, because the two files' classification code (telegram-chat-parser.py:68-123, telegram_chat_parser.py:117-166) is the same logic, so the lemma carries that modelling decision over the differences in what the two `process_message` read |
| `ParserScript.SyntheticNamesDistinct` | telegram-chat-parser.py:51-53 | different counter values give different synthetic names |
| `ParserScript.StrippedNotSynthetic` | telegram-chat-parser.py:53-54 | a stripped name never equals a synthetic name (it cannot hold '-') |
| `ParserScript.NamesDistinct` | telegram-chat-parser.py:49-54 | once every chat is named in turn, the counter has moved on once per unnamed chat, and no two chats share a name when one of them is unnamed |
| `ParserScript.ProcessMessages` | telegram-chat-parser.py:149-152 | the message loop keeps the non-`None` rows in order and stops at the first error |
| `ParserScript.ChatRowsInOrder` | telegram-chat-parser.py:149-152 | a chat's rows are one per "message" entry, in order |
| `ParserScript.ScriptIgnoresLeftChats` | telegram-chat-parser.py:172-176 | the script ignores `left_chats`; without it, it selects the same chats as the class-based parser |
| `ParserScript.ChatNamer.constructor` | telegram-chat-parser.py:46 | the counter starts at 0 |
| `ParserScript.ChatNamer.GetChatName` | telegram-chat-parser.py:49-54 | an absent or null name raises the counter by exactly 1 and gives "UnnamedChat-" and the new count; a string name leaves the counter and is stripped; another value is a TypeError |
| `ParserScript.ChatNamer.ParseChat` | telegram-chat-parser.py:141-152 | names the chat, then collects its rows, with KeyError on `messages` |
| `ParserScript.ChatFailsExactly` | telegram-chat-parser.py:141-152 | parsing a chat fails, whatever the counter, exactly when its name is neither absent, null nor a string, or its `messages` is missing or a message fails |
| `ParserScript.ChatNamer.ParseDocument` | telegram-chat-parser.py:172-176 | parses the `chats` list, else the document: one result per chat with its rows; a named chat gets its stripped name, the k-th unnamed chat "UnnamedChat-" and the starting counter plus k; the counter ends one higher per unnamed chat; no two names are equal when one chat is unnamed; it fails exactly when `chats` has no `list` or some chosen chat fails, and then with the first failing chat's error and the counter one higher per unnamed chat up to and including that one |

Proof steps have no row of their own: `Normalize.HashtagFold` and
`Normalize.ExampleTextHasNoNewline` (the two halves of the worked example),
`Normalize.CollectStep` and `Normalize.CollectEnds` (one turn and the ends of the chat
loop), and `ParserScript.NamedInTurnStep`, `ParserScript.NamesInTurnStep`,
`ParserScript.NamesApart`, `ParserScript.UnnamedAmongMonotone` and
`ParserScript.UnnamedAmongGrows` (one turn of the script's chat loop and the counting
of unnamed chats).

## Left out

- Reading the file, decoding UTF-8 with BOM and `json.loads` are I/O. The input is an already-parsed `Document`.
- Writing CSV is I/O: `to_csv`, the writing in `parse_telegram_to_csv`, quoting, output paths, the `input()` prompt for the output path and the optional timestamp prefix.
- `argparse`, `sys.argv`, `timestamp()`, `debug()` and every `print` are command-line handling, wall-clock time and console output.
- The `datetime.strptime` check in the script (telegram-chat-parser.py:66) is not modelled. Its result is unused, but it raises on a malformed date; the model accepts every date string.
- Latitude and longitude are JSON floats whose rendering is not modelled. They are taken as already-rendered strings.
- Word characters of `re.sub` with `re.UNICODE` are taken to be the ASCII letters and digits. Non-ASCII letters, which Python keeps, are stripped by the model.
- JSON values are typed. `date`, `file`, `photo`, `media_type` and run texts are strings, and passthrough keys are `Value`s. Python's behaviour on a value of another type (a `TypeError` from `.replace`, or a non-list, non-string `text`) is not represented. The only type error modelled is a non-string chat `name` in the script.
