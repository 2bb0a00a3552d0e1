# Rasul bot: a Dafny model of its message and memory handling

The bot relays Telegram messages to a generative model with a persona named
Rasul. It keeps three in-memory maps for the life of the process:

- `user_history`: chat id → list of `{role, parts}` entries;
- `user_nicknames`: user id → nickname;
- `user_facts`: user id → accumulated facts text.

It reacts to four kinds of update:

- an ordinary text message (`handle_message`);
- `/callme` (set your nickname);
- `/rememberme` (add a fact about yourself);
- `/rememberuser` (add a fact about another user, by id).

The model treats each update as one pure transition `Step(store, bot,
backend, event) -> Outcome(store', reply?)`. The generative model is a
function parameter, `Backend = (history, turn) -> Result<text, BackendError>`.
Telegram delivery becomes the `reply` field of the outcome.

Modules, leaf first:

- `Wrappers`: `Option`, `Result`, and `Get`, a map lookup with a default.
- `Strings`: lower-casing, substring search, `" ".join`, and Python's
  `str.split()`, which produces command arguments.
- `Numbers`: `int()` on the target id of `/rememberuser`, with `str()` as its
  inverse.
- `Memory`: the three maps, history entries, the twenty-entry trim and the
  fact append.
- `Inbound`: the fields of an update that the handler reads, and the bot's
  own id and username.
- `Gate`: whether the bot answers a message.
- `Context`: the nickname lookup, the facts reminder and the framed turn.
- `Handlers`: the four handlers. There are two versions of the message
  exchange: as written, and with the failure path corrected (see Findings).
- `Bot`: events, `Step` and `Run` over event sequences, and lemmas that relate
  several updates.

Behaviours of the code worth knowing:

- A failed generation does not always leave the history unchanged (see Findings).
- Facts are always joined with a single space, so a user's facts start with a
  space.
- A fact command creates only a `user_facts` entry. It creates no nickname.
- An ordinary message never writes to the nickname or fact maps.

## Model

| member | source | states |
|---|---|---|
| Strings.LowerChar | main.py:48-49 | the result is never an upper-case letter, other characters are unchanged, and each upper-case letter becomes its small partner (code point +32, or +80 for U+0400..U+040F) |
| Strings.Lower | main.py:48 | lower-casing keeps the length and folds every character on its own |
| Strings.LowerRasul | main.py:46-48 | the capitalised persona name "РАСУЛ" folds to the wake word "расул" |
| Strings.LowerIdempotent | main.py:48-49 | lower-casing an already lower-cased text changes nothing |
| Strings.ContainsIff | main.py:48-49 | the recursive `in` test holds exactly when the word occurs at some position |
| Strings.ContainsLower | main.py:48-49 | any occurrence of a word gives an occurrence of its lower-cased form in the lower-cased text |
| Strings.EmptyContainsNothing | main.py:48-49 | a non-empty word never occurs in empty text |
| Strings.Join | main.py:92 | joining no arguments gives the empty text; otherwise the result starts with the first argument, followed by a space when there are more, and its length is the arguments' total length plus one per gap |
| Strings.WordsJoin | main.py:92 | splitting the joined arguments gives back the original argument list, so joining loses and merges nothing; with Join's length, every gap is exactly one whitespace character |
| Strings.JoinSpaces | main.py:92 | every whitespace character in a join of words is a plain space, so with WordsJoin every gap is exactly one space |
| Numbers.ParseInt | main.py:115 | parsing succeeds exactly on an optional sign followed by digits; the value is the digits' decimal value, negated after `-` |
| Numbers.ParseShowInt | main.py:115 | every integer id written in decimal parses back to itself |
| Wrappers.Get | main.py:62-63 | `dict.get(k, default)`: the stored value when the key is present, the default otherwise |
| Memory.LastN | main.py:77 | keeps min(length, 20) entries, and those entries are a suffix of the input |
| Memory.AppendReply | main.py:76-77 | appending a reply to a non-empty context and trimming keeps min(n + 1, 20) entries, a suffix of context plus reply, with the context's last entry right before the reply |
| Memory.AddFact | main.py:103-105 | the old facts (empty if absent) are a prefix of the new ones, followed by a space and the fact; other users keep theirs |
| Gate.Mentioned | main.py:46-50 | definition: the lower-cased text contains "расул", "заменитель" or "@" + the lower-cased username |
| Gate.RepliesToBot | main.py:51-55 | definition: the replied-to message's author id is the bot's id |
| Gate.ShouldRespond | main.py:57 | definition: private chat, or mentioned, or a reply to the bot |
| Gate.MentionedIff | main.py:46-50 | a mention holds exactly when a wake word or `@username` occurs at some position of the lower-cased text |
| Gate.MentionedIgnoresCase | main.py:48-49 | lower-casing the text first does not change whether it mentions the bot |
| Gate.WakeWordInAnyCase | main.py:46-48 | a wake word in any case, anywhere in the text, wakes the bot |
| Gate.EmptyTextNotMentioned | main.py:46-50 | empty text matches neither wake word nor the handle |
| Gate.GateTruthTable | main.py:51-59 | private chats always get an answer; with no mention and no reply to the bot, a non-private message is ignored; for empty text only a reply to the bot counts |
| Context.Nickname | main.py:62 | definition: the stored nickname, falling back to the sender's first name |
| Context.FactsOf | main.py:63 | definition: the stored facts, falling back to the empty text |
| Context.Framed | main.py:67 | definition: nickname, ": ", text |
| Context.Reminder | main.py:68 | definition: "Вот что ты знаешь про ", nickname, ": ", facts |
| Context.NewTurns | main.py:67-71 | one or two user-role entries: the reminder first, present exactly when facts are non-empty, then the framed line |
| Context.ContextFor | main.py:62-71 | the context sent to the backend: the prior history unchanged, then the reminder when there are facts, then the framed turn last |
| Context.FramingUsesNickname | main.py:62-67 | the framed line is the stored nickname, or the first name if none is stored, then ": " and the text |
| Handlers.SuccessEndsWithExchange | main.py:76-77 | after a success the chat's history has between 2 and 20 entries, and ends with the framed user turn followed by the model reply |
| Handlers.Persist | main.py:66-83 | success: the reply is the generated text and the chat's entry becomes the context plus the reply, trimmed by `AppendReply`. Failure: the apology is sent; a fresh chat leaves the store unchanged; an existing chat's entry grows by the new turns with no trimming. Profiles are never touched |
| Handlers.HandleMessage | main.py:39-83 | replies iff the gate passes; when silent the store is unchanged; nicknames, facts and other chats are never touched; the backend is called once, with the assembled context and the framed turn |
| Handlers.PersistCorrected | main.py:73-83 | corrected failure path: a failure leaves the store exactly as it was, and the twenty-entry bound is preserved |
| Handlers.CorrectionOnlyOnFailure | main.py:66-83 | the corrected and as-written paths agree exactly when generation succeeds or the chat had no stored history |
| Handlers.HandleMessageCorrected | main.py:39-83 | the same gate as HandleMessage and the same result on success; a failed generation sends the apology and leaves the store unchanged; profiles are never touched; the bound is preserved |
| Handlers.SetNickname | main.py:86-94 | no arguments: the store is unchanged and the usage hint is sent. Otherwise only the sender's nickname changes, to the arguments joined by spaces, and the confirmation names it |
| Handlers.RememberSelf | main.py:97-106 | no arguments: the store is unchanged and the usage hint is sent. Otherwise only the sender's facts change: old facts (or empty), then a space and the joined fact |
| Handlers.RememberOther | main.py:109-121 | fewer than two arguments, or a non-integer id: the store is unchanged and the matching hint is sent. Otherwise only the target id's facts change, by the remaining arguments joined |
| Bot.Step | main.py:126-129 | dispatches each update to its handler; commands never touch histories and messages never touch nicknames or facts |
| Bot.StepFactsExtend | main.py:97-121 | no single update removes or rewrites a user's facts: the old facts are a prefix of the new ones |
| Bot.RunFactsExtend | main.py:103-118 | facts are append-only over any sequence of updates, with each backend call answering independently |
| Bot.NicknameThenMessage | main.py:89-94 | after `/callme` with arguments, the sender's next message is framed as the joined arguments, ": ", then the text |
| Bot.FactsInInsertionOrder | main.py:103-105 | after two `/rememberme` commands, both facts are in the sender's facts, the first before the second |
| Bot.RememberUserRejectsText | main.py:114-121 | `/rememberuser abc fact` changes nothing and replies that the id must be a number |
| Bot.FirstPrivateExchange | main.py:57-79 | on an empty store, a private "привет" answered "привет, братишка" stores exactly [user "Ден: привет", model "привет, братишка"] |
| Bot.FailedExchangeOverflows | main.py:66-83 | as written, a failed exchange on a chat with 20 stored entries leaves 21, and the history changes |
| Bot.RunCorrectedBounded | main.py:76-77 | with the corrected failure path, every chat's history stays within 20 entries over any run |

## Findings

| source | as written | input that shows it | evidently intended | confidence | as-written member | corrected member |
|---|---|---|---|---|---|---|
| main.py:66-83 | For an existing chat, `history` is the stored list itself. The new turns are appended to it before the `try`, so on failure they stay stored, with no trim | A chat with 20 stored entries whose next generation raises: 21 entries are stored (22 with facts), and repeated failures keep growing it | A failed exchange is not recorded, and every history stays within 20 entries | medium, not executed | Bot.FailedExchangeOverflows | Handlers.PersistCorrected |

`Bot.Step` and `Bot.Run` keep the as-written behaviour, because that is how
the bot actually behaves. `Bot.StepCorrected` and `Bot.RunCorrected` use the
corrected failure path. `Bot.RunCorrectedBounded` proves the twenty-entry
bound over them.

## Left out

- Telegram plumbing: update objects, handler registration, polling and `main()` (main.py:1-8, 124-135). Replies are the `reply` field of the outcome.
- Handlers.Persist: the model does not cover `reply_text` raising after a successful generation. In the source, that exception is caught by the same handler (main.py:79-83): the history is already stored and the apology is sent as well. Delivery failures belong to the transport.
- Gemini configuration, the persona text and sampling settings (main.py:9, 17-31). The call itself is the `Backend` parameter.
- Environment variables and `print` logging (main.py:13-14, 82, 131).
- Async scheduling: each update is one atomic transition.
- Strings.LowerChar: folds only ASCII `A`-`Z` and Cyrillic U+0400..U+042F. Python's `str.lower()` folds every other cased character too: the rest of Cyrillic (`Ґ` U+0490, `Ѣ` U+0462), accented Latin letters such as `À`, and the Kelvin sign U+212A, which folds to ASCII `k`. A handle typed with the Kelvin sign is therefore a mention in the bot but not in this model.
- Numbers.ParseInt: accepts only an optional sign followed by ASCII digits. Python's `int()` also accepts surrounding whitespace, underscores between digits and non-ASCII digits. The arguments come from a whitespace split, so they never contain whitespace.
- `message.text` is never absent: the handler is registered for text messages only.
- `Strings.Words` describes how the bot framework splits a command into arguments. It is not part of this repository, and is included only as the inverse of `Join`. Strings.IsSpace covers only the ASCII whitespace of `str.split()`; Unicode spaces such as U+00A0 are not separators here.
- Channel posts: `update.message` is absent for them, so `handle_message` fails at main.py:42 before the gate. The model has no channel chat kind.
