/** The response gate of `handle_message` (main.py:46-59): whether the bot
    answers a message at all. */
module Gate {
  import opened Wrappers
  import opened Strings
  import opened Inbound

  /** The persona's names; a message containing one wakes the bot. */
  const WakeWords: seq<string> := ["расул", "заменитель"]

  /** The bot's `@username`, lower-cased. */
  function Handle(username: string): string {
    "@" + Lower(username)
  }

  /** The lower-cased text contains a wake word or the bot's handle. */
  predicate Mentioned(text: string, username: string) {
    var t := Lower(text);
    Contains(t, WakeWords[0]) || Contains(t, WakeWords[1]) || Contains(t, Handle(username))
  }

  /** The message replies to a message the bot itself wrote. */
  predicate RepliesToBot(bot: BotIdentity, m: Message) {
    m.replyAuthor == Some(bot.id)
  }

  /** `should_respond = is_private or mentioned or is_reply_to_bot`. */
  predicate ShouldRespond(bot: BotIdentity, m: Message) {
    m.chat.kind == Private || Mentioned(m.text, bot.username) || RepliesToBot(bot, m)
  }

  /** The words that trigger a mention for a given bot. */
  function Triggers(username: string): seq<string> {
    WakeWords + [Handle(username)]
  }

  /** A mention is exactly an occurrence, at some position of the
      lower-cased text, of a wake word or of the handle. */
  lemma MentionedIff(text: string, username: string)
    ensures Mentioned(text, username) <==>
      exists k, i :: 0 <= k < |Triggers(username)| && OccursAt(Lower(text), Triggers(username)[k], i)
  {
    var t, ws := Lower(text), Triggers(username);
    ContainsIff(t, ws[0]);
    ContainsIff(t, ws[1]);
    ContainsIff(t, ws[2]);
    if exists k, i :: 0 <= k < |ws| && OccursAt(t, ws[k], i) {
      var k, i :| 0 <= k < |ws| && OccursAt(t, ws[k], i);
      assert k == 0 || k == 1 || k == 2;
    }
  }

  /** Mentions are case-insensitive: lower-casing the text first changes nothing. */
  lemma MentionedIgnoresCase(text: string, username: string)
    ensures Mentioned(Lower(text), username) == Mentioned(text, username)
  {
    LowerIdempotent(text);
  }

  /** Any spelling of a wake word, in any case, anywhere in the text wakes
      the bot (for instance "РАСУЛ" or "Расул"). */
  lemma WakeWordInAnyCase(text: string, word: string, username: string)
    requires Contains(text, word)
    requires Lower(word) == WakeWords[0] || Lower(word) == WakeWords[1]
    ensures Mentioned(text, username)
  {
    ContainsLower(text, word);
  }

  /** Empty text mentions nothing: neither wake word nor the handle occurs in it. */
  lemma EmptyTextNotMentioned(username: string)
    ensures !Mentioned("", username)
  {
  }

  /** The gate as a truth table: it answers iff at least one of its three
      conditions holds, so a group message with no mention that is not a
      reply to the bot is ignored. */
  lemma GateTruthTable(bot: BotIdentity, m: Message)
    ensures m.chat.kind == Private ==> ShouldRespond(bot, m)
    ensures m.chat.kind != Private && !Mentioned(m.text, bot.username) && !RepliesToBot(bot, m)
      ==> !ShouldRespond(bot, m)
    ensures m.text == "" && m.chat.kind != Private ==> (ShouldRespond(bot, m) <==> RepliesToBot(bot, m))
  {
  }
}
