/** The four update handlers of the bot: `handle_message` (main.py:39-83)
    and the commands `/callme`, `/rememberme` and `/rememberuser`
    (main.py:86-121). Each maps a store and an update to a new store and the
    reply sent back, if any. */
module Handlers {
  import opened Wrappers
  import opened Strings
  import opened Numbers
  import opened Memory
  import opened Inbound
  import opened Gate
  import opened Context

  /** Whatever the generation call raises: network, quota or a blocked answer. */
  datatype BackendError = BackendError(detail: string)

  /** The generative model: given the history and the new turn, the reply
      text or an error (`start_chat(history=...)` then `send_message(...)`). */
  type Backend = (seq<Entry>, string) -> Result<string, BackendError>

  /** The store after an update, and the text sent back to the chat (`None`
      when the bot stays silent). */
  datatype Outcome = Outcome(store: Store, reply: Option<string>)

  const Apology: string := "Чёт я затупил, братишка… Попробуй ещё разок."
  const CallMeUsage: string := "Ну ты кличку-то укажи, братишка. Пример: /callme Ден"
  const RememberMeUsage: string := "Напиши, что мне про тебя запомнить. Пример: /rememberme Мы ели пельмени"
  const RememberMeDone: string := "Записал в блокнотик, братишка 📒"
  const RememberUserUsage: string := "Пиши так: /rememberuser <user_id> <факт>"
  const RememberUserDone: string := "Всё, добавил к истории этого челика."
  const RememberUserBadId: string := "user_id должен быть числом, братишка."

  /** Confirmation of a new nickname. */
  function Renamed(nickname: string): string {
    "Всё, теперь ты у меня " + nickname + "."
  }

  /** What `handle_message` does with the backend's answer, as written. On
      success the reply is appended and the last twenty entries are stored.
      On failure the apology is sent; because the history list of an
      existing chat is the stored object itself, the new entries appended
      to it before the call stay in the store, untrimmed, while a fresh
      chat's throwaway list is dropped. */
  function Persist(st: Store, m: Message, result: Result<string, BackendError>): (r: Outcome)
    ensures r.store.nicknames == st.nicknames && r.store.facts == st.facts
    ensures r.store.histories - {m.chat.id} == st.histories - {m.chat.id}
    ensures result.Success? ==>
      && r.reply == Some(result.value)
      && m.chat.id in r.store.histories
      && r.store.histories[m.chat.id] == AppendReply(ContextFor(st, m), result.value)
    ensures result.Failure? ==> r.reply == Some(Apology)
    ensures result.Failure? && m.chat.id !in st.histories ==> r.store == st
    ensures result.Failure? && m.chat.id in st.histories ==>
      && m.chat.id in r.store.histories
      && r.store.histories[m.chat.id] == st.histories[m.chat.id] + TurnsFor(st, m)
      && |r.store.histories[m.chat.id]| > |st.histories[m.chat.id]|
  {
    match result
    case Success(text) =>
      Outcome(WithHistory(st, m.chat.id, AppendReply(ContextFor(st, m), text)), Some(text))
    case Failure(_) =>
      if m.chat.id in st.histories then
        Outcome(WithHistory(st, m.chat.id, ContextFor(st, m)), Some(Apology))
      else
        Outcome(st, Some(Apology))
  }

  /** After a successful exchange the chat's history holds at most twenty
      entries and ends with the framed user turn followed by the reply. */
  lemma SuccessEndsWithExchange(st: Store, m: Message, reply: string)
    ensures var h := Persist(st, m, Success(reply)).store.histories[m.chat.id];
      && 2 <= |h| <= HistoryLimit
      && h[|h| - 2] == Turn(User, FramedFor(st, m))
      && h[|h| - 1] == Turn(Model, reply)
  {
    var ctx := ContextFor(st, m);
    assert ctx[|ctx| - 1] == Turn(User, FramedFor(st, m));
  }

  /** `handle_message`: the gate, then one call to the backend with the
      assembled history and the framed turn. Messages never touch nicknames
      or facts, and the bot replies exactly when the gate lets the message
      through. */
  function HandleMessage(st: Store, bot: BotIdentity, generate: Backend, m: Message): (r: Outcome)
    ensures r.reply.None? <==> !ShouldRespond(bot, m)
    ensures !ShouldRespond(bot, m) ==> r.store == st
    ensures r.store.nicknames == st.nicknames && r.store.facts == st.facts
    ensures r.store.histories - {m.chat.id} == st.histories - {m.chat.id}
    ensures ShouldRespond(bot, m) ==> r == Persist(st, m, generate(ContextFor(st, m), FramedFor(st, m)))
  {
    if !ShouldRespond(bot, m) then Outcome(st, None)
    else Persist(st, m, generate(ContextFor(st, m), FramedFor(st, m)))
  }

  /** The failure path as evidently intended: the failed exchange is not
      recorded at all, so the store is exactly as before. Success is handled
      as in `Persist`. */
  function PersistCorrected(st: Store, m: Message, result: Result<string, BackendError>): (r: Outcome)
    ensures result.Failure? ==> r.store == st && r.reply == Some(Apology)
    ensures result.Success? ==>
      && r.reply == Some(result.value)
      && r.store == WithHistory(st, m.chat.id, AppendReply(ContextFor(st, m), result.value))
    ensures Bounded(st) ==> Bounded(r.store)
  {
    match result
    case Success(text) => Outcome(WithHistory(st, m.chat.id, AppendReply(ContextFor(st, m), text)), Some(text))
    case Failure(_) => Outcome(st, Some(Apology))
  }

  /** The correction changes only one case: a failed exchange on a chat that
      already has a history. Everywhere else it agrees with `Persist`. */
  lemma CorrectionOnlyOnFailure(st: Store, m: Message, result: Result<string, BackendError>)
    ensures PersistCorrected(st, m, result) == Persist(st, m, result)
      <==> result.Success? || m.chat.id !in st.histories
  {
  }

  /** `handle_message` with the corrected failure path. */
  function HandleMessageCorrected(st: Store, bot: BotIdentity, generate: Backend, m: Message): (r: Outcome)
    ensures r.reply.None? <==> !ShouldRespond(bot, m)
    ensures !ShouldRespond(bot, m) ==> r.store == st
    ensures Bounded(st) ==> Bounded(r.store)
    ensures generate(ContextFor(st, m), FramedFor(st, m)).Failure? ==> r.store == st
    ensures ShouldRespond(bot, m) && generate(ContextFor(st, m), FramedFor(st, m)).Failure? ==>
      r.reply == Some(Apology)
    ensures generate(ContextFor(st, m), FramedFor(st, m)).Success? ==> r == HandleMessage(st, bot, generate, m)
    ensures r.store.nicknames == st.nicknames && r.store.facts == st.facts
  {
    if !ShouldRespond(bot, m) then Outcome(st, None)
    else PersistCorrected(st, m, generate(ContextFor(st, m), FramedFor(st, m)))
  }

  /** `/callme`: with arguments, the sender's nickname becomes the arguments
      joined by single spaces and nothing else changes; without, only the
      usage hint is sent. */
  function SetNickname(st: Store, u: UserId, args: seq<string>): (r: Outcome)
    ensures |args| == 0 ==> r == Outcome(st, Some(CallMeUsage))
    ensures |args| > 0 ==>
      && u in r.store.nicknames
      && r.store.nicknames[u] == Join(args)
      && r.store.nicknames - {u} == st.nicknames - {u}
      && r.store.histories == st.histories
      && r.store.facts == st.facts
      && r.reply == Some(Renamed(Join(args)))
  {
    if |args| == 0 then Outcome(st, Some(CallMeUsage))
    else
      var nickname := Join(args);
      Outcome(st.(nicknames := st.nicknames[u := nickname]), Some(Renamed(nickname)))
  }

  /** `/rememberme`: with arguments, a space and the joined arguments are
      appended to the sender's facts (which start empty); without, only the
      usage hint is sent. */
  function RememberSelf(st: Store, u: UserId, args: seq<string>): (r: Outcome)
    ensures |args| == 0 ==> r == Outcome(st, Some(RememberMeUsage))
    ensures |args| > 0 ==>
      && u in r.store.facts
      && r.store.facts[u] == FactsOf(st, u) + " " + Join(args)
      && r.store.facts - {u} == st.facts - {u}
      && r.store.histories == st.histories
      && r.store.nicknames == st.nicknames
      && r.reply == Some(RememberMeDone)
  {
    if |args| == 0 then Outcome(st, Some(RememberMeUsage))
    else
      var facts := AddFact(st.facts, u, Join(args));
      assert facts[u] == FactsOf(st, u) + " " + Join(args);
      Outcome(st.(facts := facts), Some(RememberMeDone))
  }

  /** `/rememberuser <id> <fact...>`: fewer than two arguments, or a first
      argument that is not an integer, changes nothing and sends a hint;
      otherwise the remaining arguments, joined, are appended to the facts
      of the user with that id. */
  function RememberOther(st: Store, args: seq<string>): (r: Outcome)
    ensures |args| < 2 ==> r == Outcome(st, Some(RememberUserUsage))
    ensures |args| >= 2 && !IsIntLiteral(args[0]) ==> r == Outcome(st, Some(RememberUserBadId))
    ensures |args| >= 2 && IsIntLiteral(args[0]) ==>
      var target := ParseInt(args[0]).value;
      && target in r.store.facts
      && r.store.facts[target] == FactsOf(st, target) + " " + Join(args[1..])
      && r.store.facts - {target} == st.facts - {target}
      && r.store.histories == st.histories
      && r.store.nicknames == st.nicknames
      && r.reply == Some(RememberUserDone)
  {
    if |args| < 2 then Outcome(st, Some(RememberUserUsage))
    else
      match ParseInt(args[0])
      case None => Outcome(st, Some(RememberUserBadId))
      case Some(target) =>
        var facts := AddFact(st.facts, target, Join(args[1..]));
        assert facts[target] == FactsOf(st, target) + " " + Join(args[1..]);
        Outcome(st.(facts := facts), Some(RememberUserDone))
  }
}
