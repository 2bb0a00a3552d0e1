/** The bot as a state machine: each Telegram update is one atomic
    transition of the store, and a run is a sequence of updates. */
module Bot {
  import opened Wrappers
  import opened Strings
  import opened Memory
  import opened Inbound
  import opened Context
  import opened Handlers

  /** The updates the bot registers handlers for (main.py:126-129). */
  datatype Event =
    | Text(m: Message)
    | CallMe(user: UserId, args: seq<string>)
    | RememberMe(user: UserId, args: seq<string>)
    | RememberUser(args: seq<string>)

  /** One update, handled as written. Commands never touch chat histories and
      messages never touch nicknames or facts. */
  function Step(st: Store, bot: BotIdentity, generate: Backend, ev: Event): (r: Outcome)
    ensures !ev.Text? ==> r.store.histories == st.histories
    ensures ev.Text? ==> r.store.nicknames == st.nicknames && r.store.facts == st.facts
  {
    match ev
    case Text(m) => HandleMessage(st, bot, generate, m)
    case CallMe(u, args) => SetNickname(st, u, args)
    case RememberMe(u, args) => RememberSelf(st, u, args)
    case RememberUser(args) => RememberOther(st, args)
  }

  /** One update, with the corrected failure path for messages. */
  function StepCorrected(st: Store, bot: BotIdentity, generate: Backend, ev: Event): Outcome {
    if ev.Text? then HandleMessageCorrected(st, bot, generate, ev.m) else Step(st, bot, generate, ev)
  }

  /** The store after handling `evs` in order, the `i`-th message answered
      by the backend `backends[i]`, so each call may answer differently. */
  function Run(st: Store, bot: BotIdentity, backends: seq<Backend>, evs: seq<Event>): Store
    requires |backends| == |evs|
    decreases |evs|
  {
    if |evs| == 0 then st
    else Run(Step(st, bot, backends[0], evs[0]).store, bot, backends[1..], evs[1..])
  }

  function RunCorrected(st: Store, bot: BotIdentity, backends: seq<Backend>, evs: seq<Event>): Store
    requires |backends| == |evs|
    decreases |evs|
  {
    if |evs| == 0 then st
    else RunCorrected(StepCorrected(st, bot, backends[0], evs[0]).store, bot, backends[1..], evs[1..])
  }

  /** Facts only ever grow at the end: every user's facts before an update
      are a prefix of their facts after it. */
  predicate FactsExtend(before: Store, after: Store) {
    forall u :: u in before.facts ==> u in after.facts && IsPrefix(before.facts[u], after.facts[u])
  }

  lemma StepFactsExtend(st: Store, bot: BotIdentity, generate: Backend, ev: Event)
    ensures FactsExtend(st, Step(st, bot, generate, ev).store)
  {
  }

  /** The facts of every user are append-only over any sequence of updates,
      whatever each backend call answers. */
  lemma {:induction false} RunFactsExtend(st: Store, bot: BotIdentity, backends: seq<Backend>, evs: seq<Event>)
    requires |backends| == |evs|
    ensures FactsExtend(st, Run(st, bot, backends, evs))
    decreases |evs|
  {
    if |evs| > 0 {
      var mid := Step(st, bot, backends[0], evs[0]).store;
      StepFactsExtend(st, bot, backends[0], evs[0]);
      RunFactsExtend(mid, bot, backends[1..], evs[1..]);
      var last := Run(st, bot, backends, evs);
      forall u | u in st.facts
        ensures u in last.facts && IsPrefix(st.facts[u], last.facts[u])
      {
        assert mid.facts[u][..|st.facts[u]|] == st.facts[u];
        assert last.facts[u][..|mid.facts[u]|] == mid.facts[u];
      }
    }
  }

  /** After `/callme` with arguments, the sender's next message is framed
      under the new nickname, e.g. "Ден: привет" after `/callme Ден`. */
  lemma NicknameThenMessage(st: Store, bot: BotIdentity, generate: Backend, args: seq<string>, m: Message)
    requires |args| > 0
    ensures FramedFor(Step(st, bot, generate, CallMe(m.sender.id, args)).store, m) == Join(args) + ": " + m.text
  {
  }

  /** Two `/rememberme` commands leave both facts in the sender's facts, the
      first before the second. */
  lemma FactsInInsertionOrder(st: Store, bot: BotIdentity, generate: Backend, u: UserId, first: seq<string>, second: seq<string>)
    requires |first| > 0 && |second| > 0
    ensures var f := Run(st, bot, [generate, generate], [RememberMe(u, first), RememberMe(u, second)]).facts;
      && u in f
      && exists i, j :: OccursAt(f[u], Join(first), i) && OccursAt(f[u], Join(second), j)
                        && i + |Join(first)| < j
  {
    var mid := Step(st, bot, generate, RememberMe(u, first)).store;
    var last := Step(mid, bot, generate, RememberMe(u, second)).store;
    var evs, backends := [RememberMe(u, first), RememberMe(u, second)], [generate, generate];
    assert evs[1..] == [RememberMe(u, second)] && backends[1..] == [generate];
    assert Run(mid, bot, backends[1..], evs[1..]) == Run(last, bot, [], []);
    var a, b, c := FactsOf(st, u), Join(first), Join(second);
    var f := last.facts[u];
    assert f == a + " " + b + " " + c;
    var i, j := |a| + 1, |a| + 1 + |b| + 1;
    assert f[i..i + |b|] == b;
    assert f[j..j + |c|] == c;
    assert OccursAt(f, b, i) && OccursAt(f, c, j);
  }

  /** `/rememberuser abc fact` is rejected and creates no facts for anyone. */
  lemma RememberUserRejectsText(st: Store, bot: BotIdentity, generate: Backend)
    ensures Step(st, bot, generate, RememberUser(["abc", "fact"])) == Outcome(st, Some(RememberUserBadId))
  {
  }

  /** A first private message "привет" from Ден, which a backend answers
      "привет, братишка", leaves exactly those two entries in the chat's
      history; the backend is asked with the framed line alone. */
  lemma FirstPrivateExchange(bot: BotIdentity, generate: Backend, chat: ChatId, u: UserId)
    requires generate([Turn(User, "Ден: привет")], "Ден: привет") == Success("привет, братишка")
    ensures
      var r := Step(Empty, bot, generate, Text(Message(Chat(chat, Private), Sender(u, "Ден"), "привет", None)));
      && r.reply == Some("привет, братишка")
      && r.store.histories == map[chat := [Turn(User, "Ден: привет"), Turn(Model, "привет, братишка")]]
      && r.store.nicknames == map[] && r.store.facts == map[]
  {
    var m := Message(Chat(chat, Private), Sender(u, "Ден"), "привет", None);
    assert HistoryOf(Empty, chat) == [] && FactsOf(Empty, u) == "";
    assert FramedFor(Empty, m) == "Ден" + ": " + "привет" == "Ден: привет";
    assert ContextFor(Empty, m) == [Turn(User, "Ден: привет")];
    var full := ContextFor(Empty, m) + [Turn(Model, "привет, братишка")];
    assert LastN(full, HistoryLimit) == full;
    assert full == [Turn(User, "Ден: привет"), Turn(Model, "привет, братишка")];
    var r := Step(Empty, bot, generate, Text(m));
    assert r.store.histories == Empty.histories[chat := full];
    assert Empty.histories[chat := full] == map[chat := full];
  }

  /** The store as written does not keep the twenty-entry bound: a chat with
      twenty stored entries whose next exchange fails ends up with
      twenty-one, and the failed exchange is not forgotten. */
  lemma FailedExchangeOverflows(bot: BotIdentity, chat: ChatId, sender: Sender, text: string)
    ensures
      var st := Store(map[chat := seq(HistoryLimit, i => Turn(User, "x"))], map[], map[]);
      var m := Message(Chat(chat, Private), sender, text, None);
      var failing: Backend := (h, t) => Failure(BackendError("quota"));
      var st' := Step(st, bot, failing, Text(m)).store;
      && Bounded(st)
      && !Bounded(st')
      && st'.histories != st.histories
  {
  }

  /** With the corrected failure path, every chat's history stays within
      twenty entries over any sequence of updates, whatever each backend call
      answers. */
  lemma {:induction false} RunCorrectedBounded(st: Store, bot: BotIdentity, backends: seq<Backend>, evs: seq<Event>)
    requires |backends| == |evs|
    requires Bounded(st)
    ensures Bounded(RunCorrected(st, bot, backends, evs))
    decreases |evs|
  {
    if |evs| > 0 {
      var ev := evs[0];
      var mid := StepCorrected(st, bot, backends[0], ev).store;
      if !ev.Text? {
        assert mid.histories == st.histories;
      }
      RunCorrectedBounded(mid, bot, backends[1..], evs[1..]);
    }
  }
}
