/** The bot's three process-lifetime maps (main.py:34-36) and the two
    updates made to them: appending a fact and keeping the last twenty
    history entries. */
module Memory {
  import opened Wrappers
  import Strings

  /** Telegram chat and user ids are plain integers. */
  type ChatId = int
  type UserId = int

  /** The author of a history entry: the user side or the model's reply. */
  datatype Role = User | Model

  /** One history entry `{"role": ..., "parts": [...]}`. */
  datatype Entry = Entry(role: Role, parts: seq<string>)

  /** An entry whose single part is `text`, as every entry the bot builds is. */
  function Turn(role: Role, text: string): (e: Entry)
    ensures e.role == role && e.parts == [text]
  {
    Entry(role, [text])
  }

  /** `user_history` (chat -> entries), `user_nicknames` and `user_facts`. */
  datatype Store = Store(
    histories: map<ChatId, seq<Entry>>,
    nicknames: map<UserId, string>,
    facts: map<UserId, string>)

  /** All three maps empty, as at start-up. */
  const Empty: Store := Store(map[], map[], map[])

  /** Number of entries kept after a successful exchange (`history[-20:]`). */
  const HistoryLimit: nat := 20

  /** `user_history.get(chat, [])`. */
  function HistoryOf(st: Store, chat: ChatId): seq<Entry> {
    Get(st.histories, chat, [])
  }

  /** `user_history[chat] = h`: only that chat's entry changes. */
  function WithHistory(st: Store, chat: ChatId, h: seq<Entry>): (r: Store)
    ensures chat in r.histories && r.histories[chat] == h
    ensures r.histories - {chat} == st.histories - {chat}
    ensures r.nicknames == st.nicknames && r.facts == st.facts
  {
    st.(histories := st.histories[chat := h])
  }

  /** Python's `s[-n:]` for `n > 0`: the last `n` elements, or all of `s`
      when it is shorter. */
  function LastN<T>(s: seq<T>, n: nat): (r: seq<T>)
    requires n > 0
    ensures |r| == if |s| <= n then |s| else n
    ensures r == s[|s| - |r|..]
    ensures s == s[..|s| - |r|] + r
  {
    if |s| <= n then s else s[|s| - n..]
  }

  /** Appends the model's reply to a non-empty context and trims: the entry
      that closed the context stays right before the reply. */
  function AppendReply(ctx: seq<Entry>, reply: string): (h: seq<Entry>)
    requires |ctx| > 0
    ensures |h| == if |ctx| + 1 <= HistoryLimit then |ctx| + 1 else HistoryLimit
    ensures h == (ctx + [Turn(Model, reply)])[|ctx| + 1 - |h|..]
    ensures |h| >= 2 && h[|h| - 2] == ctx[|ctx| - 1] && h[|h| - 1] == Turn(Model, reply)
  {
    var full := ctx + [Turn(Model, reply)];
    var h := LastN(full, HistoryLimit);
    assert h[|h| - 1] == full[|full| - 1];
    assert h[|h| - 2] == full[|full| - 2] == ctx[|ctx| - 1];
    h
  }

  /** `facts[u] = facts.get(u, "") + " " + fact` (main.py:104-105, 117-118). */
  function AddFact(facts: map<UserId, string>, u: UserId, fact: string): (m: map<UserId, string>)
    ensures m.Keys == facts.Keys + {u}
    ensures Strings.IsPrefix(Get(facts, u, ""), m[u])
    ensures m[u][|Get(facts, u, "")|..] == " " + fact
    ensures forall v :: v in facts && v != u ==> m[v] == facts[v]
  {
    var old_ := Get(facts, u, "");
    var m := facts[u := old_ + " " + fact];
    assert m[u][..|old_|] == old_;
    m
  }

  /** Every stored history holds at most `HistoryLimit` entries. */
  predicate Bounded(st: Store) {
    forall c :: c in st.histories ==> |st.histories[c]| <= HistoryLimit
  }
}
