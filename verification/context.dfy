/** Context assembly in `handle_message` (main.py:62-71): the nickname
    lookup, the optional facts reminder and the framed user turn. */
module Context {
  import opened Wrappers
  import opened Memory
  import opened Inbound

  /** `user_nicknames.get(user_id, first_name)`. */
  function Nickname(st: Store, sender: Sender): string {
    Get(st.nicknames, sender.id, sender.firstName)
  }

  /** `user_facts.get(user_id, "")`. */
  function FactsOf(st: Store, u: UserId): string {
    Get(st.facts, u, "")
  }

  /** The line sent to the model for the user's message. */
  function Framed(nickname: string, text: string): string {
    nickname + ": " + text
  }

  /** The in-band reminder of what the bot knows about the user. */
  function Reminder(nickname: string, facts: string): string {
    "Вот что ты знаешь про " + nickname + ": " + facts
  }

  /** The entries a message adds after the prior history: the reminder when
      there are facts, then the framed message, all on the user side. */
  function NewTurns(nickname: string, facts: string, text: string): (t: seq<Entry>)
    ensures |t| == if facts == "" then 1 else 2
    ensures t[|t| - 1] == Turn(User, Framed(nickname, text))
    ensures facts != "" ==> t[0] == Turn(User, Reminder(nickname, facts))
    ensures forall i :: 0 <= i < |t| ==> t[i].role == User && |t[i].parts| == 1
  {
    (if facts != "" then [Turn(User, Reminder(nickname, facts))] else [])
      + [Turn(User, Framed(nickname, text))]
  }

  /** The framed text of `m` under the store's nickname for its sender. */
  function FramedFor(st: Store, m: Message): string {
    Framed(Nickname(st, m.sender), m.text)
  }

  /** The new entries for `m` read from the store. */
  function TurnsFor(st: Store, m: Message): seq<Entry> {
    NewTurns(Nickname(st, m.sender), FactsOf(st, m.sender.id), m.text)
  }

  /** The history handed to the model: the chat's prior history followed by
      the new entries, so it extends the prior history by one entry, or by
      two exactly when the sender has facts, and ends in the framed turn. */
  function ContextFor(st: Store, m: Message): (c: seq<Entry>)
    ensures |c| == |HistoryOf(st, m.chat.id)| + (if FactsOf(st, m.sender.id) == "" then 1 else 2)
    ensures c[..|HistoryOf(st, m.chat.id)|] == HistoryOf(st, m.chat.id)
    ensures c[|c| - 1] == Turn(User, FramedFor(st, m))
    ensures FactsOf(st, m.sender.id) != "" ==>
      c[|c| - 2] == Turn(User, Reminder(Nickname(st, m.sender), FactsOf(st, m.sender.id)))
  {
    HistoryOf(st, m.chat.id) + TurnsFor(st, m)
  }

  /** The nickname is the stored one when the sender has set it, and the
      sender's first name otherwise; the framed line is that name, a colon,
      a space and the text. */
  lemma FramingUsesNickname(st: Store, m: Message)
    ensures m.sender.id in st.nicknames ==> FramedFor(st, m) == st.nicknames[m.sender.id] + ": " + m.text
    ensures m.sender.id !in st.nicknames ==> FramedFor(st, m) == m.sender.firstName + ": " + m.text
  {
  }
}
