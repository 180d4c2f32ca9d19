/** The persisted chat history: only the fifty most recent messages are kept. */
module ChatStorage {
  import opened Records
  import opened Browser

  const ChatHistoryKey := "parlios_chat_history"

  const MaxMessages := 50

  /**
   * `messages.slice(-n)`: for `n` from 1, the last `n` messages, or all of them
   * when there are fewer. `slice(-0)` is `slice(0)`, so `n` = 0 keeps them all.
   */
  function KeepLast(messages: seq<ChatMessage>, n: nat): (r: seq<ChatMessage>)
    ensures n > 0 ==> |r| == if |messages| < n then |messages| else n
    ensures |r| <= |messages| && r == messages[|messages| - |r|..]
    ensures |messages| <= n || n == 0 ==> r == messages
  {
    if n == 0 then messages
    else messages[if |messages| > n then |messages| - n else 0..]
  }

  /** Trimming again what was already trimmed changes nothing. */
  lemma KeepLastIdempotent(messages: seq<ChatMessage>, n: nat)
    ensures KeepLast(KeepLast(messages, n), n) == KeepLast(messages, n)
  {
  }

  /**
   * Saving after each new message keeps the same list as saving the whole
   * conversation at once: the trim can be applied incrementally.
   */
  lemma KeepLastAppend(messages: seq<ChatMessage>, m: ChatMessage, n: nat)
    ensures KeepLast(KeepLast(messages, n) + [m], n) == KeepLast(messages + [m], n)
  {
  }

  /** `getHistory`: the empty list when nothing was saved. */
  function GetHistory(ls: LocalStorage): (r: seq<ChatMessage>)
    reads ls
    ensures ChatHistoryKey !in ls.items ==> r == []
  {
    match ls.GetItem(ChatHistoryKey)
    case Some(ChatJson(messages)) => messages
    case _ => []
  }

  /** `saveHistory`: stores the last fifty messages, in their original order. */
  method SaveHistory(ls: LocalStorage, messages: seq<ChatMessage>)
    modifies ls
    ensures ls.items == old(ls.items)[ChatHistoryKey := ChatJson(KeepLast(messages, MaxMessages))]
    ensures |GetHistory(ls)| <= MaxMessages
    ensures GetHistory(ls) == messages[|messages| - |GetHistory(ls)|..]
    ensures |messages| <= MaxMessages ==> GetHistory(ls) == messages
  {
    var trimmed := KeepLast(messages, MaxMessages);
    ls.SetItem(ChatHistoryKey, ChatJson(trimmed));
  }

  /** `clearHistory`: removes the key, so the history reads back as empty. */
  method ClearHistory(ls: LocalStorage)
    modifies ls
    ensures ls.items == old(ls.items) - {ChatHistoryKey}
    ensures GetHistory(ls) == []
  {
    ls.RemoveItem(ChatHistoryKey);
  }
}
