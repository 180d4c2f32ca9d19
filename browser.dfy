/**
 * The browser's `localStorage`: a map from keys to stored texts, updated in
 * place. The text stored under a key is always `JSON.stringify` of a value,
 * and `JSON.parse` gives that value back, so a stored text is represented
 * here by the value it encodes.
 */
module Browser {
  import opened Wrappers
  import opened Records

  /** What a stored text can encode. `Raw` is a plain string stored without JSON. */
  datatype Json =
    | Raw(text: string)
    | AnswersJson(answers: DiagnosticAnswers)
    | ScoresJson(scores: Scores)
    | ToolRunsJson(runs: seq<ToolRun>)
    | ChatJson(messages: seq<ChatMessage>)

  class LocalStorage {
    var items: map<string, Json>

    constructor ()
      ensures items == map[]
    {
      items := map[];
    }

    /** `localStorage.getItem(key)`; `null` when the key is absent. */
    function GetItem(key: string): (r: Option<Json>)
      reads this
      ensures r.Some? <==> key in items
      ensures r.Some? ==> r.value == items[key]
    {
      if key in items then Some(items[key]) else None
    }

    /** `localStorage.setItem(key, value)` */
    method SetItem(key: string, value: Json)
      modifies this
      ensures items == old(items)[key := value]
    {
      items := items[key := value];
    }

    /** `localStorage.removeItem(key)` */
    method RemoveItem(key: string)
      modifies this
      ensures items == old(items) - {key}
    {
      items := items - {key};
    }
  }
}
