/**
 * First-match lookup in an ordered keyword table: the
 * `table.find(r => r.keywords.some(k => text.includes(k)))` idiom of the
 * canned chat responder, and the `if … else if …` keyword chains of the
 * follow-up message builder.
 */
module KeywordMatch {
  import opened Wrappers
  import opened Strings

  /** One row of a table: its keywords, and what it answers with. */
  datatype Entry<T> = Entry(keywords: seq<string>, response: T)

  /** `keywords.some(k => text.includes(k))` */
  predicate AnyKeyword(keywords: seq<string>, text: string) {
    exists k | k in keywords :: Contains(text, k)
  }

  /** `table.find(…)`: the first entry, in table order, with a keyword contained in `text`. */
  function FirstMatch<T>(table: seq<Entry<T>>, text: string): Option<Entry<T>> {
    if table == [] then None
    else if AnyKeyword(table[0].keywords, text) then Some(table[0])
    else FirstMatch(table[1..], text)
  }

  /**
   * Nothing is found exactly when no entry matches; what is found is the
   * matching entry with the least index.
   */
  lemma {:induction false} FirstMatchSpec<T>(table: seq<Entry<T>>, text: string)
    ensures FirstMatch(table, text).None? <==> forall i :: 0 <= i < |table| ==> !AnyKeyword(table[i].keywords, text)
    ensures FirstMatch(table, text).Some? ==>
      exists i :: (0 <= i < |table| && FirstMatch(table, text).value == table[i]
                   && AnyKeyword(table[i].keywords, text)
                   && forall j :: 0 <= j < i ==> !AnyKeyword(table[j].keywords, text))
  {
    if table != [] && !AnyKeyword(table[0].keywords, text) {
      var rest := table[1..];
      FirstMatchSpec(rest, text);
      assert forall i :: 1 <= i < |table| ==> table[i] == rest[i - 1];
      if FirstMatch(rest, text).Some? {
        var i :| 0 <= i < |rest| && FirstMatch(rest, text).value == rest[i]
                 && AnyKeyword(rest[i].keywords, text)
                 && forall j :: 0 <= j < i ==> !AnyKeyword(rest[j].keywords, text);
        assert FirstMatch(table, text).value == table[i + 1];
        assert forall j :: 0 <= j < i + 1 ==> !AnyKeyword(table[j].keywords, text);
      }
    } else if table != [] {
      assert FirstMatch(table, text).value == table[0];
    }
  }

  /** The entry found is the one at the least matching index, stated from an index. */
  lemma FirstMatchAt<T>(table: seq<Entry<T>>, text: string, k: nat)
    requires k < |table| && AnyKeyword(table[k].keywords, text)
    requires forall j :: 0 <= j < k ==> !AnyKeyword(table[j].keywords, text)
    ensures FirstMatch(table, text) == Some(table[k])
  {
    FirstMatchSpec(table, text);
    var r := FirstMatch(table, text);
    var i :| 0 <= i < |table| && r.value == table[i]
             && AnyKeyword(table[i].keywords, text)
             && forall j :: 0 <= j < i ==> !AnyKeyword(table[j].keywords, text);
    assert i == k;
  }

  /** A row with two keywords matches when the text contains either. */
  lemma AnyKeywordPair(keywords: seq<string>, text: string)
    requires |keywords| == 2
    ensures AnyKeyword(keywords, text) <==> Contains(text, keywords[0]) || Contains(text, keywords[1])
  {
    assert keywords[0] in keywords && keywords[1] in keywords;
  }
}
