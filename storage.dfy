/** The browser's `localStorage` as the widgets use it: a string-to-string store shared by
    every component of the page, holding the visitor's email, cached lead score and
    preferred language. */
module Storage {
  import opened Wrappers
  import opened Text

  const LeadScoreKey: string := "lead-score"
  const UserEmailKey: string := "user-email"
  const PreferredLanguageKey: string := "preferred-language"

  class Store {
    var items: map<string, string>

    constructor (initial: map<string, string>)
      ensures items == initial
    {
      items := initial;
    }

    /** `localStorage.getItem(key)`; `None` is `null`. */
    function GetItem(key: string): (r: Option<string>)
      reads this
      ensures r.Some? <==> key in items
      ensures r.Some? ==> r.value == items[key]
    {
      if key in items then Some(items[key]) else None
    }

    /** `localStorage.setItem(key, value)`. */
    method SetItem(key: string, value: string)
      modifies this
      ensures items == old(items)[key := value]
    {
      items := items[key := value];
    }
  }

  /** The cached lead score reads back as a number: it is absent, empty, or `parseInt`
      finds digits in it. */
  predicate ScoreReadable(items: map<string, string>) {
    LeadScoreKey in items && items[LeadScoreKey] != "" ==> ParseInt(items[LeadScoreKey]).Some?
  }

  /** `storedScore ? parseInt(storedScore) : 0` over the 'lead-score' entry. */
  function CachedScore(items: map<string, string>): (r: int)
    requires ScoreReadable(items)
    ensures LeadScoreKey !in items || items[LeadScoreKey] == "" ==> r == 0
    ensures LeadScoreKey in items && items[LeadScoreKey] != "" ==> ParseInt(items[LeadScoreKey]) == Some(r)
  {
    if LeadScoreKey in items && items[LeadScoreKey] != "" then ParseInt(items[LeadScoreKey]).value else 0
  }

  /** The two writes a form makes after a successful upsert: the email, then the score as text. */
  function RecordLead(items: map<string, string>, email: string, score: int): map<string, string> {
    items[UserEmailKey := email][LeadScoreKey := IntToString(score)]
  }

  /** Recording a lead keeps the cache readable, the cached score reads back as the score
      written, and every other entry is left alone. */
  lemma RecordLeadReadsBack(items: map<string, string>, email: string, score: int)
    ensures ScoreReadable(RecordLead(items, email, score))
    ensures CachedScore(RecordLead(items, email, score)) == score
    ensures RecordLead(items, email, score)[UserEmailKey] == email
    ensures forall k :: k in items && k != UserEmailKey && k != LeadScoreKey ==>
              k in RecordLead(items, email, score) && RecordLead(items, email, score)[k] == items[k]
  {
    assert UserEmailKey[0] != LeadScoreKey[0];
    var m := RecordLead(items, email, score);
    assert m[LeadScoreKey] == IntToString(score) != "";
    ParseIntToString(score);
  }
}
