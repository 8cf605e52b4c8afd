/**
 * The search step shared by the three print modals: the agent types a key,
 * submits, and after a delay the key, trimmed and upper-cased, is looked up
 * in a fixed table; the modal then shows either the record's preview or an
 * error naming the key.
 */
module PrintSearch {

  import opened Common
  import opened Text

  /** `input.trim().toUpperCase()`. */
  function NormalizeKey(input: string): (r: string)
    ensures |r| <= |input|
  {
    Upper(Trim(input))
  }

  /** Whitespace around the input does not change the key. */
  lemma NormalizeIgnoresPadding(ws1: string, input: string, ws2: string)
    requires AllWhitespace(ws1) && AllWhitespace(ws2)
    ensures NormalizeKey(ws1 + input + ws2) == NormalizeKey(input)
  {
    TrimIgnoresPadding(ws1, input, ws2);
  }

  /** The letter case of the input does not change the key. */
  lemma NormalizeIgnoresCase(input: string)
    ensures NormalizeKey(Lower(input)) == NormalizeKey(input)
  {
    TrimOfLower(input);
    UpperOfLower(Trim(input));
  }

  /** The key is the input's inner text: only its letters' case may differ. */
  lemma NormalizeKeepsInnerText(input: string)
    ensures Lower(NormalizeKey(input)) == Lower(Trim(input))
  {
    LowerOfUpper(Trim(input));
  }

  /** A key with no surrounding whitespace and no lower-case letter is its own normal form. */
  lemma NormalKeyIsFixed(key: string)
    requires key == [] || (!IsJsWhitespace(key[0]) && !IsJsWhitespace(key[|key| - 1]))
    requires forall i :: 0 <= i < |key| ==> !('a' <= key[i] <= 'z')
    ensures NormalizeKey(key) == key
  {
    assert Trim(key) == key by {
      assert [] + key == key && key + [] == key;
      TrimStartOfPadded([], key);
      TrimEndOfPadded(key, []);
    }
    assert Upper(key) == key;
  }

  /** What the delayed lookup yields. */
  datatype SearchResult<D> = Hit(record: D) | Miss(message: string)

  /** The error shown on a miss: a lead-in and the key between double quotes. */
  function MissMessage(lead: string, key: string): (r: string)
    ensures Contains(r, key)
  {
    var r := lead + "\"" + key + "\".";
    assert r[|lead| + 1..|lead| + 1 + |key|] == key;
    assert OccursAt(r, key, |lead| + 1);
    r
  }

  /** The body of the timer: look the normalised key up in `db`. */
  function Resolve<D>(db: map<string, D>, lead: string, input: string): (r: SearchResult<D>)
    ensures r.Hit? <==> NormalizeKey(input) in db
    ensures r.Hit? ==> r.record == db[NormalizeKey(input)]
    ensures r.Miss? ==> r.message == MissMessage(lead, NormalizeKey(input))
  {
    var key := NormalizeKey(input);
    if key in db then Hit(db[key]) else Miss(MissMessage(lead, key))
  }

  /** Typing the key in another case, or with whitespace around it, finds the same record. */
  lemma ResolveIgnoresPaddingAndCase<D>(db: map<string, D>, lead: string, ws1: string, input: string, ws2: string)
    requires AllWhitespace(ws1) && AllWhitespace(ws2)
    ensures Resolve(db, lead, ws1 + Lower(input) + ws2) == Resolve(db, lead, input)
  {
    NormalizeIgnoresPadding(ws1, Lower(input), ws2);
    NormalizeIgnoresCase(input);
  }

  class SearchModal<D> {
    /** The fixed table and the error's lead-in of this modal. */
    const db: map<string, D>
    const lead: string
    var input: string
    var isLoading: bool
    var error: Option<string>
    var found: Option<D>
    /** The input captured by the running timer, if one is running. */
    var pending: Option<string>

    /** A timer runs exactly while loading, and a loading modal shows neither a record nor an error. */
    predicate Valid()
      reads this
    {
      && (isLoading <==> pending.Some?)
      && (isLoading ==> found.None? && error.None?)
      && !(found.Some? && error.Some?)
    }

    /** Once a record is found, its preview replaces the search form. */
    predicate ShowsPreview()
      reads this
    {
      found.Some?
    }

    constructor (db: map<string, D>, lead: string)
      ensures Valid()
      ensures this.db == db && this.lead == lead
      ensures input == "" && !isLoading && error.None? && found.None? && pending.None?
    {
      this.db := db;
      this.lead := lead;
      input := "";
      isLoading := false;
      error := None;
      found := None;
      pending := None;
    }

    /**
     * The input's `onChange`. The input belongs to the search form, which is
     * on screen only while no record is previewed.
     */
    method SetInput(value: string)
      requires Valid() && !ShowsPreview()
      modifies this
      ensures Valid()
      ensures input == value
      ensures isLoading == old(isLoading) && error == old(error) && found == old(found) && pending == old(pending)
    {
      input := value;
    }

    /**
     * `handleSearch`: a blank input does nothing; otherwise loading starts,
     * the error and the record are cleared and the timer captures the input.
     * The submit button is disabled while loading, so no search starts then,
     * and the form is replaced by the preview once a record is found, so no
     * search starts from there either.
     */
    method SearchStart()
      requires Valid() && !isLoading && !ShowsPreview()
      modifies this
      ensures Valid()
      ensures AllWhitespace(old(input)) ==> input == old(input) && !isLoading && error == old(error) && found == old(found) && pending == old(pending)
      ensures !AllWhitespace(old(input)) ==> isLoading && error.None? && found.None? && pending == Some(old(input))
      ensures input == old(input)
    {
      TrimEmptyIffBlank(input);
      if Trim(input) == [] {
        return;
      }
      isLoading := true;
      error := None;
      found := None;
      pending := Some(input);
    }

    /** The timer fires: exactly one of record and error is set, and loading ends. */
    method SearchComplete()
      requires Valid() && pending.Some?
      modifies this
      ensures Valid()
      ensures !isLoading && pending.None? && input == old(input)
      ensures match Resolve(db, lead, old(pending).value)
              case Hit(record) => found == Some(record) && error.None?
              case Miss(message) => error == Some(message) && found.None?
    {
      var result := Resolve(db, lead, pending.value);
      Settle(result);
    }

    /** Ends loading and shows a lookup result: the record's preview or the error. */
    method Settle(result: SearchResult<D>)
      requires Valid() && isLoading
      modifies this
      ensures Valid()
      ensures !isLoading && pending.None? && input == old(input)
      ensures match result
              case Hit(record) => found == Some(record) && error.None?
              case Miss(message) => error == Some(message) && found.None?
    {
      match result {
        case Hit(record) => found := Some(record);
        case Miss(message) => error := Some(message);
      }
      isLoading := false;
      pending := None;
    }
  }
}
