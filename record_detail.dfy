/**
 * The shape shared by the vehicle and motorcycle detail pages: look the
 * record up by the route's `:id`, list the fines whose plate is the
 * record's plate, or say the record was not found.
 */
module RecordDetail {

  import opened Common
  import opened Lists
  import opened Records

  datatype DetailView<R> =
    | NotFound
    | Found(record: R, fines: seq<Fine>)
  {
    /** The "no fines recorded" message replaces the list. */
    predicate ShowsNoFinesMessage()
    {
      Found? && |fines| == 0
    }
  }

  /** `find(r => r.id === id)`, where the route may give no id at all. */
  function Lookup<R>(records: seq<R>, idOf: R -> string, id: Option<string>): (r: Option<R>)
    ensures r.None? <==> id.None? || forall i :: 0 <= i < |records| ==> idOf(records[i]) != id.value
    ensures r.Some? ==> id.Some? && idOf(r.value) == id.value
    ensures r.Some? ==> exists i :: 0 <= i < |records| && records[i] == r.value
                                  && forall j :: 0 <= j < i ==> idOf(records[j]) != id.value
  {
    match id
    case None => None
    case Some(key) => FindById(records, idOf, key)
  }

  /**
   * `fines.filter(f => f.plate === record?.plate)`: the fines whose plate is
   * the given one, in order; none when there is no record.
   */
  function FinesOfPlate(fines: seq<Fine>, plate: Option<string>): (r: seq<Fine>)
    ensures forall i :: 0 <= i < |fines| ==> (fines[i] in r <==> plate.Some? && fines[i].plate == plate.value)
    ensures forall i :: 0 <= i < |r| ==> r[i] in fines
    ensures plate.None? ==> r == []
  {
    var keep := (f: Fine) => plate.Some? && f.plate == plate.value;
    var r := Filter(fines, keep);
    assert |r| > 0 ==> keep(r[0]);
    r
  }

  /** The listed fines keep the table's order: listing two halves and joining them lists the whole. */
  lemma FinesOfPlateKeepsOrder(a: seq<Fine>, b: seq<Fine>, plate: Option<string>)
    ensures FinesOfPlate(a + b, plate) == FinesOfPlate(a, plate) + FinesOfPlate(b, plate)
  {
    FilterConcat(a, b, (f: Fine) => plate.Some? && f.plate == plate.value);
  }

  /**
   * The page: "not found" exactly when no record carries the id; otherwise
   * the first record with that id and exactly the fines with its plate.
   */
  function Detail<R>(records: seq<R>, idOf: R -> string, plateOf: R -> string, fines: seq<Fine>, id: Option<string>): (r: DetailView<R>)
    ensures r.NotFound? <==> id.None? || forall i :: 0 <= i < |records| ==> idOf(records[i]) != id.value
    ensures r.Found? ==> id.Some? && idOf(r.record) == id.value && r.record in records
    ensures r.Found? ==> exists i :: 0 <= i < |records| && records[i] == r.record
                                  && forall j :: 0 <= j < i ==> idOf(records[j]) != id.value
    ensures r.Found? ==> forall i :: 0 <= i < |fines| ==> (fines[i] in r.fines <==> fines[i].plate == plateOf(r.record))
    ensures r.Found? ==> (r.ShowsNoFinesMessage() <==> forall i :: 0 <= i < |fines| ==> fines[i].plate != plateOf(r.record))
  {
    var record := Lookup(records, idOf, id);
    var listed := FinesOfPlate(fines, match record case None => None case Some(x) => Some(plateOf(x)));
    match record
    case None => NotFound
    case Some(x) =>
      assert forall i :: 0 <= i < |fines| && fines[i].plate == plateOf(x) ==> |listed| > 0;
      assert |listed| > 0 ==> listed[0] in fines && listed[0].plate == plateOf(x);
      Found(x, listed)
  }

  /**
   * When the first record carrying `key` is the `k`th, and no fine has its
   * plate, the page shows that record with the "no fines" message.
   */
  lemma NoFinesForFirstMatch<R>(records: seq<R>, idOf: R -> string, plateOf: R -> string, fines: seq<Fine>, key: string, k: int)
    requires 0 <= k < |records| && idOf(records[k]) == key
    requires forall j :: 0 <= j < k ==> idOf(records[j]) != key
    requires forall i :: 0 <= i < |fines| ==> fines[i].plate != plateOf(records[k])
    ensures Detail(records, idOf, plateOf, fines, Some(key)) == Found(records[k], [])
  {
    var r := Detail(records, idOf, plateOf, fines, Some(key));
    var found := Lookup(records, idOf, Some(key));
    var i :| 0 <= i < |records| && records[i] == found.value && forall j :: 0 <= j < i ==> idOf(records[j]) != key;
    assert i == k;
  }
}
