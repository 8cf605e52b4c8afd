/** The motorcycles list page: a searchable table with edit and delete. */
module MotorcyclesPage {

  import opened Common
  import opened Text
  import opened Lists
  import opened Records

  const InitialMotorcycles: seq<Motorcycle> := [
    Motorcycle("1", "https://picsum.photos/seed/moto1/200/200", "Kavira Mukeba", "Goma", "GOM 456 CD", "TVS Star HLX 125", 2023, "Rouge", None, None, ExpiringSoon, Valid),
    Motorcycle("2", "https://picsum.photos/seed/moto2/200/200", "Furaha Mutinga", "Goma", "GOM 789 EF", "Haojue 150", 2022, "Noire", None, None, Valid, Expired),
    Motorcycle("3", "https://picsum.photos/seed/moto3/200/200", "Agent Tambua", "Goma", "GOM 101 GH", "Boxer BM 150", 2024, "Bleue", None, None, Valid, Valid),
    Motorcycle("4", "https://picsum.photos/seed/moto4/200/200", "Baraka Amos", "Bukavu", "BUK 112 IJ", "Bajaj", 2021, "Grise", None, None, Valid, Valid)
  ]

  /** The row test of `filteredMotorcycles`. */
  predicate Shown(m: Motorcycle, searchTerm: string)
  {
    || ContainsIgnoringCase(m.plate, searchTerm)
    || ContainsIgnoringCase(m.owner, searchTerm)
    || ContainsIgnoringCase(m.makeModel, searchTerm)
  }

  /**
   * `filteredMotorcycles`: a motorcycle is listed exactly when its plate, its
   * owner or its make and model contains the search term, ignoring case.
   */
  function FilteredMotorcycles(motorcycles: seq<Motorcycle>, searchTerm: string): (r: seq<Motorcycle>)
    ensures forall i :: 0 <= i < |motorcycles| ==> (motorcycles[i] in r <==> Shown(motorcycles[i], searchTerm))
    ensures forall i :: 0 <= i < |r| ==> r[i] in motorcycles
  {
    Filter(motorcycles, m => Shown(m, searchTerm))
  }

  /** An empty search lists every motorcycle, in order. */
  lemma EmptySearchShowsAll(motorcycles: seq<Motorcycle>)
    ensures FilteredMotorcycles(motorcycles, "") == motorcycles
  {
    forall i | 0 <= i < |motorcycles| ensures Shown(motorcycles[i], "") {
      EmptyTermMatches(motorcycles[i].plate);
    }
    FilterKeepsAll(motorcycles, m => Shown(m, ""));
  }

  /** The search is case-insensitive: typing the term in capitals lists the same motorcycles. */
  lemma SearchIgnoresTermCase(motorcycles: seq<Motorcycle>, searchTerm: string)
    ensures FilteredMotorcycles(motorcycles, Upper(searchTerm)) == FilteredMotorcycles(motorcycles, searchTerm)
  {
    forall i | 0 <= i < |motorcycles|
      ensures Shown(motorcycles[i], Upper(searchTerm)) == Shown(motorcycles[i], searchTerm)
    {
      SearchIgnoresCase(motorcycles[i].plate, searchTerm);
      SearchIgnoresCase(motorcycles[i].owner, searchTerm);
      SearchIgnoresCase(motorcycles[i].makeModel, searchTerm);
    }
    FilterAgrees(motorcycles, m => Shown(m, Upper(searchTerm)), m => Shown(m, searchTerm));
  }

  class MotorcyclesPage {
    var motorcycles: seq<Motorcycle>
    var searchTerm: string
    var editingMotorcycle: Option<Motorcycle>

    constructor ()
      ensures motorcycles == InitialMotorcycles && searchTerm == "" && editingMotorcycle == None
    {
      motorcycles := InitialMotorcycles;
      searchTerm := "";
      editingMotorcycle := None;
    }

    /** The rows on screen. */
    function Visible(): seq<Motorcycle>
      reads this
    {
      FilteredMotorcycles(motorcycles, searchTerm)
    }

    /** The search box's `setSearchTerm`: the rows on screen are then those the new term selects. */
    method SetSearchTerm(value: string)
      modifies this
      ensures searchTerm == value
      ensures motorcycles == old(motorcycles) && editingMotorcycle == old(editingMotorcycle)
      ensures forall i :: 0 <= i < |motorcycles| ==> (motorcycles[i] in Visible() <==> Shown(motorcycles[i], searchTerm))
    {
      searchTerm := value;
    }

    /** The row menu's "edit": opens the edit modal on `motorcycle`. */
    method OpenEditor(motorcycle: Motorcycle)
      modifies this
      ensures editingMotorcycle == Some(motorcycle)
      ensures motorcycles == old(motorcycles) && searchTerm == old(searchTerm)
    {
      editingMotorcycle := Some(motorcycle);
    }

    /** `handleSave`: the motorcycles carrying the saved id are replaced and the modal closes. */
    method HandleSave(updatedMotorcycle: Motorcycle)
      modifies this
      ensures motorcycles == ReplaceById(old(motorcycles), MotorcycleId, updatedMotorcycle)
      ensures editingMotorcycle == None
      ensures searchTerm == old(searchTerm)
    {
      motorcycles := ReplaceById(motorcycles, MotorcycleId, updatedMotorcycle);
      editingMotorcycle := None;
    }

    /** The edit modal's close button. */
    method CloseEditor()
      modifies this
      ensures editingMotorcycle == None
      ensures motorcycles == old(motorcycles) && searchTerm == old(searchTerm)
    {
      editingMotorcycle := None;
    }

    /** `handleDelete`, behind the confirmation dialog's answer. */
    method HandleDelete(motorcycleId: string, confirmed: bool)
      modifies this
      ensures motorcycles == if confirmed then RemoveById(old(motorcycles), MotorcycleId, motorcycleId) else old(motorcycles)
      ensures editingMotorcycle == old(editingMotorcycle) && searchTerm == old(searchTerm)
    {
      if confirmed {
        motorcycles := RemoveById(motorcycles, MotorcycleId, motorcycleId);
      }
    }
  }
}
