/** The fines list page: a searchable, status-filtered table with edit and delete. */
module FinesPage {

  import opened Common
  import opened Text
  import opened Lists
  import opened Records

  const InitialFines: seq<Fine> := [
    Fine("1", "GOM45D", "Feu rouge grillé", "Marie", "Centre-ville", "2025-10-10", 80000, "CDF", PENDING),
    Fine("2", "BB123C", "Assurance expirée", "Richard", "Keshero", "2025-10-07", 200000, "CDF", PAID),
    Fine("3", "KIN89Z", "Stationnement interdit", "Jean", "Lycée Wima", "2025-10-05", 50000, "CDF", LATE),
    Fine("4", "1234AB", "Excès de vitesse", "Salomon", "Aéroport", "2025-10-02", 120000, "CDF", PAID),
    Fine("5", "GOM 456 CD", "Défaut de casque", "Kavira Mukeba", "Rond-point Signers", "2025-10-01", 25000, "CDF", PENDING)
  ]

  /** The row test of `filteredFines`. */
  predicate Shown(f: Fine, searchTerm: string, statusFilter: string)
  {
    && (ContainsIgnoringCase(f.plate, searchTerm) || ContainsIgnoringCase(f.driver, searchTerm))
    && (statusFilter == "all" || f.status == statusFilter)
  }

  /**
   * `filteredFines`: a fine is listed exactly when its plate or its driver
   * contains the search term, ignoring case, and the status filter is "all"
   * or equals its status.
   */
  function FilteredFines(fines: seq<Fine>, searchTerm: string, statusFilter: string): (r: seq<Fine>)
    ensures forall i :: 0 <= i < |fines| ==> (fines[i] in r <==> Shown(fines[i], searchTerm, statusFilter))
    ensures forall i :: 0 <= i < |r| ==> r[i] in fines
  {
    Filter(fines, f => Shown(f, searchTerm, statusFilter))
  }

  /** With no search term and the filter on "all", every fine is listed, in order. */
  lemma UnfilteredShowsAll(fines: seq<Fine>)
    ensures FilteredFines(fines, "", "all") == fines
  {
    forall i | 0 <= i < |fines| ensures Shown(fines[i], "", "all") {
      EmptyTermMatches(fines[i].plate);
    }
    FilterKeepsAll(fines, f => Shown(f, "", "all"));
  }

  /** The filtered list keeps the page's order: filtering two halves and joining them is filtering the whole. */
  lemma FilteredFinesKeepsOrder(a: seq<Fine>, b: seq<Fine>, searchTerm: string, statusFilter: string)
    ensures FilteredFines(a + b, searchTerm, statusFilter)
         == FilteredFines(a, searchTerm, statusFilter) + FilteredFines(b, searchTerm, statusFilter)
  {
    FilterConcat(a, b, f => Shown(f, searchTerm, statusFilter));
  }

  /** The search is case-insensitive: typing the term in capitals lists the same fines. */
  lemma SearchIgnoresTermCase(fines: seq<Fine>, searchTerm: string, statusFilter: string)
    ensures FilteredFines(fines, Upper(searchTerm), statusFilter) == FilteredFines(fines, searchTerm, statusFilter)
  {
    forall i | 0 <= i < |fines|
      ensures Shown(fines[i], Upper(searchTerm), statusFilter) == Shown(fines[i], searchTerm, statusFilter)
    {
      SearchIgnoresCase(fines[i].plate, searchTerm);
      SearchIgnoresCase(fines[i].driver, searchTerm);
    }
    FilterAgrees(fines, f => Shown(f, Upper(searchTerm), statusFilter), f => Shown(f, searchTerm, statusFilter));
  }

  class FinesPage {
    var fines: seq<Fine>
    var searchTerm: string
    var statusFilter: string
    var editingFine: Option<Fine>

    constructor ()
      ensures fines == InitialFines && searchTerm == "" && statusFilter == "all" && editingFine == None
    {
      fines := InitialFines;
      searchTerm := "";
      statusFilter := "all";
      editingFine := None;
    }

    /** The rows on screen. */
    function Visible(): seq<Fine>
      reads this
    {
      FilteredFines(fines, searchTerm, statusFilter)
    }

    /** The search box's `setSearchTerm`: the rows on screen are then those the new term selects. */
    method SetSearchTerm(value: string)
      modifies this
      ensures searchTerm == value
      ensures fines == old(fines) && statusFilter == old(statusFilter) && editingFine == old(editingFine)
      ensures forall i :: 0 <= i < |fines| ==> (fines[i] in Visible() <==> Shown(fines[i], searchTerm, statusFilter))
    {
      searchTerm := value;
    }

    /** The status select: the rows on screen are then those of the new status (or all of them for "all"). */
    method SetStatusFilter(value: string)
      modifies this
      ensures statusFilter == value
      ensures fines == old(fines) && searchTerm == old(searchTerm) && editingFine == old(editingFine)
      ensures forall i :: 0 <= i < |fines| ==> (fines[i] in Visible() <==> Shown(fines[i], searchTerm, value))
    {
      statusFilter := value;
    }

    /** The row menu's "edit": opens the edit modal on `fine`. */
    method OpenEditor(fine: Fine)
      modifies this
      ensures editingFine == Some(fine)
      ensures fines == old(fines) && searchTerm == old(searchTerm) && statusFilter == old(statusFilter)
    {
      editingFine := Some(fine);
    }

    /**
     * `handleSave`: every fine carrying the updated fine's id is replaced by
     * it, the others stay as they were, and the modal closes.
     */
    method HandleSave(updatedFine: Fine)
      modifies this
      ensures fines == ReplaceById(old(fines), FineId, updatedFine)
      ensures editingFine == None
      ensures searchTerm == old(searchTerm) && statusFilter == old(statusFilter)
    {
      fines := ReplaceById(fines, FineId, updatedFine);
      editingFine := None;
    }

    /** The edit modal's close button. */
    method CloseEditor()
      modifies this
      ensures editingFine == None
      ensures fines == old(fines) && searchTerm == old(searchTerm) && statusFilter == old(statusFilter)
    {
      editingFine := None;
    }

    /** `handleDelete`, behind the confirmation dialog's answer. */
    method HandleDelete(fineId: string, confirmed: bool)
      modifies this
      ensures fines == if confirmed then RemoveById(old(fines), FineId, fineId) else old(fines)
      ensures editingFine == old(editingFine)
      ensures searchTerm == old(searchTerm) && statusFilter == old(statusFilter)
    {
      if confirmed {
        fines := RemoveById(fines, FineId, fineId);
      }
    }
  }
}
