/** The motorcycle detail page (`/motorcycles/:id`). */
module MotorcycleDetailPage {

  import opened Common
  import opened Records
  import opened RecordDetail
  import MotorcyclesPage

  /** The page's own motorcycle table holds the same four motorcycles as the list page. */
  const MockMotorcycles: seq<Motorcycle> := MotorcyclesPage.InitialMotorcycles

  const MockFines: seq<Fine> := [
    Fine("5", "GOM 456 CD", "Défaut de casque", "Kavira Mukeba", "Rond-point Signers", "01/10/2025", 25000, "CDF", PENDING)
  ]

  function MotorcyclePlate(m: Motorcycle): string { m.plate }

  /**
   * What the page shows for the route parameter `id`: "not found" exactly
   * when no motorcycle carries it, otherwise that motorcycle and exactly
   * the fines with its plate.
   */
  function Page(id: Option<string>): (r: DetailView<Motorcycle>)
    ensures r.NotFound? <==> id.None? || forall i :: 0 <= i < |MockMotorcycles| ==> MockMotorcycles[i].id != id.value
    ensures r.Found? ==> r.record.id == id.value && r.record in MockMotorcycles
    ensures r.Found? ==> forall i :: 0 <= i < |MockFines| ==> (MockFines[i] in r.fines <==> MockFines[i].plate == r.record.plate)
    ensures r.Found? ==> (r.ShowsNoFinesMessage() <==> forall i :: 0 <= i < |MockFines| ==> MockFines[i].plate != r.record.plate)
  {
    Detail(MockMotorcycles, MotorcycleId, MotorcyclePlate, MockFines, id)
  }

  /** Motorcycle "2" (plate GOM 789 EF) exists but has no fine, so the page shows the "no fines" message. */
  lemma MotorcycleWithoutFines()
    ensures Page(Some("2")).ShowsNoFinesMessage()
  {
    NoFinesForFirstMatch(MockMotorcycles, MotorcycleId, MotorcyclePlate, MockFines, "2", 1);
  }
}
