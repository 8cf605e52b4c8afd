/** The vehicle detail page (`/vehicles/:id`). */
module VehicleDetailPage {

  import opened Common
  import opened Records
  import opened RecordDetail
  import VehiclesPage

  /** The page's own vehicle table holds the same five vehicles as the list page. */
  const MockVehicles: seq<Vehicle> := VehiclesPage.InitialVehicles

  const MockFines: seq<Fine> := [
    Fine("1", "GOM45D", "Feu rouge grillé", "Marie", "Centre-ville", "10/10/2025", 80000, "CDF", PENDING),
    Fine("2", "BB123C", "Assurance expirée", "Richard", "Keshero", "07/10/2025", 200000, "CDF", PAID),
    Fine("3", "KIN89Z", "Stationnement interdit", "Jean", "Lycée Wima", "05/10/2025", 50000, "CDF", LATE)
  ]

  function VehiclePlate(v: Vehicle): string { v.plate }

  /**
   * What the page shows for the route parameter `id`: "not found" exactly
   * when no vehicle carries it, otherwise that vehicle and exactly the
   * fines with its plate.
   */
  function Page(id: Option<string>): (r: DetailView<Vehicle>)
    ensures r.NotFound? <==> id.None? || forall i :: 0 <= i < |MockVehicles| ==> MockVehicles[i].id != id.value
    ensures r.Found? ==> r.record.id == id.value && r.record in MockVehicles
    ensures r.Found? ==> forall i :: 0 <= i < |MockFines| ==> (MockFines[i] in r.fines <==> MockFines[i].plate == r.record.plate)
    ensures r.Found? ==> (r.ShowsNoFinesMessage() <==> forall i :: 0 <= i < |MockFines| ==> MockFines[i].plate != r.record.plate)
  {
    Detail(MockVehicles, VehicleId, VehiclePlate, MockFines, id)
  }

  /** Vehicle "5" (plate KIN22X) exists but has no fine, so the page shows the "no fines" message. */
  lemma VehicleWithoutFines()
    ensures Page(Some("5")).ShowsNoFinesMessage()
  {
    NoFinesForFirstMatch(MockVehicles, VehicleId, VehiclePlate, MockFines, "5", 4);
  }
}
