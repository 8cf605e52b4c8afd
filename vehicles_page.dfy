/** The vehicles list page: a searchable table with edit and delete. */
module VehiclesPage {

  import opened Common
  import opened Text
  import opened Lists
  import opened Records

  const InitialVehicles: seq<Vehicle> := [
    Vehicle("1", "https://picsum.photos/seed/salomon/200/200", "Salomon", "Goma", "NA", "1234AB", "Nissan Juke", 2000, "Rouge", None, None, Valid, Valid),
    Vehicle("2", "https://picsum.photos/seed/richard/200/200", "Richard", "Bukavu", "0922", "BB123C", "Toyota Rav4", 2000, "Verte", None, None, Expired, Valid),
    Vehicle("3", "https://picsum.photos/seed/jean/200/200", "Jean", "Kinshasa", "1023", "KIN89Z", "Honda CRV", 2015, "Noire", None, None, Valid, ExpiringSoon),
    Vehicle("4", "https://picsum.photos/seed/marie/200/200", "Marie", "Goma", "4589", "GOM45D", "Mercedes C300", 2018, "Blanche", None, None, Valid, Valid),
    Vehicle("5", "https://picsum.photos/seed/paul/200/200", "Paul", "Kinshasa", "7854", "KIN22X", "Ford Ranger", 2021, "Grise", None, None, Valid, Valid)
  ]

  /** The row test of `filteredVehicles`. */
  predicate Shown(v: Vehicle, searchTerm: string)
  {
    || ContainsIgnoringCase(v.plate, searchTerm)
    || ContainsIgnoringCase(v.owner, searchTerm)
    || ContainsIgnoringCase(v.makeModel, searchTerm)
  }

  /**
   * `filteredVehicles`: a vehicle is listed exactly when its plate, its
   * owner or its make and model contains the search term, ignoring case.
   */
  function FilteredVehicles(vehicles: seq<Vehicle>, searchTerm: string): (r: seq<Vehicle>)
    ensures forall i :: 0 <= i < |vehicles| ==> (vehicles[i] in r <==> Shown(vehicles[i], searchTerm))
    ensures forall i :: 0 <= i < |r| ==> r[i] in vehicles
  {
    Filter(vehicles, v => Shown(v, searchTerm))
  }

  /** An empty search lists every vehicle, in order. */
  lemma EmptySearchShowsAll(vehicles: seq<Vehicle>)
    ensures FilteredVehicles(vehicles, "") == vehicles
  {
    forall i | 0 <= i < |vehicles| ensures Shown(vehicles[i], "") {
      EmptyTermMatches(vehicles[i].plate);
    }
    FilterKeepsAll(vehicles, v => Shown(v, ""));
  }

  /** The search is case-insensitive: typing the term in capitals lists the same vehicles. */
  lemma SearchIgnoresTermCase(vehicles: seq<Vehicle>, searchTerm: string)
    ensures FilteredVehicles(vehicles, Upper(searchTerm)) == FilteredVehicles(vehicles, searchTerm)
  {
    forall i | 0 <= i < |vehicles|
      ensures Shown(vehicles[i], Upper(searchTerm)) == Shown(vehicles[i], searchTerm)
    {
      SearchIgnoresCase(vehicles[i].plate, searchTerm);
      SearchIgnoresCase(vehicles[i].owner, searchTerm);
      SearchIgnoresCase(vehicles[i].makeModel, searchTerm);
    }
    FilterAgrees(vehicles, v => Shown(v, Upper(searchTerm)), v => Shown(v, searchTerm));
  }

  class VehiclesPage {
    var vehicles: seq<Vehicle>
    var searchTerm: string
    var editingVehicle: Option<Vehicle>

    constructor ()
      ensures vehicles == InitialVehicles && searchTerm == "" && editingVehicle == None
    {
      vehicles := InitialVehicles;
      searchTerm := "";
      editingVehicle := None;
    }

    /** The rows on screen. */
    function Visible(): seq<Vehicle>
      reads this
    {
      FilteredVehicles(vehicles, searchTerm)
    }

    /** The search box's `setSearchTerm`: the rows on screen are then those the new term selects. */
    method SetSearchTerm(value: string)
      modifies this
      ensures searchTerm == value
      ensures vehicles == old(vehicles) && editingVehicle == old(editingVehicle)
      ensures forall i :: 0 <= i < |vehicles| ==> (vehicles[i] in Visible() <==> Shown(vehicles[i], searchTerm))
    {
      searchTerm := value;
    }

    /** The row menu's "edit": opens the edit modal on `vehicle`. */
    method OpenEditor(vehicle: Vehicle)
      modifies this
      ensures editingVehicle == Some(vehicle)
      ensures vehicles == old(vehicles) && searchTerm == old(searchTerm)
    {
      editingVehicle := Some(vehicle);
    }

    /** `handleSave`: the vehicles carrying the saved id are replaced and the modal closes. */
    method HandleSave(updatedVehicle: Vehicle)
      modifies this
      ensures vehicles == ReplaceById(old(vehicles), VehicleId, updatedVehicle)
      ensures editingVehicle == None
      ensures searchTerm == old(searchTerm)
    {
      vehicles := ReplaceById(vehicles, VehicleId, updatedVehicle);
      editingVehicle := None;
    }

    /** The edit modal's close button. */
    method CloseEditor()
      modifies this
      ensures editingVehicle == None
      ensures vehicles == old(vehicles) && searchTerm == old(searchTerm)
    {
      editingVehicle := None;
    }

    /** `handleDelete`, behind the confirmation dialog's answer. */
    method HandleDelete(vehicleId: string, confirmed: bool)
      modifies this
      ensures vehicles == if confirmed then RemoveById(old(vehicles), VehicleId, vehicleId) else old(vehicles)
      ensures editingVehicle == old(editingVehicle) && searchTerm == old(searchTerm)
    {
      if confirmed {
        vehicles := RemoveById(vehicles, VehicleId, vehicleId);
      }
    }
  }
}
