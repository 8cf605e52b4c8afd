/** The modal that finds a vehicle by plate and previews its pink card for printing. */
module PrintPinkCardModal {

  import opened Common
  import opened PrintSearch

  datatype PinkCardRecord = PinkCardRecord(
    plate: string, owner: string, address: string, make: string, model: string,
    year: string, chassis: string, color: string, issueDate: string)

  /** The vehicles the modal can find, by plate. */
  const VehicleDb: map<string, PinkCardRecord> := map[
    "BB123C" := PinkCardRecord(
      "BB123C", "RICHARD K.", "BUKAVU, RDC", "TOYOTA", "RAV4", "2000",
      "JTEHH20V-0045987", "VERTE", "2024-03-18"),
    "GOM45D" := PinkCardRecord(
      "GOM45D", "MARIE L.", "GOMA, RDC", "MERCEDES", "C300", "2018",
      "WDD205048-1F45678", "BLANCHE", "2024-05-22")]

  const Lead := "Aucun véhicule trouvé pour la plaque "

  /** Every vehicle is filed under its own plate. */
  lemma FiledUnderOwnPlate()
    ensures forall k :: k in VehicleDb ==> VehicleDb[k].plate == k
  {
  }

  /** A search finds a vehicle exactly when the normalised input is one of the two plates. */
  lemma FoundExactly(input: string)
    ensures Resolve(VehicleDb, Lead, input).Hit? <==> NormalizeKey(input) == "BB123C" || NormalizeKey(input) == "GOM45D"
  {
  }

  /** The search modal over the vehicle table. */
  method Open() returns (m: SearchModal<PinkCardRecord>)
    ensures fresh(m) && m.Valid() && m.db == VehicleDb && m.lead == Lead
    ensures m.input == "" && !m.isLoading && m.error.None? && m.found.None?
  {
    m := new SearchModal(VehicleDb, Lead);
  }
}
