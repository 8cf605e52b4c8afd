/** The modal that finds a driving licence by number and previews it for printing. */
module PrintLicenseModal {

  import opened Common
  import opened PrintSearch

  datatype LicenseRecord = LicenseRecord(
    licenseNumber: string, lastName: string, firstName: string, dob: string,
    issueDate: string, expiryDate: string, categories: seq<string>,
    photoUrl: string, nationality: string)

  /** The licences the modal can find, by licence number. */
  const LicenseDb: map<string, LicenseRecord> := map[
    "P123456789" := LicenseRecord(
      "P123456789", "MUKADI", "JEAN-LUC", "1985-05-15", "2023-01-10", "2028-01-09",
      ["A", "B"], "https://i.pravatar.cc/150?u=jeanluc", "Congolaise (RDC)")]

  const Lead := "Aucun permis trouvé pour le numéro "

  /** Every licence is filed under its own number. */
  lemma FiledUnderOwnNumber()
    ensures forall k :: k in LicenseDb ==> LicenseDb[k].licenseNumber == k
  {
  }

  /** A search finds a licence exactly when the normalised input is its number. */
  lemma FoundExactly(input: string)
    ensures Resolve(LicenseDb, Lead, input).Hit? <==> NormalizeKey(input) == "P123456789"
  {
  }

  /** The search modal over the licence table. */
  method Open() returns (m: SearchModal<LicenseRecord>)
    ensures fresh(m) && m.Valid() && m.db == LicenseDb && m.lead == Lead
    ensures m.input == "" && !m.isLoading && m.error.None? && m.found.None?
  {
    m := new SearchModal(LicenseDb, Lead);
  }
}
