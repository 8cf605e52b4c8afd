/** The modal that finds a motorcycle by plate and previews its attestation for printing. */
module PrintAttestationModal {

  import opened Common
  import opened PrintSearch

  datatype MotoRecord = MotoRecord(
    plate: string, owner: string, address: string, makeModel: string, year: string,
    chassis: string, color: string, qrCode: string, zone: string)

  /** The motorcycles the modal can find, by plate; these plates hold inner spaces. */
  const MotoDb: map<string, MotoRecord> := map[
    "GOM 456 CD" := MotoRecord(
      "GOM 456 CD", "KAVIRA MUKEBA", "GOMA, RDC", "TVS STAR HLX 125", "2023",
      "MD625K32L8F12345", "ROUGE", "TAMBUA-MOTO-12345", "Goma"),
    "GOM 789 EF" := MotoRecord(
      "GOM 789 EF", "FURAHA MUTINGA", "GOMA, RDC", "HAOJUE 150", "2022",
      "LPRPCJ-F48975612", "NOIRE", "TAMBUA-MOTO-67890", "Goma")]

  const Lead := "Aucune moto trouvée pour la plaque "

  /** Every motorcycle is filed under its own plate. */
  lemma FiledUnderOwnPlate()
    ensures forall k :: k in MotoDb ==> MotoDb[k].plate == k
  {
  }

  /** A search finds a motorcycle exactly when the normalised input is one of the two plates. */
  lemma FoundExactly(input: string)
    ensures Resolve(MotoDb, Lead, input).Hit? <==> NormalizeKey(input) == "GOM 456 CD" || NormalizeKey(input) == "GOM 789 EF"
  {
  }

  /** Inner spaces are part of the key: a plate typed without them is not found. */
  lemma InnerSpacesMatter(input: string)
    requires NormalizeKey(input) == "GOM456CD"
    ensures Resolve(MotoDb, Lead, input).Miss?
  {
    FoundExactly(input);
  }

  /** The search modal over the motorcycle table. */
  method Open() returns (m: SearchModal<MotoRecord>)
    ensures fresh(m) && m.Valid() && m.db == MotoDb && m.lead == Lead
    ensures m.input == "" && !m.isLoading && m.error.None? && m.found.None?
  {
    m := new SearchModal(MotoDb, Lead);
  }
}
