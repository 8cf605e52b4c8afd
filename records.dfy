/**
 * The entities of the dashboard. `Fine`, `Infraction`, `Vehicle`,
 * `Motorcycle` and `User` follow types.ts; `Agent`, `AgentActivity` and
 * `Impression` follow the literals of the pages that use them. Status and
 * severity fields are strings: the edit forms store whatever their
 * `<select>` holds.
 */
module Records {

  import opened Common

  datatype Fine = Fine(
    id: string, plate: string, reason: string, driver: string, location: string,
    date: string, amount: int, currency: string, status: string)

  /** The three fine statuses. */
  const PAID: string := "Payée"
  const LATE: string := "En retard"
  const PENDING: string := "En attente"

  /** An entry of the infraction catalogue; `wording` is the source's `label`, a reserved word here. */
  datatype Infraction = Infraction(
    id: string, code: string, wording: string, description: string,
    severity: string, amount: int, createdAt: string, updatedAt: string)

  datatype Validity = Valid | ExpiringSoon | Expired

  datatype Vehicle = Vehicle(
    id: string, photo: string, owner: string, address: string, taxId: string,
    plate: string, makeModel: string, year: int, color: string,
    infractions: Option<seq<Infraction>>, payments: Option<seq<Fine>>,
    documentStatus: Validity, insuranceStatus: Validity)

  datatype Motorcycle = Motorcycle(
    id: string, photo: string, owner: string, address: string,
    plate: string, makeModel: string, year: int, color: string,
    infractions: Option<seq<Infraction>>, payments: Option<seq<Fine>>,
    documentStatus: Validity, insuranceStatus: Validity)

  datatype Agent = Agent(
    id: string, name: string, email: string, avatar: string, status: string,
    registrationsToday: int, finesCollectedToday: int)

  datatype ActivityAction = VehicleRegistration | FinePayment | LicensePrint | MotorcycleRegistration

  datatype AgentActivity = AgentActivity(
    id: string, date: string, action: ActivityAction, details: string, amount: Option<int>)

  /** A printed document, as listed by the reports page. */
  datatype Impression = Impression(
    id: string, documentType: string, agentName: string, date: string,
    identifier: string, zone: string)

  /** A user's role; `FieldAgent` is the source's `'Agent'`, a name the `Agent` datatype takes here. */
  datatype Role = Superviseur | FieldAgent

  datatype User = User(name: string, role: Role, avatar: string)

  function FineId(f: Fine): string { f.id }
  function InfractionId(i: Infraction): string { i.id }
  function VehicleId(v: Vehicle): string { v.id }
  function MotorcycleId(m: Motorcycle): string { m.id }
  function AgentId(a: Agent): string { a.id }
}
