/** The infraction catalogue page: add, edit and delete infraction types. */
module InfractionsPage {

  import opened Common
  import opened JsNumber
  import opened Lists
  import opened Records
  import opened InfractionFields

  /**
   * The catalogue at start-up. Its timestamps are the page's load time,
   * `loadedAt`, one reading per field.
   */
  function InitialInfractions(loadedAt: seq<string>): (r: seq<Infraction>)
    requires |loadedAt| == 8
    ensures |r| == 4
    ensures forall i :: 0 <= i < 4 ==> r[i].id == Decimal(i + 1)
  {
    [
      Infraction("1", "RDC-SEC-001", "Excès de vitesse", "Dépassement de la vitesse autorisée en agglomération.", "GRAVE", 120000, loadedAt[0], loadedAt[1]),
      Infraction("2", "RDC-STA-003", "Stationnement interdit", "Véhicule garé sur une zone non autorisée.", "LEGER", 50000, loadedAt[2], loadedAt[3]),
      Infraction("3", "RDC-ASS-010", "Défaut d'assurance", "Circulation sans une assurance valide.", "TRES_GRAVE", 200000, loadedAt[4], loadedAt[5]),
      Infraction("4", "RDC-EQU-005", "Défaut de casque", "Conduite de moto sans port du casque.", "MOYEN", 25000, loadedAt[6], loadedAt[7])
    ]
  }

  /** The infraction `handleAdd` creates: the form's fields, the id `String(Date.now())`, two clock readings. */
  function NewInfraction(data: InfractionData, nowMs: nat, createdAt: string, updatedAt: string): (r: Infraction)
    ensures r.id == Decimal(nowMs) && r.createdAt == createdAt && r.updatedAt == updatedAt
    ensures r.code == data.code && r.wording == data.wording && r.description == data.description
    ensures r.severity == data.severity && r.amount == data.amount
  {
    Infraction(Decimal(nowMs), data.code, data.wording, data.description, data.severity, data.amount, createdAt, updatedAt)
  }

  /** The saved infraction as `handleSave` stores it: the edited fields, a fresh `updatedAt`. */
  function Stamped(updated: Infraction, now: string): (r: Infraction)
    ensures r.updatedAt == now
    ensures r == updated.(updatedAt := r.updatedAt)
  {
    updated.(updatedAt := now)
  }

  /** Different clock readings give different ids. */
  lemma {:induction false} NewIdsDiffer(t1: nat, t2: nat)
    requires t1 != t2
    ensures Decimal(t1) != Decimal(t2)
  {
    DecimalValue(t1);
    DecimalValue(t2);
  }

  /** Deleting an infraction right after adding it under a fresh id restores the catalogue. */
  lemma DeleteUndoesAdd(infractions: seq<Infraction>, data: InfractionData, nowMs: nat, createdAt: string, updatedAt: string)
    requires forall i :: 0 <= i < |infractions| ==> infractions[i].id != Decimal(nowMs)
    ensures RemoveById([NewInfraction(data, nowMs, createdAt, updatedAt)] + infractions, InfractionId, Decimal(nowMs)) == infractions
  {
    RemoveAfterPrepend(infractions, InfractionId, NewInfraction(data, nowMs, createdAt, updatedAt));
  }

  /** After a save the infraction is found under its id, carrying the save time and the creation time it was given. */
  lemma {:induction false} SavedInfractionFound(infractions: seq<Infraction>, updated: Infraction, now: string)
    requires exists i :: 0 <= i < |infractions| && infractions[i].id == updated.id
    ensures var found := FindById(ReplaceById(infractions, InfractionId, Stamped(updated, now)), InfractionId, updated.id);
            found.Some? && found.value.updatedAt == now && found.value.createdAt == updated.createdAt
  {
    var i :| 0 <= i < |infractions| && infractions[i].id == updated.id;
    assert InfractionId(infractions[i]) == InfractionId(Stamped(updated, now));
    FindAfterReplace(infractions, InfractionId, Stamped(updated, now));
  }

  class InfractionsPage {
    var infractions: seq<Infraction>
    var isAddModalOpen: bool
    var editingInfraction: Option<Infraction>

    constructor (loadedAt: seq<string>)
      requires |loadedAt| == 8
      ensures infractions == InitialInfractions(loadedAt) && !isAddModalOpen && editingInfraction == None
    {
      infractions := InitialInfractions(loadedAt);
      isAddModalOpen := false;
      editingInfraction := None;
    }

    /** The "add" button and the add modal's close button. */
    method SetAddModalOpen(open: bool)
      modifies this
      ensures isAddModalOpen == open
      ensures infractions == old(infractions) && editingInfraction == old(editingInfraction)
    {
      isAddModalOpen := open;
    }

    /** The row menu's "edit" (`Some`) and the edit modal's close button (`None`). */
    method SetEditing(infraction: Option<Infraction>)
      modifies this
      ensures editingInfraction == infraction
      ensures infractions == old(infractions) && isAddModalOpen == old(isAddModalOpen)
    {
      editingInfraction := infraction;
    }

    /** `handleAdd`: the new infraction goes first; the add modal closes itself. */
    method HandleAdd(data: InfractionData, nowMs: nat, createdAt: string, updatedAt: string)
      modifies this
      ensures infractions == [NewInfraction(data, nowMs, createdAt, updatedAt)] + old(infractions)
      ensures isAddModalOpen == old(isAddModalOpen) && editingInfraction == old(editingInfraction)
    {
      infractions := [NewInfraction(data, nowMs, createdAt, updatedAt)] + infractions;
    }

    /** `handleSave`: the rows carrying the saved id take the saved fields and the save time; the modal closes. */
    method HandleSave(updated: Infraction, now: string)
      modifies this
      ensures infractions == ReplaceById(old(infractions), InfractionId, Stamped(updated, now))
      ensures editingInfraction == None && isAddModalOpen == old(isAddModalOpen)
    {
      infractions := ReplaceById(infractions, InfractionId, Stamped(updated, now));
      editingInfraction := None;
    }

    /** `handleDelete`, behind the confirmation dialog's answer. */
    method HandleDelete(infractionId: string, confirmed: bool)
      modifies this
      ensures infractions == if confirmed then RemoveById(old(infractions), InfractionId, infractionId) else old(infractions)
      ensures editingInfraction == old(editingInfraction) && isAddModalOpen == old(isAddModalOpen)
    {
      if confirmed {
        infractions := RemoveById(infractions, InfractionId, infractionId);
      }
    }
  }
}
