/** The modal that edits an infraction type of the catalogue. */
module EditInfractionModal {

  import opened Records
  import opened InfractionFields
  import InfractionsPage

  /**
   * `handleChange` on the stored infraction the form holds: the edited
   * fields change as in the add form, and the id and timestamps are kept.
   */
  function ChangeRecord(infraction: Infraction, field: InfractionField, value: string): (r: Infraction)
    ensures Editable(r) == InfractionFields.Change(Editable(infraction), field, value)
    ensures r.id == infraction.id && r.createdAt == infraction.createdAt && r.updatedAt == infraction.updatedAt
  {
    WithEditable(infraction, InfractionFields.Change(Editable(infraction), field, value))
  }

  /** Typing back what an input shows leaves the whole record as it was. */
  lemma RetypingKeepsRecord(infraction: Infraction, field: InfractionField)
    ensures ChangeRecord(infraction, field, Shown(Editable(infraction), field)) == infraction
  {
    InfractionFields.RetypingShownValue(Editable(infraction), field);
  }

  /** Every entry of the start-up catalogue fills all required inputs, so it can be saved unchanged. */
  lemma CatalogueEntriesCanSubmit(loadedAt: seq<string>, i: nat)
    requires |loadedAt| == 8 && i < 4
    ensures CanSubmit(Editable(InfractionsPage.InitialInfractions(loadedAt)[i]))
  {
    CanSubmitIffTextsFilled(Editable(InfractionsPage.InitialInfractions(loadedAt)[i]));
  }

  class EditInfractionModal {
    /** The entry the modal was opened on (the `infraction` prop). */
    const infraction: Infraction
    var formData: Infraction
    var isSubmitting: bool
    /** The form values captured by submits whose timer has not fired yet, oldest first. */
    var pending: seq<Infraction>
    var isOpen: bool

    /** The form and every captured form keep the id of the entry under edit. */
    predicate Valid()
      reads this
    {
      formData.id == infraction.id && forall i :: 0 <= i < |pending| ==> pending[i].id == infraction.id
    }

    /** The form starts as a copy of the infraction being edited. */
    constructor (infraction: Infraction)
      ensures Valid() && this.infraction == infraction
      ensures formData == infraction && !isSubmitting && pending == [] && isOpen
    {
      this.infraction := infraction;
      formData := infraction;
      isSubmitting := false;
      pending := [];
      isOpen := true;
    }

    method HandleChange(field: InfractionField, value: string)
      requires Valid()
      modifies this
      ensures Valid()
      ensures formData == ChangeRecord(old(formData), field, value)
      ensures isSubmitting == old(isSubmitting) && pending == old(pending) && isOpen == old(isOpen)
    {
      formData := ChangeRecord(formData, field, value);
    }

    /**
     * Submitting the form. With a required input empty the browser stops the
     * submit and nothing changes; otherwise `handleSubmit` runs and the form
     * as it is now is captured for the timer.
     */
    method SubmitStart()
      requires Valid()
      modifies this
      ensures Valid()
      ensures CanSubmit(Editable(old(formData))) ==> isSubmitting && pending == old(pending) + [old(formData)]
      ensures !CanSubmit(Editable(old(formData))) ==> isSubmitting == old(isSubmitting) && pending == old(pending)
      ensures formData == old(formData) && isOpen == old(isOpen)
    {
      if CanSubmit(Editable(formData)) {
        isSubmitting := true;
        pending := pending + [formData];
      }
    }

    /** The timer fires: the captured form goes to `onSave`, submitting ends and the modal closes. */
    method SubmitComplete() returns (saved: Infraction)
      requires Valid() && pending != []
      modifies this
      ensures Valid()
      ensures saved == old(pending)[0] && pending == old(pending)[1..]
      ensures saved.id == infraction.id
      ensures !isSubmitting && !isOpen && formData == old(formData)
    {
      saved := pending[0];
      pending := pending[1..];
      isSubmitting := false;
      isOpen := false;
    }
  }
}
