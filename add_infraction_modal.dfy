/** The modal that adds an infraction type to the catalogue. */
module AddInfractionModal {

  import opened InfractionFields

  /** The empty form: no code, wording or description, severity "LEGER", amount 0. */
  const DefaultForm: InfractionData := InfractionData("", "", "", "LEGER", 0)

  /** The empty form cannot be submitted: the browser first asks for the code. */
  lemma FreshFormCannotSubmit()
    ensures !CanSubmit(DefaultForm)
  {
    assert Shown(DefaultForm, Code) == "";
  }

  class AddInfractionModal {
    var formData: InfractionData
    var isSubmitting: bool
    /** The form values captured by submits whose timer has not fired yet, oldest first. */
    var pending: seq<InfractionData>
    var isOpen: bool

    constructor ()
      ensures formData == DefaultForm && !isSubmitting && pending == [] && isOpen
    {
      formData := DefaultForm;
      isSubmitting := false;
      pending := [];
      isOpen := true;
    }

    method HandleChange(field: InfractionField, value: string)
      modifies this
      ensures formData == Change(old(formData), field, value)
      ensures isSubmitting == old(isSubmitting) && pending == old(pending) && isOpen == old(isOpen)
    {
      formData := Change(formData, field, value);
    }

    /**
     * Submitting the form. With a required input empty the browser stops the
     * submit and nothing changes; otherwise `handleSubmit` runs and the form
     * as it is now is captured for the timer.
     */
    method SubmitStart()
      modifies this
      ensures CanSubmit(old(formData)) ==> isSubmitting && pending == old(pending) + [old(formData)]
      ensures !CanSubmit(old(formData)) ==> isSubmitting == old(isSubmitting) && pending == old(pending)
      ensures formData == old(formData) && isOpen == old(isOpen)
    {
      if CanSubmit(formData) {
        isSubmitting := true;
        pending := pending + [formData];
      }
    }

    /** The timer fires: the captured form goes to `onAdd`, submitting ends and the modal closes. */
    method SubmitComplete() returns (added: InfractionData)
      requires pending != []
      modifies this
      ensures added == old(pending)[0] && pending == old(pending)[1..]
      ensures !isSubmitting && !isOpen && formData == old(formData)
    {
      added := pending[0];
      pending := pending[1..];
      isSubmitting := false;
      isOpen := false;
    }
  }
}
