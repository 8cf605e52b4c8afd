/** The fine edit modal: a form over a copy of the fine, submitted after a delay. */
module EditFineModal {

  import opened JsNumber
  import opened Records

  /** The form's inputs, by their `name`. Plate and driver are shown disabled. */
  datatype FineField = Plate | Driver | Reason | Amount | Status

  /** The text an input holds for a field; the amount input shows `String(formData.amount)`. */
  function Shown(fine: Fine, field: FineField): string
  {
    match field
    case Plate => fine.plate
    case Driver => fine.driver
    case Reason => fine.reason
    case Amount => IntString(fine.amount)
    case Status => fine.status
  }

  /**
   * `handleChange`: the amount input stores `parseInt(value, 10) || 0`, any
   * other input stores its raw text; no other field changes.
   */
  function Change(fine: Fine, field: FineField, value: string): (r: Fine)
    ensures field == Amount ==> r.amount == AmountOf(value)
    ensures field != Amount ==> Shown(r, field) == value
    ensures field != Plate ==> r.plate == fine.plate
    ensures field != Driver ==> r.driver == fine.driver
    ensures field != Reason ==> r.reason == fine.reason
    ensures field != Status ==> r.status == fine.status
    ensures field != Amount ==> r.amount == fine.amount
    ensures r.id == fine.id && r.location == fine.location && r.date == fine.date && r.currency == fine.currency
  {
    match field
    case Plate => fine.(plate := value)
    case Driver => fine.(driver := value)
    case Reason => fine.(reason := value)
    case Amount => fine.(amount := AmountOf(value))
    case Status => fine.(status := value)
  }

  /** Typing back what an input shows leaves the form as it was. */
  lemma RetypingShownValue(fine: Fine, field: FineField)
    ensures Change(fine, field, Shown(fine, field)) == fine
  {
    if field == Amount {
      AmountOfIntString(fine.amount);
    }
  }

  /** The inputs the user can type in: plate and driver are `disabled`. */
  predicate IsEnabled(field: FineField)
  {
    field != Plate && field != Driver
  }

  /** A form value that still names the fine under edit: same id, plate and driver. */
  predicate SameFine(form: Fine, fine: Fine)
  {
    form.id == fine.id && form.plate == fine.plate && form.driver == fine.driver
  }

  /** Typing in an enabled input never changes which fine the form is about. */
  lemma EnabledChangeKeepsFine(form: Fine, fine: Fine, field: FineField, value: string)
    requires SameFine(form, fine) && IsEnabled(field)
    ensures SameFine(Change(form, field, value), fine)
  {
  }

  class EditFineModal {
    /** The fine the modal was opened on (the `fine` prop). */
    const fine: Fine
    var formData: Fine
    var isSubmitting: bool
    /** The form values captured by submits whose timer has not fired yet, oldest first. */
    var pending: seq<Fine>
    var isOpen: bool

    /** The form and every captured form still name the fine under edit. */
    predicate Valid()
      reads this
    {
      SameFine(formData, fine) && forall i :: 0 <= i < |pending| ==> SameFine(pending[i], fine)
    }

    /** The form starts as a copy of the fine being edited. */
    constructor (fine: Fine)
      ensures Valid() && this.fine == fine
      ensures formData == fine && !isSubmitting && pending == [] && isOpen
    {
      this.fine := fine;
      formData := fine;
      isSubmitting := false;
      pending := [];
      isOpen := true;
    }

    /** `handleChange` on one of the enabled inputs. */
    method HandleChange(field: FineField, value: string)
      requires Valid() && IsEnabled(field)
      modifies this
      ensures Valid()
      ensures formData == Change(old(formData), field, value)
      ensures isSubmitting == old(isSubmitting) && pending == old(pending) && isOpen == old(isOpen)
    {
      EnabledChangeKeepsFine(formData, fine, field, value);
      formData := Change(formData, field, value);
    }

    /** `handleSubmit`: the form as it is now is captured for the timer. */
    method SubmitStart()
      requires Valid()
      modifies this
      ensures Valid()
      ensures isSubmitting && pending == old(pending) + [old(formData)]
      ensures formData == old(formData) && isOpen == old(isOpen)
    {
      isSubmitting := true;
      pending := pending + [formData];
    }

    /** The timer fires: the captured form goes to `onSave`, submitting ends and the modal closes. */
    method SubmitComplete() returns (saved: Fine)
      requires Valid() && pending != []
      modifies this
      ensures Valid()
      ensures saved == old(pending)[0] && pending == old(pending)[1..]
      ensures SameFine(saved, fine)
      ensures !isSubmitting && !isOpen && formData == old(formData)
    {
      saved := pending[0];
      pending := pending[1..];
      isSubmitting := false;
      isOpen := false;
    }
  }
}
