/**
 * The form shared by the add and edit infraction modals: the same inputs,
 * the same `handleChange`, and the same `required` inputs the browser checks
 * before it lets the form submit.
 */
module InfractionFields {

  import opened JsNumber
  import opened Records

  /** The inputs, by their `name`; `Label` edits the `wording` field. */
  datatype InfractionField = Code | Label | Description | Severity | Amount

  /** The fields the form edits: an infraction without id and timestamps, as the add modal hands it back. */
  datatype InfractionData = InfractionData(
    code: string, wording: string, description: string, severity: string, amount: int)

  /** The edited fields of a stored infraction. */
  function Editable(infraction: Infraction): InfractionData
  {
    InfractionData(infraction.code, infraction.wording, infraction.description, infraction.severity, infraction.amount)
  }

  /** A stored infraction with its edited fields replaced; id and timestamps are kept. */
  function WithEditable(infraction: Infraction, data: InfractionData): (r: Infraction)
    ensures Editable(r) == data
    ensures r.id == infraction.id && r.createdAt == infraction.createdAt && r.updatedAt == infraction.updatedAt
    ensures data == Editable(infraction) ==> r == infraction
  {
    infraction.(code := data.code, wording := data.wording, description := data.description,
                severity := data.severity, amount := data.amount)
  }

  /** The text an input holds for a field; the amount input shows `formData.amount.toString()`. */
  function Shown(form: InfractionData, field: InfractionField): string
  {
    match field
    case Code => form.code
    case Label => form.wording
    case Description => form.description
    case Severity => form.severity
    case Amount => IntString(form.amount)
  }

  /**
   * `handleChange`: the amount input stores `parseInt(value, 10) || 0`, any
   * other input stores its raw text; no other field changes.
   */
  function Change(form: InfractionData, field: InfractionField, value: string): (r: InfractionData)
    ensures field == Amount ==> r.amount == AmountOf(value)
    ensures field != Amount ==> Shown(r, field) == value
    ensures field != Amount ==> r.amount == form.amount
    ensures field != Code ==> r.code == form.code
    ensures field != Label ==> r.wording == form.wording
    ensures field != Description ==> r.description == form.description
    ensures field != Severity ==> r.severity == form.severity
  {
    match field
    case Code => form.(code := value)
    case Label => form.(wording := value)
    case Description => form.(description := value)
    case Severity => form.(severity := value)
    case Amount => form.(amount := AmountOf(value))
  }

  /** Typing back what an input shows leaves the form as it was. */
  lemma RetypingShownValue(form: InfractionData, field: InfractionField)
    ensures Change(form, field, Shown(form, field)) == form
  {
    if field == Amount {
      AmountOfIntString(form.amount);
    }
  }

  /** The inputs marked `required`: every one but the severity select. */
  predicate IsRequired(field: InfractionField)
  {
    field != Severity
  }

  /** The browser lets the form submit only when no required input is empty. */
  predicate CanSubmit(form: InfractionData)
  {
    forall field :: IsRequired(field) ==> Shown(form, field) != ""
  }

  /**
   * The amount input always shows a number, so the form can be submitted
   * exactly when code, label and description are filled in.
   */
  lemma CanSubmitIffTextsFilled(form: InfractionData)
    ensures CanSubmit(form) <==> form.code != "" && form.wording != "" && form.description != ""
  {
    if form.code != "" && form.wording != "" && form.description != "" {
      forall field | IsRequired(field)
        ensures Shown(form, field) != ""
      {
        if field == Amount {
          assert IntString(form.amount) != "";
        }
      }
    } else {
      assert Shown(form, Code) == "" || Shown(form, Label) == "" || Shown(form, Description) == "";
    }
  }
}
