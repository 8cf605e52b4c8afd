/** The agent's modal that registers a vehicle with its owner's details. */
module RegisterVehicleModal {

  import opened Common
  import opened Registration

  /** The form's starting values: only the status is pre-filled. */
  const InitialForm: map<string, string> := map[
    "plaque" := "", "type" := "", "annee" := "", "marque" := "", "modele" := "", "statut" := "Actif",
    "nom" := "", "prenom" := "", "nin" := "", "adresse" := "", "tel" := "", "email" := "",
    "date_naissance" := "", "date_emission" := "", "autorite" := "", "numero_licence" := "",
    "date_expiration" := "", "restrictions" := "", "photo_data" := ""]

  const SuccessAlert := "Véhicule enregistré avec succès (voir la console pour les données)."

  /** `handleSubmit`: every form is accepted, with or without categories. */
  function Submit(formData: map<string, string>, cats: seq<string>): (r: Outcome)
    ensures r.Submitted? && r.application.fields == formData && r.application.cats == cats
    ensures r.alert == SuccessAlert
  {
    Submitted(Application(formData, cats), SuccessAlert)
  }

  /** Only the status starts non-empty. */
  lemma InitialFormDefaults()
    ensures InitialForm["statut"] == "Actif"
    ensures forall k :: k in InitialForm && k != "statut" ==> InitialForm[k] == ""
  {
  }

  class RegisterVehicleModal {
    var formData: map<string, string>
    var cats: seq<string>
    var isWebcamOpen: bool
    var isOpen: bool

    constructor ()
      ensures formData == InitialForm && cats == [] && !isWebcamOpen && isOpen
    {
      formData := InitialForm;
      cats := [];
      isWebcamOpen := false;
      isOpen := true;
    }

    /**
     * `handleChange`: the input named `name` now holds `value`, as the
     * browser sanitises it for the e-mail input; nothing else changes.
     */
    method HandleChange(name: string, value: string)
      modifies this
      ensures formData == old(formData)[name := InputValue(name, value)]
      ensures cats == old(cats) && isWebcamOpen == old(isWebcamOpen) && isOpen == old(isOpen)
    {
      formData := formData[name := InputValue(name, value)];
    }

    method HandleCatChange(value: string, checked: bool)
      modifies this
      ensures cats == Toggle(old(cats), value, checked)
      ensures formData == old(formData) && isWebcamOpen == old(isWebcamOpen) && isOpen == old(isOpen)
    {
      cats := Toggle(cats, value, checked);
    }

    /** The camera button. */
    method OpenWebcam()
      modifies this
      ensures isWebcamOpen
      ensures formData == old(formData) && cats == old(cats) && isOpen == old(isOpen)
    {
      isWebcamOpen := true;
    }

    /** The webcam's own close button. */
    method CloseWebcam()
      modifies this
      ensures !isWebcamOpen
      ensures formData == old(formData) && cats == old(cats) && isOpen == old(isOpen)
    {
      isWebcamOpen := false;
    }

    /** `handleCapture`: the photo is stored and the webcam closes. */
    method HandleCapture(imageDataUrl: string)
      modifies this
      ensures formData == old(formData)["photo_data" := imageDataUrl] && !isWebcamOpen
      ensures cats == old(cats) && isOpen == old(isOpen)
    {
      formData := formData["photo_data" := imageDataUrl];
      isWebcamOpen := false;
    }

    /**
     * Submitting the form. The browser stops the submit before `handleSubmit`
     * runs (`None`), and the modal stays as it is, when the e-mail is refused
     * or when `badInput` holds: one of the three date inputs holds a partly
     * typed date, or the year input text that is not a number; the page sees
     * "" for such an input but the browser does not accept it. Otherwise the
     * form is handed over and the modal closes.
     */
    method HandleSubmit(badInput: bool) returns (outcome: Option<Outcome>)
      modifies this
      ensures outcome.Some? <==> !badInput && EmailAllowsSubmit(formData)
      ensures outcome.Some? ==> outcome.value == Submit(formData, cats) && !isOpen
      ensures outcome.None? ==> isOpen == old(isOpen)
      ensures formData == old(formData) && cats == old(cats) && isWebcamOpen == old(isWebcamOpen)
    {
      if badInput || !EmailAllowsSubmit(formData) {
        return None;
      }
      outcome := Some(Submit(formData, cats));
      isOpen := false;
    }
  }
}
