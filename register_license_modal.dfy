/** The agent's modal that records a driving-licence application. */
module RegisterLicenseModal {

  import opened Common
  import opened Registration

  /** The form's starting values: issuing authority and restrictions are pre-filled. */
  const InitialForm: map<string, string> := map[
    "nom" := "", "prenom" := "", "date_naissance" := "", "adresse" := "", "tel" := "",
    "email" := "", "nin" := "", "autorite" := "CNPC/RDC", "restrictions" := "Aucune",
    "photo_data" := ""]

  const NoCategoryAlert := "Veuillez sélectionner au moins une catégorie de permis."
  const SuccessAlert := "Demande de permis enregistrée avec succès (voir la console pour les données)."

  /** `handleSubmit`: an application needs at least one category. */
  function Submit(formData: map<string, string>, cats: seq<string>): (r: Outcome)
    ensures r.Rejected? <==> cats == []
    ensures r.Rejected? ==> r.alert == NoCategoryAlert
    ensures r.Submitted? ==> r.application.fields == formData && r.application.cats == cats
    ensures r.Submitted? ==> r.alert == SuccessAlert
  {
    if |cats| == 0 then Rejected(NoCategoryAlert)
    else Submitted(Application(formData, cats), SuccessAlert)
  }

  /** Only the authority and the restrictions start non-empty. */
  lemma InitialFormDefaults()
    ensures InitialForm["autorite"] == "CNPC/RDC" && InitialForm["restrictions"] == "Aucune"
    ensures forall k :: k in InitialForm && k != "autorite" && k != "restrictions" ==> InitialForm[k] == ""
  {
  }

  /** A fresh modal cannot submit: no category is checked yet. */
  lemma FreshFormIsRejected()
    ensures Submit(InitialForm, []) == Rejected(NoCategoryAlert)
  {
  }

  class RegisterLicenseModal {
    var formData: map<string, string>
    var cats: seq<string>
    var isWebcamOpen: bool
    var isOpen: bool

    constructor ()
      ensures formData == InitialForm && cats == [] && !isWebcamOpen && isOpen
    {
      formData := InitialForm;
      cats := [];
      isWebcamOpen := false;
      isOpen := true;
    }

    /**
     * `handleChange`: the input named `name` now holds `value`, as the
     * browser sanitises it for the e-mail input; nothing else changes.
     */
    method HandleChange(name: string, value: string)
      modifies this
      ensures formData == old(formData)[name := InputValue(name, value)]
      ensures cats == old(cats) && isWebcamOpen == old(isWebcamOpen) && isOpen == old(isOpen)
    {
      formData := formData[name := InputValue(name, value)];
    }

    method HandleCatChange(value: string, checked: bool)
      modifies this
      ensures cats == Toggle(old(cats), value, checked)
      ensures formData == old(formData) && isWebcamOpen == old(isWebcamOpen) && isOpen == old(isOpen)
    {
      cats := Toggle(cats, value, checked);
    }

    /** The camera button. */
    method OpenWebcam()
      modifies this
      ensures isWebcamOpen
      ensures formData == old(formData) && cats == old(cats) && isOpen == old(isOpen)
    {
      isWebcamOpen := true;
    }

    /** The webcam's own close button. */
    method CloseWebcam()
      modifies this
      ensures !isWebcamOpen
      ensures formData == old(formData) && cats == old(cats) && isOpen == old(isOpen)
    {
      isWebcamOpen := false;
    }

    /** `handleCapture`: the photo is stored and the webcam closes. */
    method HandleCapture(imageDataUrl: string)
      modifies this
      ensures formData == old(formData)["photo_data" := imageDataUrl] && !isWebcamOpen
      ensures cats == old(cats) && isOpen == old(isOpen)
    {
      formData := formData["photo_data" := imageDataUrl];
      isWebcamOpen := false;
    }

    /**
     * Submitting the form. The browser stops the submit before `handleSubmit`
     * runs (`None`) when the e-mail is refused or when `badInput` holds: the
     * birth-date input holds a partly typed date, which the page sees as ""
     * but the browser does not accept. Otherwise a rejected submit keeps the
     * modal open and an accepted one closes it.
     */
    method HandleSubmit(badInput: bool) returns (outcome: Option<Outcome>)
      modifies this
      ensures outcome.Some? <==> !badInput && EmailAllowsSubmit(formData)
      ensures outcome.Some? ==> outcome.value == Submit(formData, cats)
      ensures isOpen == (old(isOpen) && !(outcome.Some? && outcome.value.Submitted?))
      ensures formData == old(formData) && cats == old(cats) && isWebcamOpen == old(isWebcamOpen)
    {
      if badInput || !EmailAllowsSubmit(formData) {
        return None;
      }
      var result := Submit(formData, cats);
      if result.Submitted? {
        isOpen := false;
      }
      outcome := Some(result);
    }
  }
}
