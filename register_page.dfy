/** The registration page: a form whose fields are edited one at a time, the
    check made when the donor or seeker tab is submitted, and the tab chosen
    from the query string. */
module RegisterPage {
  import opened Common

  /** The form as a record keyed by field name. A key never set reads as
      `undefined`, which the page treats like the empty string. */
  type Form = map<string, string>

  const FormFields: seq<string> := [
    "name", "email", "phone", "bloodGroup", "location", "age", "weight",
    "lastDonation", "medicalConditions", "emergencyContact"
  ]

  /** The fields the submit handler insists on. */
  const RequiredFields: seq<string> := ["name", "email", "bloodGroup", "location"]

  function Get(form: Form, field: string): string {
    if field in form then form[field] else ""
  }

  /** The form the page starts with: every field empty. */
  function InitialForm(): (f: Form)
    ensures f.Keys == set k | k in FormFields
    ensures forall k :: k in f ==> f[k] == ""
  {
    map k | k in FormFields :: ""
  }

  /** The submit check: some required field is empty. */
  predicate MissingRequired(form: Form) {
    Get(form, "name") == "" || Get(form, "email") == "" || Get(form, "bloodGroup") == ""
    || Get(form, "location") == ""
  }

  /** The check is exactly "one of the four required fields is empty". */
  lemma MissingRequiredMeans(form: Form)
    ensures MissingRequired(form) <==> exists i :: 0 <= i < |RequiredFields| && Get(form, RequiredFields[i]) == ""
  {
    if MissingRequired(form) {
      var i := if Get(form, "name") == "" then 0 else if Get(form, "email") == "" then 1
        else if Get(form, "bloodGroup") == "" then 2 else 3;
      assert Get(form, RequiredFields[i]) == "";
    }
  }

  /** Age is labelled as required but never checked: changing it, or any
      other field outside the four, does not change the outcome. */
  lemma OnlyRequiredFieldsChecked(form: Form, field: string, value: string)
    requires field !in RequiredFields
    ensures MissingRequired(form[field := value]) == MissingRequired(form)
  {
    assert forall i :: 0 <= i < |RequiredFields| ==> RequiredFields[i] != field;
  }

  lemma AgeNotChecked(form: Form, value: string)
    ensures MissingRequired(form["age" := value]) == MissingRequired(form)
  {
    OnlyRequiredFieldsChecked(form, "age", value);
  }

  /** `searchParams.get('type') || 'donor'`: a missing or empty parameter
      selects the donor tab. */
  function DefaultType(typeParam: Option<string>): (r: string)
    ensures r != ""
    ensures typeParam.Some? && typeParam.value != "" ==> r == typeParam.value
    ensures typeParam.None? || typeParam.value == "" ==> r == "donor"
  {
    if typeParam.Some? && typeParam.value != "" then typeParam.value else "donor"
  }

  datatype Toast = Toast(title: string, description: string, destructive: bool)

  const MissingToast := Toast("Missing Information", "Please fill in all required fields.", true)

  function WelcomeToast(kind: string): Toast {
    Toast("Registration Successful!",
          "Welcome to BloodMatch as a " + kind + ". You can now access the dashboard.", false)
  }

  class Register {
    var formData: Form
    var toasts: seq<Toast>
    /** The route navigated to, if any. */
    var navigatedTo: Option<string>

    constructor ()
      ensures formData == InitialForm() && toasts == [] && navigatedTo == None
    {
      formData := InitialForm();
      toasts := [];
      navigatedTo := None;
    }

    /** `handleInputChange`: sets the named field and leaves every other one. */
    method HandleInputChange(field: string, value: string)
      modifies this
      ensures formData == old(formData)[field := value]
      ensures Get(formData, field) == value
      ensures forall k :: k != field ==> Get(formData, k) == Get(old(formData), k)
      ensures toasts == old(toasts) && navigatedTo == old(navigatedTo)
    {
      formData := formData[field := value];
    }

    /** `handleSubmit`: with a required field empty, shows the error and
        stays; otherwise welcomes the user and goes to the dashboard. The
        donor/seeker kind only appears in the welcome text. */
    method HandleSubmit(kind: string)
      modifies this
      ensures formData == old(formData)
      ensures MissingRequired(formData) ==>
        toasts == old(toasts) + [MissingToast] && navigatedTo == old(navigatedTo)
      ensures !MissingRequired(formData) ==>
        toasts == old(toasts) + [WelcomeToast(kind)] && navigatedTo == Some("/dashboard")
    {
      if MissingRequired(formData) {
        toasts := toasts + [MissingToast];
        return;
      }
      toasts := toasts + [WelcomeToast(kind)];
      navigatedTo := Some("/dashboard");
    }
  }

  /** Filling in the four required fields on a fresh form, in any values,
      lets the submit go through whatever the kind. */
  method FillAndSubmit(name: string, email: string, bloodGroup: string, location: string, kind: string)
    returns (navigated: Option<string>)
    requires name != "" && email != "" && bloodGroup != "" && location != ""
    ensures navigated == Some("/dashboard")
  {
    var page := new Register();
    page.HandleInputChange("name", name);
    page.HandleInputChange("email", email);
    page.HandleInputChange("bloodGroup", bloodGroup);
    page.HandleInputChange("location", location);
    page.HandleSubmit(kind);
    navigated := page.navigatedTo;
  }

  /** A fresh form is rejected. */
  method SubmitEmpty(kind: string) returns (navigated: Option<string>, last: Toast)
    ensures navigated == None && last == MissingToast
  {
    var page := new Register();
    page.HandleSubmit(kind);
    navigated := page.navigatedTo;
    last := page.toasts[|page.toasts| - 1];
  }
}
