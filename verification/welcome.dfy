/** The sign-up form on the welcome page: four text fields changed one at a
    time, and a submit guard that passes the form on only when a name and an
    email are given. */
module WelcomePage {
  import opened Wrappers

  datatype Field = Name | Email | Phone | TravelStyle

  datatype Form = Form(name: string, email: string, phone: string, travelStyle: string)

  const EmptyForm: Form := Form("", "", "", "")

  function Get(f: Form, field: Field): string {
    match field
    case Name => f.name
    case Email => f.email
    case Phone => f.phone
    case TravelStyle => f.travelStyle
  }

  /** `{...prev, [field]: value}`. */
  function Set(f: Form, field: Field, value: string): (r: Form)
    ensures Get(r, field) == value
  {
    match field
    case Name => f.(name := value)
    case Email => f.(email := value)
    case Phone => f.(phone := value)
    case TravelStyle => f.(travelStyle := value)
  }

  /** Setting one field leaves every other field as it was. */
  lemma SetOnlyThatField(f: Form, field: Field, value: string, other: Field)
    requires other != field
    ensures Get(Set(f, field, value), other) == Get(f, other)
  {
  }

  /** Setting a field to what it holds changes nothing, and a later setting of
      the same field overrides an earlier one. */
  lemma SetLaws(f: Form, field: Field, v: string, w: string)
    ensures Set(f, field, Get(f, field)) == f
    ensures Set(Set(f, field, v), field, w) == Set(f, field, w)
  {
  }

  /** The submit guard: name and email non-empty; phone and travel style optional. */
  predicate CanSubmit(f: Form) {
    f.name != "" && f.email != ""
  }

  /** The submit button's disabled state. */
  predicate SubmitDisabled(f: Form) {
    f.name == "" || f.email == ""
  }

  /** The button is disabled exactly when the guard would reject. */
  lemma DisabledIffRejected(f: Form)
    ensures SubmitDisabled(f) <==> !CanSubmit(f)
  {
  }

  class WelcomeForm {
    var form: Form

    constructor ()
      ensures form == EmptyForm
    {
      form := EmptyForm;
    }

    method HandleInputChange(field: Field, value: string)
      modifies this
      ensures form == Set(old(form), field, value)
    {
      form := Set(form, field, value);
    }

    /** What submitting hands to the page's callback, if anything. */
    method HandleSubmit() returns (sent: Option<Form>)
      ensures CanSubmit(form) ==> sent == Some(form)
      ensures !CanSubmit(form) ==> sent == None
    {
      if form.name != "" && form.email != "" {
        sent := Some(form);
      } else {
        sent := None;
      }
    }
  }

  /** A visitor who gives only a name is held back; adding an email lets the
      form through without phone or travel style. */
  method SignUp() returns (first: Option<Form>, second: Option<Form>)
    ensures first == None
    ensures second == Some(Form("Priya", "priya@example.com", "", ""))
  {
    var page := new WelcomeForm();
    page.HandleInputChange(Name, "Priya");
    first := page.HandleSubmit();
    page.HandleInputChange(Email, "priya@example.com");
    second := page.HandleSubmit();
  }
}
