/**
 * The values the `App` component keeps in its state cells: which page is
 * open, the colour theme, the two form records, and the messages shown
 * after a submit.
 */
module ViewState {
  import opened Text

  /** The three pages of the content area. */
  datatype Page = Dashboard | Form | Auth

  /** The two colour themes. */
  datatype Theme = Light | Dark

  /** The two sub-views of the authentication page. */
  datatype AuthMode = Login | Signup

  /** The `name` attributes of the contact form's inputs. */
  datatype ContactField = Name | Email

  /** The `name` attributes of the authentication form's inputs. */
  datatype AuthField = Username | Password

  /** The contact form's values, `formState` in the component. */
  datatype ContactForm = ContactForm(name: string, email: string)
  {
    /** The value of the input called `field`. */
    function Get(field: ContactField): string {
      match field
      case Name => name
      case Email => email
    }

    /** `{ ...formState, [field]: value }`: the input called `field` now holds
        `value`, the other one keeps its value. */
    function With(field: ContactField, value: string): (r: ContactForm)
      ensures r.Get(field) == value
      ensures forall f: ContactField | f != field :: r.Get(f) == Get(f)
    {
      match field
      case Name => this.(name := value)
      case Email => this.(email := value)
    }

    /** Both inputs hold something other than whitespace. */
    predicate IsFilled() {
      !IsBlank(name) && !IsBlank(email)
    }
  }

  /** The authentication form's values, `authValues` in the component. */
  datatype Credentials = Credentials(username: string, password: string)
  {
    /** The value of the input called `field`. */
    function Get(field: AuthField): string {
      match field
      case Username => username
      case Password => password
    }

    /** `{ ...authValues, [field]: value }`: the input called `field` now holds
        `value`, the other one keeps its value. */
    function With(field: AuthField, value: string): (r: Credentials)
      ensures r.Get(field) == value
      ensures forall f: AuthField | f != field :: r.Get(f) == Get(f)
    {
      match field
      case Username => this.(username := value)
      case Password => this.(password := value)
    }

    /** Both inputs hold something other than whitespace. */
    predicate IsFilled() {
      !IsBlank(username) && !IsBlank(password)
    }
  }

  const EmptyContact := ContactForm("", "")
  const EmptyCredentials := Credentials("", "")

  /** The texts written to the shared message cell `formMessage`. */
  const SubmitSucceeded := "Form submitted successfully!"
  const FillAllFields := "Please fill out all fields."
  const AuthNotConnected := "Authentication not yet connected to backend."

  /** The one text written to `authError`. */
  const BothFieldsRequired := "Both fields are required."

  /** Every value `formMessage` can hold: empty, or one of the user-facing texts. */
  predicate IsFormMessage(s: string) {
    s == "" || s == SubmitSucceeded || s == FillAllFields || s == AuthNotConnected
  }

  /** Every value `authError` can hold. */
  predicate IsAuthError(s: string) {
    s == "" || s == BothFieldsRequired
  }

  /** The theme the toggle switches to. */
  function Toggled(t: Theme): (r: Theme)
    ensures r != t
  {
    match t
    case Light => Dark
    case Dark => Light
  }

  /** Toggling the theme twice restores it. */
  lemma ToggledTwice(t: Theme)
    ensures Toggled(Toggled(t)) == t
  {
  }

  /** A blank name, empty or whitespace-only, never fills a contact form,
      whatever the email. */
  lemma WhitespaceDoesNotFill(name: string, email: string)
    requires IsBlank(name)
    ensures !ContactForm(name, email).IsFilled()
  {
  }

  /** A contact form is filled exactly when `name.trim()` and `email.trim()`
      are both truthy, that is, both non-empty. */
  lemma ContactFilledIffTrimmed(f: ContactForm)
    ensures f.IsFilled() <==> Trim(f.name) != "" && Trim(f.email) != ""
  {
  }

  /** The credentials are filled exactly when `username.trim()` and
      `password.trim()` are both truthy, that is, both non-empty. */
  lemma CredentialsFilledIffTrimmed(c: Credentials)
    ensures c.IsFilled() <==> Trim(c.username) != "" && Trim(c.password) != ""
  {
  }
}
