/**
 * What the component renders, as values: the buttons of the top navigation
 * bar and of the sidebar, and the panels of the content area. Only the parts
 * that depend on the state are kept; static text, icons and styling are not.
 */
module Render {
  import opened ViewState

  datatype Option<T> = None | Some(value: T)

  /** JSX's `s && <div>{s}</div>`: the message element appears only for a
      non-empty string (the empty string is falsy), and then shows `s`. */
  function Shown(s: string): (r: Option<string>)
    ensures r == None <==> s == ""
    ensures r.Some? ==> r.value == s
  {
    if s == "" then None else Some(s)
  }

  /** The pages in the order their buttons appear, in the top bar and in the sidebar alike. */
  const MenuOrder: seq<Page> := [Dashboard, Form, Auth]

  /** A navigation button: the page its click opens and its CSS class list. */
  datatype Button = Button(target: Page, className: string)

  /** The class list a button gets: its base class, plus ` active` when it
      leads to the page that is open. */
  function ButtonClass(base: string, page: Page, target: Page): string {
    base + (if page == target then " active" else "")
  }

  /** A button carries the `active` class. */
  predicate IsActive(base: string, b: Button) {
    b.className == base + " active"
  }

  /** One button per page, in menu order; the one for the open page, and no
      other, is active. */
  function MenuButtons(base: string, page: Page): (r: seq<Button>)
    ensures |r| == |MenuOrder|
    ensures forall i | 0 <= i < |r| :: r[i].target == MenuOrder[i]
    ensures forall i | 0 <= i < |r| :: IsActive(base, r[i]) <==> r[i].target == page
  {
    seq(|MenuOrder|, i requires 0 <= i < |MenuOrder| =>
      Button(MenuOrder[i], ButtonClass(base, page, MenuOrder[i])))
  }

  /** The pages of the active buttons in a row of buttons, in order. */
  function ActiveTargets(base: string, bs: seq<Button>): seq<Page> {
    if bs == [] then []
    else (if IsActive(base, bs[0]) then [bs[0].target] else []) + ActiveTargets(base, bs[1..])
  }

  /** Exactly one button of a menu is active, the one that leads to the open page. */
  lemma {:induction false} ExactlyOneActive(base: string, page: Page)
    ensures ActiveTargets(base, MenuButtons(base, page)) == [page]
  {
    var r := MenuButtons(base, page);
    forall i | 0 <= i < |r| && r[i].target != page ensures !IsActive(base, r[i]) {
      assert |r[i].className| == |base| < |base + " active"|;
    }
    assert r[1..][1..] == r[2..] && r[2..][1..] == [];
    var one := (b: Button) => if IsActive(base, b) then [b.target] else [];
    assert ActiveTargets(base, r[2..]) == one(r[2]);
    assert ActiveTargets(base, r[1..]) == one(r[1]) + one(r[2]);
    assert ActiveTargets(base, r) == one(r[0]) + one(r[1]) + one(r[2]);
  }

  /** The title of the authentication page, which is also its submit button's label. */
  function AuthTitle(mode: AuthMode): (s: string)
    ensures s == "Login" <==> mode == Login
    ensures s == "Sign Up" <==> mode == Signup
  {
    match mode
    case Login => "Login"
    case Signup => "Sign Up"
  }

  /** The link under the authentication form: its prompt, its button text, and the
      sub-view its click switches to. */
  datatype AuthLink = AuthLink(prompt: string, text: string, target: AuthMode)

  /** The link always leads to the other sub-view, and is labelled with that
      sub-view's title. */
  function LinkFor(mode: AuthMode): (l: AuthLink)
    ensures l.target != mode
    ensures l.text == AuthTitle(l.target)
    ensures mode == Login ==> l.prompt == "Don't have an account?"
    ensures mode == Signup ==> l.prompt == "Already have an account?"
  {
    match mode
    case Login => AuthLink("Don't have an account?", "Sign Up", Signup)
    case Signup => AuthLink("Already have an account?", "Login", Login)
  }

  /** Following the link twice returns to the sub-view one started from. */
  lemma LinkTwice(mode: AuthMode)
    ensures LinkFor(LinkFor(mode).target).target == mode
  {
  }

  /** The panels the content area can hold, with the state they display. */
  datatype Panel =
    | DashboardPanel
    | FormPanel(name: string, email: string, message: Option<string>)
    | AuthPanel(title: string, username: string, password: string, submitLabel: string,
                error: Option<string>, message: Option<string>, link: AuthLink)
  {
    /** The page this panel belongs to. */
    function PageOf(): Page {
      match this
      case DashboardPanel => Dashboard
      case FormPanel(_, _, _) => Form
      case AuthPanel(_, _, _, _, _, _, _) => Auth
    }
  }

  /** The contact form page: both inputs show the form's values, and the shared
      message is displayed when there is one. */
  function FormPage(form: ContactForm, formMessage: string): (p: Panel)
    ensures p.PageOf() == Form
    ensures p.name == form.name && p.email == form.email
    ensures p.message == Shown(formMessage)
  {
    FormPanel(form.name, form.email, Shown(formMessage))
  }

  /** The authentication page: title and submit label name the sub-view, the
      inputs show the credentials, the error and the shared message are
      displayed, as they are, when non-empty, and the link leads to the other
      sub-view. */
  function AuthPage(mode: AuthMode, values: Credentials, authError: string, formMessage: string): (p: Panel)
    ensures p.PageOf() == Auth
    ensures p.title == AuthTitle(mode) && p.submitLabel == AuthTitle(mode)
    ensures p.username == values.username && p.password == values.password
    ensures p.error == Shown(authError)
    ensures p.message == Shown(formMessage)
    ensures p.link == LinkFor(mode) && p.link.target != mode
  {
    AuthPanel(AuthTitle(mode), values.username, values.password, AuthTitle(mode),
              Shown(authError), Shown(formMessage), LinkFor(mode))
  }

  /** The content area: `page === 'dashboard' && <Dashboard />` and its two
      siblings, of which exactly one is rendered, the open page's. */
  function ContentArea(page: Page, form: ContactForm, formMessage: string,
                       mode: AuthMode, values: Credentials, authError: string): (r: seq<Panel>)
    ensures |r| == 1 && r[0].PageOf() == page
    ensures page == Dashboard ==> r[0] == DashboardPanel
    ensures page == Form ==> r[0] == FormPage(form, formMessage)
    ensures page == Auth ==> r[0] == AuthPage(mode, values, authError, formMessage)
  {
    (if page == Dashboard then [DashboardPanel] else [])
    + (if page == Form then [FormPage(form, formMessage)] else [])
    + (if page == Auth then [AuthPage(mode, values, authError, formMessage)] else [])
  }

  /** Both form panels display the one shared message cell: a message written
      by either submit handler appears on the contact page and on the
      authentication page alike. */
  lemma SharedMessage(form: ContactForm, mode: AuthMode, values: Credentials,
                      authError: string, formMessage: string)
    ensures FormPage(form, formMessage).message == AuthPage(mode, values, authError, formMessage).message
    ensures FormPage(form, formMessage).message == Shown(formMessage)
  {
  }
}
