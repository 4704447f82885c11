/**
 * The `App` component: its state cells as fields of one object, each event
 * handler as a method that replaces some of them, and the parts of the page
 * that depend on the state as functions of the fields. Each handler runs to
 * completion before the next event is handled.
 */
module AppComponent {
  import opened Text
  import opened ViewState
  import opened Render

  class App {
    var page: Page
    var theme: Theme
    var formState: ContactForm
    var formMessage: string
    var authPage: AuthMode
    var authValues: Credentials
    var authError: string

    /** The `data-theme` attribute of the document root, which an effect
        copies from `theme` whenever the theme changes. */
    ghost var rootTheme: Theme

    /** The root attribute follows the theme, and the two message cells only
        ever hold the empty string or one of the component's own texts. Since
        navigation clears both cells and each form's handlers fire only from
        its own panel, the dashboard shows no message, the error is set only on
        the authentication page, and each page's message came from its own
        form. */
    ghost predicate Valid()
      reads this
    {
      && rootTheme == theme
      && IsFormMessage(formMessage)
      && IsAuthError(authError)
      && (page == Dashboard ==> formMessage == "")
      && (page != Auth ==> authError == "")
      && (page == Form ==> formMessage != AuthNotConnected)
      && (page == Auth ==> formMessage == "" || formMessage == AuthNotConnected)
    }

    /** The initial state: dashboard, light theme, empty forms, no messages,
        login sub-view. */
    constructor ()
      ensures Valid()
      ensures page == Dashboard && theme == Light && rootTheme == Light
      ensures formState == EmptyContact && formMessage == ""
      ensures authPage == Login && authValues == EmptyCredentials && authError == ""
    {
      page := Dashboard;
      theme := Light;
      formState := EmptyContact;
      formMessage := "";
      authPage := Login;
      authValues := EmptyCredentials;
      authError := "";
      rootTheme := Light;
    }

    /** `toggleTheme`: light becomes dark and dark becomes light; the root
        attribute follows; nothing else changes. */
    method ToggleTheme()
      requires Valid()
      modifies this
      ensures Valid()
      ensures theme == Toggled(old(theme)) && theme != old(theme)
      ensures rootTheme == theme
      ensures page == old(page) && formState == old(formState) && formMessage == old(formMessage)
      ensures authPage == old(authPage) && authValues == old(authValues) && authError == old(authError)
    {
      theme := if theme == Light then Dark else Light;
      rootTheme := theme;
    }

    /** `handleNav`: opens `target` and clears both message cells; the theme
        and both forms are kept. Afterwards the content area shows the
        target's panel and nothing else. */
    method HandleNav(target: Page)
      requires Valid()
      modifies this
      ensures Valid()
      ensures page == target && formMessage == "" && authError == ""
      ensures theme == old(theme) && rootTheme == old(rootTheme)
      ensures formState == old(formState) && authPage == old(authPage) && authValues == old(authValues)
      ensures |Content()| == 1 && Content()[0].PageOf() == target
    {
      page := target;
      formMessage := "";
      authError := "";
    }

    /** `handleFormChange`: the contact input called `field` now holds
        `value`; the other input and the rest of the state are unchanged. */
    method HandleFormChange(field: ContactField, value: string)
      requires Valid() && page == Form
      modifies this
      ensures Valid()
      ensures formState == old(formState).With(field, value)
      ensures page == old(page) && theme == old(theme) && rootTheme == old(rootTheme)
      ensures formMessage == old(formMessage)
      ensures authPage == old(authPage) && authValues == old(authValues) && authError == old(authError)
    {
      formState := formState.With(field, value);
    }

    /** `handleFormSubmit`: when both contact inputs hold more than
        whitespace, reports success and empties both; otherwise asks for all
        fields and keeps what was typed. Only the contact form and the shared
        message cell change. */
    method HandleFormSubmit()
      requires Valid() && page == Form
      modifies this
      ensures Valid()
      ensures old(formState).IsFilled() ==> formMessage == SubmitSucceeded && formState == EmptyContact
      ensures !old(formState).IsFilled() ==> formMessage == FillAllFields && formState == old(formState)
      ensures page == old(page) && theme == old(theme) && rootTheme == old(rootTheme)
      ensures authPage == old(authPage) && authValues == old(authValues) && authError == old(authError)
    {
      var hasName := HasText(formState.name);
      var hasEmail := HasText(formState.email);
      if hasName && hasEmail {
        formMessage := SubmitSucceeded;
        formState := EmptyContact;
      } else {
        formMessage := FillAllFields;
      }
    }

    /** `handleAuthChange`: the authentication input called `field` now holds
        `value`; the other input and the rest of the state are unchanged. */
    method HandleAuthChange(field: AuthField, value: string)
      requires Valid() && page == Auth
      modifies this
      ensures Valid()
      ensures authValues == old(authValues).With(field, value)
      ensures page == old(page) && theme == old(theme) && rootTheme == old(rootTheme)
      ensures formState == old(formState) && formMessage == old(formMessage)
      ensures authPage == old(authPage) && authError == old(authError)
    {
      authValues := authValues.With(field, value);
    }

    /** `handleAuthSubmit`: when both credentials hold more than whitespace,
        clears the error and writes the not-connected notice to the message
        cell shared with the contact form; otherwise sets the error and
        leaves that cell alone. The credentials are never changed. */
    method HandleAuthSubmit()
      requires Valid() && page == Auth
      modifies this
      ensures Valid()
      ensures old(authValues).IsFilled() ==> authError == "" && formMessage == AuthNotConnected
      ensures !old(authValues).IsFilled() ==> authError == BothFieldsRequired && formMessage == old(formMessage)
      ensures authValues == old(authValues)
      ensures page == old(page) && theme == old(theme) && rootTheme == old(rootTheme)
      ensures formState == old(formState) && authPage == old(authPage)
    {
      var hasUsername := HasText(authValues.username);
      var hasPassword := HasText(authValues.password);
      if hasUsername && hasPassword {
        authError := "";
        formMessage := AuthNotConnected;
      } else {
        authError := BothFieldsRequired;
      }
    }

    /** The link under the authentication form: switches to the sub-view it
        names, which is always the other one; nothing else changes. */
    method FollowAuthLink()
      requires Valid() && page == Auth
      modifies this
      ensures Valid()
      ensures authPage == LinkFor(old(authPage)).target && authPage != old(authPage)
      ensures page == old(page) && theme == old(theme) && rootTheme == old(rootTheme)
      ensures formState == old(formState) && formMessage == old(formMessage)
      ensures authValues == old(authValues) && authError == old(authError)
    {
      if authPage == Login {
        authPage := Signup;
      } else {
        authPage := Login;
      }
    }

    /** The top navigation bar: a button per page, the open page's alone active. */
    function TopNav(): (r: seq<Button>)
      reads this
      ensures |r| == |MenuOrder|
      ensures forall i | 0 <= i < |r| :: r[i].target == MenuOrder[i]
      ensures forall i | 0 <= i < |r| :: IsActive("nav-btn", r[i]) <==> r[i].target == page
      ensures ActiveTargets("nav-btn", r) == [page]
    {
      ExactlyOneActive("nav-btn", page);
      MenuButtons("nav-btn", page)
    }

    /** The sidebar: a button per page, the open page's alone active. */
    function Sidebar(): (r: seq<Button>)
      reads this
      ensures |r| == |MenuOrder|
      ensures forall i | 0 <= i < |r| :: r[i].target == MenuOrder[i]
      ensures forall i | 0 <= i < |r| :: IsActive("sidebar-btn", r[i]) <==> r[i].target == page
      ensures ActiveTargets("sidebar-btn", r) == [page]
    {
      ExactlyOneActive("sidebar-btn", page);
      MenuButtons("sidebar-btn", page)
    }

    /** The content area: exactly one panel, the open page's. */
    function Content(): (r: seq<Panel>)
      reads this
      ensures |r| == 1 && r[0].PageOf() == page
      ensures page == Form ==> r[0] == FormPage(formState, formMessage)
      ensures page == Auth ==> r[0] == AuthPage(authPage, authValues, authError, formMessage)
    {
      ContentArea(page, formState, formMessage, authPage, authValues, authError)
    }

    /** Although the two forms share one message cell, neither panel ever
        shows the other form's message: the contact panel never shows the
        authentication notice, the authentication panel never shows a contact
        message, and the dashboard leaves both cells empty. */
    lemma MessagesStayOnTheirPanel()
      requires Valid()
      ensures page == Dashboard ==> formMessage == "" && authError == ""
      ensures page == Form ==> Content()[0].message != Some(AuthNotConnected)
      ensures page == Auth ==> Content()[0].message == None || Content()[0].message == Some(AuthNotConnected)
      ensures page == Auth ==> Content()[0].message != Some(SubmitSucceeded) && Content()[0].message != Some(FillAllFields)
    {
    }
  }

  /** Toggling the theme twice restores the theme and the root attribute. */
  method ToggleThemeTwice(app: App)
    requires app.Valid()
    modifies app
    ensures app.Valid()
    ensures app.theme == old(app.theme) && app.rootTheme == old(app.rootTheme)
  {
    app.ToggleTheme();
    app.ToggleTheme();
  }

  /** Following the authentication link twice returns to the sub-view one
      started from. */
  method FollowAuthLinkTwice(app: App)
    requires app.Valid() && app.page == Auth
    modifies app
    ensures app.Valid()
    ensures app.authPage == old(app.authPage)
  {
    app.FollowAuthLink();
    app.FollowAuthLink();
  }

  /** The contact form: an empty name is refused and what was typed is kept,
      whitespace counts as empty, and two filled fields are accepted and cleared. */
  method ContactScenario()
  {
    var app := new App();
    app.HandleNav(Form);
    app.HandleFormChange(Email, "x@x.com");
    app.HandleFormSubmit();
    assert app.formMessage == FillAllFields && app.formState == ContactForm("", "x@x.com");

    app.HandleFormChange(Name, "   ");
    app.HandleFormSubmit();
    assert app.formMessage == FillAllFields;

    app.HandleFormChange(Name, "Alice");
    assert !IsBlank("Alice") && !IsBlank("x@x.com") by {
      assert !IsWhitespace("Alice"[0]) && !IsWhitespace("x@x.com"[0]);
    }
    app.HandleFormSubmit();
    assert app.formMessage == SubmitSucceeded && app.formState == EmptyContact;
  }

  /** The authentication form: a missing password sets the error and keeps
      the shared message; two filled credentials clear the error and put the
      notice in the shared message, which the panel then shows. */
  method AuthScenario()
  {
    var app := new App();
    app.HandleNav(Auth);
    app.HandleAuthChange(Username, "u");
    app.HandleAuthSubmit();
    assert app.authError == BothFieldsRequired && app.formMessage == "";

    app.HandleAuthChange(Password, "p");
    assert !IsBlank("u") && !IsBlank("p") by {
      assert !IsWhitespace("u"[0]) && !IsWhitespace("p"[0]);
    }
    app.HandleAuthSubmit();
    assert app.authError == "" && app.formMessage == AuthNotConnected;
    assert app.Content()[0].message == Some(AuthNotConnected);
  }
}
