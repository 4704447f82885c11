# React UI shell: the `App` view-state machine

The repository is a single-page UI scaffold. It has a top navigation bar, a sidebar, a light/dark theme, a
dashboard, a sample contact form and an authentication form that only validates on the client. All of
its behaviour sits in one React component, `App`. It holds seven state cells:

- the open page;
- the theme;
- the contact form's values;
- one message cell;
- the authentication sub-view (login or sign-up);
- the credentials;
- the authentication error.

Event handlers replace these cells, and the page that is drawn is a function of them.

This project models that component in Dafny:

- `text.dfy` (module `Text`) defines JavaScript's `String.prototype.trim` and the "blank" test that
  both forms apply to their fields.
- `state.dfy` (module `ViewState`) holds the enumerations (page, theme, auth sub-view, field names),
  the two form records with their `{...record, [field]: value}` update, the fixed message texts and
  the theme flip.
- `render.dfy` (module `Render`) holds the state-dependent parts of the rendered page as values:
  - the navigation buttons and their `active` class;
  - the content area;
  - the contact and authentication panels, with their titles, messages and link.
- `app.dfy` (module `AppComponent`) holds class `App`. Its fields are the state cells. Each handler
  is a method that replaces some of them. `TopNav`, `Sidebar` and `Content` are functions of the
  fields. The object invariant `Valid()` says:
  - the document root's `data-theme` attribute (a ghost field) equals the theme;
  - each message cell holds either `""` or one of the component's own texts;
  - on the dashboard both message cells are empty, and the error is empty off the
    authentication page;
  - the message on the contact page is never the authentication notice, and the message on the
    authentication page is empty or that notice.
- The inputs, submit buttons and link exist only inside the contact panel (lines 152-168) and the
  authentication panel (lines 172-195), which are mounted only on their own page (lines 205-206).
  So the contact handlers require `page == Form` and the authentication handlers and the link
  require `page == Auth`.

The model keeps the component's single message cell `formMessage`. The contact submit writes it
and so does a successful authentication submit. Both the contact panel and the authentication
panel display it. Navigation clears it.

## Model

| member | source | states |
|---|---|---|
| `Text.TrimStart` | frontend_reactjs/src/App.js:43 | The result is a suffix of the input. Every character cut off is whitespace. The result is empty or starts with a non-whitespace character. |
| `Text.TrimEnd` | frontend_reactjs/src/App.js:43 | The result is a prefix of the input. Every character cut off is whitespace. The result is empty or ends with a non-whitespace character. |
| `Text.Trim` | frontend_reactjs/src/App.js:43 | `trim()` yields the empty string exactly when the input is blank. Otherwise its result neither starts nor ends with whitespace. |
| `Text.HasText` | frontend_reactjs/src/App.js:60 | `s.trim()` used as a condition is true exactly when `s` is not blank. Both submit handlers test their fields this way. |
| `Text.TrimUnique` | frontend_reactjs/src/App.js:43 | Reference definition of trim. Cutting any whitespace-only prefix and suffix, so that what is left neither starts nor ends with whitespace, gives exactly `Trim(s)`. |
| `Text.TrimIdempotent` | frontend_reactjs/src/App.js:43 | Trimming an already trimmed value changes nothing. |
| `Text.SpacesAreBlank` | frontend_reactjs/src/App.js:43 | Whitespace-only input such as `"   "` trims to the empty string. |
| `Text.PaddedNameTrims` | frontend_reactjs/src/App.js:43 | `"  Alice "` trims to `"Alice"`: surrounding whitespace goes and the visible part stays. |
| `ViewState.ContactForm.With` | frontend_reactjs/src/App.js:37 | The spread update of the contact form. The named input takes the new value and the other input keeps its value. |
| `ViewState.Credentials.With` | frontend_reactjs/src/App.js:53 | The spread update of the credentials. The named input takes the new value and the other input keeps its value. |
| `ViewState.Toggled` | frontend_reactjs/src/App.js:25 | The theme toggle always yields the other theme: light goes to dark and dark goes to light. |
| `ViewState.ToggledTwice` | frontend_reactjs/src/App.js:25 | Toggling twice restores the original theme. |
| `ViewState.WhitespaceDoesNotFill` | frontend_reactjs/src/App.js:43 | A contact form whose name is blank, that is empty or whitespace-only, does not pass validation, whatever the email. |
| `ViewState.ContactFilledIffTrimmed` | frontend_reactjs/src/App.js:43 | The contact form passes validation exactly when `formState.name.trim()` and `formState.email.trim()` are both non-empty, which is the condition the handler tests. |
| `ViewState.CredentialsFilledIffTrimmed` | frontend_reactjs/src/App.js:60 | The credentials pass validation exactly when `authValues.username.trim()` and `authValues.password.trim()` are both non-empty, which is the condition the handler tests. |
| `Render.Shown` | frontend_reactjs/src/App.js:165 | `msg && <div>` renders the message element exactly when the string is non-empty, and the element shows that string. |
| `Render.MenuButtons` | frontend_reactjs/src/App.js:78-86 | There is one button per page, in the order dashboard, form, auth. A button carries ` active` exactly when it leads to the open page. |
| `Render.ExactlyOneActive` | frontend_reactjs/src/App.js:97-105 | Exactly one button of a menu is active: the one for the open page. |
| `Render.AuthTitle` | frontend_reactjs/src/App.js:174-184 | The heading and submit label read "Login" exactly in the login sub-view, and "Sign Up" exactly in the sign-up sub-view. |
| `Render.LinkFor` | frontend_reactjs/src/App.js:189-192 | The link under the authentication form always leads to the other sub-view. Its button text is that sub-view's title. Its prompt is "Don't have an account?" in the login sub-view and "Already have an account?" in the sign-up sub-view. |
| `Render.LinkTwice` | frontend_reactjs/src/App.js:189-192 | Following the link twice returns to the starting sub-view. |
| `Render.FormPage` | frontend_reactjs/src/App.js:152-168 | The contact panel shows the form's values. Its message element is `Shown(formMessage)`: present exactly when the shared message is non-empty, and then showing it. |
| `Render.AuthPage` | frontend_reactjs/src/App.js:172-195 | Title and submit label are both `AuthTitle(mode)`: "Login" exactly in login mode, "Sign Up" exactly in sign-up mode. The inputs show the credentials. The error element is `Shown(authError)` and the message element `Shown(formMessage)`, each present exactly when non-empty. The link is `LinkFor(mode)`, leading to the other sub-view. |
| `Render.ContentArea` | frontend_reactjs/src/App.js:204-206 | Of the three conditional panels, exactly one is rendered: the open page's, namely the dashboard, `FormPage` or `AuthPage` of the current state. |
| `Render.SharedMessage` | frontend_reactjs/src/App.js:165-186 | The contact panel and the authentication panel display the same message cell. |
| `AppComponent.App.constructor` | frontend_reactjs/src/App.js:10-21 | Initial state: dashboard, light theme with the root attribute set to light, empty forms, no messages, login sub-view; the invariant holds. |
| `AppComponent.App.ToggleTheme` | frontend_reactjs/src/App.js:19-26 | The theme flips, and the root attribute follows it. Nothing else changes. |
| `AppComponent.App.HandleNav` | frontend_reactjs/src/App.js:29-33 | Sets the page to the target and clears both message cells. Theme, forms and sub-view are unchanged. The content area then shows only the target's panel. |
| `AppComponent.App.HandleFormChange` | frontend_reactjs/src/App.js:36-38 | Only the named contact input changes. The other input and all other state are unchanged. Callable only on the contact page, where its input or button is mounted. |
| `AppComponent.App.HandleFormSubmit` | frontend_reactjs/src/App.js:41-49 | If both fields are non-blank: success message and both fields emptied. Otherwise: "fill out all fields" and the fields are kept. Nothing else changes. Callable only on the contact page, where its input or button is mounted. |
| `AppComponent.App.HandleAuthChange` | frontend_reactjs/src/App.js:52-54 | Only the named credential changes. The other credential and all other state are unchanged. Callable only on the authentication page, where its input, button or link is mounted. |
| `AppComponent.App.HandleAuthSubmit` | frontend_reactjs/src/App.js:57-66 | If both credentials are non-blank: the error is cleared and the not-connected notice goes into the shared message. Otherwise: the error is set and the message is left alone. Credentials never change. Callable only on the authentication page, where its input, button or link is mounted. |
| `AppComponent.App.FollowAuthLink` | frontend_reactjs/src/App.js:188-193 | The sub-view switches to the link's target, which is always the other sub-view. Nothing else changes. Callable only on the authentication page, where its input, button or link is mounted. |
| `AppComponent.App.TopNav` | frontend_reactjs/src/App.js:77-87 | Three nav buttons, one per page in the order dashboard, form, auth. Exactly one is active: the open page's. |
| `AppComponent.App.Sidebar` | frontend_reactjs/src/App.js:96-106 | Three sidebar buttons, one per page in the order dashboard, form, auth. Exactly one is active: the open page's. |
| `AppComponent.App.Content` | frontend_reactjs/src/App.js:203-207 | For every state the content area holds exactly one panel: the open page's, built from the current form values and messages. |
| `AppComponent.App.MessagesStayOnTheirPanel` | frontend_reactjs/src/App.js:29-66 | In every reachable state the dashboard has both message cells empty, the contact panel never shows the authentication notice, and the authentication panel never shows a contact-form message, although the two forms share one cell. |
| `AppComponent.ToggleThemeTwice` | frontend_reactjs/src/App.js:24-26 | Two theme toggles restore the theme and the root attribute. |
| `AppComponent.FollowAuthLinkTwice` | frontend_reactjs/src/App.js:189-192 | Two clicks on the authentication link return to the original sub-view. |

`AppComponent.ContactScenario` and `AppComponent.AuthScenario` are client methods with no contract of
their own. They call the handlers on sample inputs, and the verifier proves the asserted outcomes:

- an empty name;
- a whitespace-only name;
- `"Alice"` / `"x@x.com"`;
- a username without a password;
- both credentials.

The authentication sub-view changes only through the link under the form (lines 189-192), which
always switches to the sub-view that is not shown; `FollowAuthLink` models that link.

## Left out

- Markup, CSS class strings other than the ` active` suffix, icons, and the static dashboard cards
  (lines 118-148). These are presentation and depend on no state. The one attribute of the markup
  that affects behaviour, the email input's `type="email"`, is described in the next line.
- AppComponent.App.HandleFormSubmit: the browser's checks on the contact form are not modelled.
  The email input has `type="email"` (line 162) in a form without `noValidate` (line 155). The
  browser therefore fires no `submit`, and so does not call `handleFormSubmit`, while the email
  is non-empty and not a well-formed address. The model lets the handler run for any email, so
  `"Alice"` with `"abc"` reaches the success branch in the model but not in the browser. The
  browser also removes line breaks and strips leading and trailing ASCII whitespace from an email
  value before `onChange` reports it, so `"   "` reaches `formState.email` as `""`.
  `HandleFormChange` stores whatever value it is given. These checks belong to the browser, not
  to the component, and the handler's own outcome for each field value is as stated.
- The theme button's label and `aria-label` (lines 88-89). They are presentation text chosen by the
  theme.
- The footer's year (line 112). It is a clock read.
- The DOM write `document.documentElement.setAttribute('data-theme', …)` (lines 19-21). It is browser
  I/O. The model keeps it only as the ghost field `rootTheme`. The field is updated in the same step
  as `theme`, not in a later effect.
- Event objects and `e.preventDefault()` (lines 42, 58). The change handlers take the input's name
  as an enumeration (`Name`/`Email`, `Username`/`Password`) plus the new value. Other names cannot
  occur, because only those inputs exist.
- React's hook scheduling, batching and stale closures. Each handler is one atomic, synchronous
  state transition.
- Page identifiers other than the three used. `Page` has three constructors, so they cannot arise.
- Text.IsWhitespace: the whitespace set is fixed. It is the ECMAScript WhiteSpace and
  LineTerminator code points, with the Unicode `Zs` separators as of current Unicode. Later
  additions to `Zs` are not followed.
