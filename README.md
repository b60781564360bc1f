# Data-viz dashboard: session gate, variable store and results panel in Dafny

This project models the logic of a small React dashboard (`data-viz-platform`):

- the **variable-selection store**: a fixed, ordered list of named categories,
  each an ordered list of named variables with an `active` flag, and its one
  operation `toggleVariableActive(categoryName, variableName)`;
- the **session gate**: the `AuthProvider` state (`user`, `loading`), its
  session listener, the `!loading && children` gate, `useAuth`, the
  `ProtectedRoute` guard and the route table;
- the **form handlers** of the sign-in and sign-up pages and the sidebar's
  sign-out handler;
- the **results panel**: its `isExpanded` flag, the entries it shows, the
  chevron rotation and the order in which entries animate in and out.

Modules follow the source files: `Variables` (useVariablesStore.ts),
`AuthContext` (AuthContext.tsx), `App` (App.tsx), `SignIn`, `SignUp`,
`Sidebar`, `ScenarioResults`, plus `Identity` (the external identity
provider), `Forms` (the error banner both pages render) and `Wrappers`.

How the environment is represented:

- The identity provider is the class `Identity.IdentityProvider`. Each call
  takes the provider's answer as a parameter (`Ok`, or `Fail` with an
  optional message) and appends the request to the provider's log `calls`,
  so "the provider is not called" is a statement about `calls`.
- The session listener is the explicit event `AuthProvider.Notify(u)`. It
  has an effect only while the listener is subscribed (`Subscribe` is the
  mount effect, `Unsubscribe` the cleanup it returns).
- An awaited provider call is one atomic step. A rejected promise is the
  returned `Outcome` value `Fail(...)`.
- `navigate(path)` is the returned `nav == Some(path)`. `nav == None` means
  no navigation happened.

The store's toggle is a pure function (`Variables.Toggled`) written as the
source's nested `map`. Its contract gives the flag of every variable after
the toggle. The store class replaces its `categories` field with that
function's result.

Three points about the code that the model reproduces:

- `handleSignOut` (Sidebar.tsx:19-22) has no `catch`, so a failed sign-out
  reaches the caller and no navigation happens (`Sidebar.HandleSignOut`).
- `handleSubmit` of the sign-in page (SignIn.tsx:19-21) maps every failure
  to "Invalid credentials".
- A toggle flips every variable whose category name and variable name both
  match. With unique names, as in the initial data
  (`Variables.InitialNamesUnique`), exactly the one addressed flag changes
  (`Variables.ToggleFlipsOnlyAddressed`).

Two of the source's comments, read against the code. AuthContext.tsx:15
and :30 describe `loading` as the loading state "during" and "for" auth
operations, but the only write to it is `setLoading(false)` at :40, so
sign-in, sign-up and sign-out never set it. SignUp.tsx:11 lists
"Email/password validation": `handleSubmit`'s only check is password
equality (:37), and the email's format is left to the browser's
validation of the `type="email"` input (:70).

## Model

| member | source | states |
|---|---|---|
| `Variables.ToggleInVariables` | projects/data-viz-platform/src/lib/useVariablesStore.ts:56-60 | the inner map keeps the length and every name in order, and negates `active` exactly for the variables named `variableName` |
| `Variables.Toggled` | projects/data-viz-platform/src/lib/useVariablesStore.ts:52-63 | a toggle keeps the number, order and names of the categories and of every category's variables; a flag is negated exactly when its category name and its own name both match, and every other flag is unchanged |
| `Variables.ToggleInvolutive` | projects/data-viz-platform/src/lib/useVariablesStore.ts:50-64 | toggling the same pair twice restores the categories exactly |
| `Variables.ToggleChangesIffTargeted` | projects/data-viz-platform/src/lib/useVariablesStore.ts:52-62 | a toggle leaves the categories equal to what they were if and only if no category of that name holds a variable of that name, so unknown names are a silent no-op |
| `Variables.ToggleCommutes` | projects/data-viz-platform/src/lib/useVariablesStore.ts:52-63 | toggles of any two (category, variable) pairs commute |
| `Variables.ToggleFlipsOnlyAddressed` | projects/data-viz-platform/src/lib/useVariablesStore.ts:53-61 | when names are unique, toggling the pair at (i, j) yields the categories with exactly that one flag negated |
| `Variables.InitialNamesUnique` | projects/data-viz-platform/src/lib/useVariablesStore.ts:18-46 | the initial categories have pairwise distinct names, and so do the variables within each category |
| `Variables.ToggleCarbon1FromInitial` | projects/data-viz-platform/src/lib/useVariablesStore.ts:18-49 | from the initial data, toggling ("Variable category 1", "Carbon 1") makes Carbon 1 active, and every other flag keeps its initial value |
| `Variables.ToggleIsScopedToCategory` | projects/data-viz-platform/src/lib/useVariablesStore.ts:27-44 | toggling ("Variable Category 2", "Variable 1") activates that category's "Variable 1" and leaves "Variable Category 3" unchanged, including its own "Variable 1" |
| `Variables.VariableStore.constructor` | projects/data-viz-platform/src/lib/useVariablesStore.ts:48-49 | the store starts with the initial categories |
| `Variables.VariableStore.ToggleVariableActive` | projects/data-viz-platform/src/lib/useVariablesStore.ts:50-64 | the new `categories` is the toggle of the old ones; the store keeps the initial names and their order, and the names stay unique |
| `AuthContext.AuthProvider.constructor` | projects/data-viz-platform/src/context/AuthContext.tsx:33-34 | the provider starts with no user, loading, no listener registered, and its children not rendered |
| `AuthContext.AuthProvider.Subscribe` | projects/data-viz-platform/src/context/AuthContext.tsx:37-44 | mounting registers the listener and changes neither `user` nor `loading` |
| `AuthContext.AuthProvider.Unsubscribe` | projects/data-viz-platform/src/context/AuthContext.tsx:43 | the cleanup deregisters the listener and changes neither `user` nor `loading` |
| `AuthContext.AuthProvider.Notify` | projects/data-viz-platform/src/context/AuthContext.tsx:38-41 | while the listener is registered, a notification sets `user` to the notified value, clears `loading` and lets the children render; `loading` once false stays false; `loading` implies no user |
| `AuthContext.AuthProvider.ChildrenRendered` | projects/data-viz-platform/src/context/AuthContext.tsx:63 | the children render exactly when loading is over |
| `AuthContext.AuthProvider.SignIn` | projects/data-viz-platform/src/context/AuthContext.tsx:49-51 | sends one sign-in request with the given email and password, returns the provider's outcome unchanged, and writes only the provider (never `user` or `loading`) |
| `AuthContext.AuthProvider.SignUp` | projects/data-viz-platform/src/context/AuthContext.tsx:53-55 | sends one sign-up request with the given email and password, returns the provider's outcome unchanged, and writes only the provider |
| `AuthContext.AuthProvider.SignOut` | projects/data-viz-platform/src/context/AuthContext.tsx:57-59 | sends one sign-out request, returns the provider's outcome unchanged, and writes only the provider |
| `AuthContext.UseAuth` | projects/data-viz-platform/src/context/AuthContext.tsx:72-75 | fails with the "must be used within an AuthProvider" message exactly when there is no surrounding provider, and otherwise returns that provider |
| `App.Guard` | projects/data-viz-platform/src/App.tsx:17-21 | the guard is Loading exactly while loading (the provider's gate at AuthContext.tsx:63, which `ProtectedRoute` does not read), Unauthenticated exactly when loaded without a user, and Authenticated exactly when loaded with one |
| `App.ProtectedRoute` | projects/data-viz-platform/src/App.tsx:17-21 | redirects to `/signin` exactly when the user is null and shows its child exactly when there is a user; it takes no loading flag |
| `App.Routes` | projects/data-viz-platform/src/App.tsx:35-47 | `/signin` shows the sign-in page, `/signup` the sign-up page, both unguarded; every other path is the main layout behind `ProtectedRoute` |
| `App.View` | projects/data-viz-platform/src/App.tsx:34-48 | the screen is blank exactly while loading, and is the route table's choice once loading is over |
| `App.ViewOf` | projects/data-viz-platform/src/context/AuthContext.tsx:62-64 | a mounted provider's screen is blank exactly when its children are not rendered |
| `App.GuardDecides` | projects/data-viz-platform/src/App.tsx:34-48 | at a protected path, Loading shows nothing, Unauthenticated redirects to `/signin`, and Authenticated shows the shell |
| `App.NoShellWhileLoading` | projects/data-viz-platform/src/App.tsx:34-48 | while loading, no path shows the shell or a redirect, whoever the user |
| `App.AuthPagesOpen` | projects/data-viz-platform/src/App.tsx:36-37 | once loaded, `/signin` and `/signup` show their pages for any session, an authenticated one included |
| `App.SignOutLandsOnSignIn` | projects/data-viz-platform/src/App.tsx:36 | the sidebar's sign-out target shows the sign-in page for any session |
| `App.SuccessTargetIsGuarded` | projects/data-viz-platform/src/App.tsx:39-46 | both pages' success target `/` is a guarded path: the shell with a user, a redirect to `/signin` without one |
| `App.NoUserWhileLoading` | projects/data-viz-platform/src/context/AuthContext.tsx:33-41 | a provider in the Loading state has no user and shows nothing at any path |
| `App.SessionScenario` | projects/data-viz-platform/src/context/AuthContext.tsx:33-41 | a fresh provider notified of no user and then of a user goes Loading, Unauthenticated, Authenticated, with no Loading in between; at a protected path the screen goes blank, redirect to `/signin`, shell |
| `Forms.ErrorBanner` | projects/data-viz-platform/src/pages/SignUp.tsx:57-61 | the banner both pages render (here and at SignIn.tsx:28-32) shows exactly when the error is non-empty, and it shows that error |
| `SignIn.SignInForm.constructor` | projects/data-viz-platform/src/pages/SignIn.tsx:8-10 | the form starts with empty email, password and error |
| `SignIn.SignInForm.SetEmail` | projects/data-viz-platform/src/pages/SignIn.tsx:42 | editing the email changes only the email |
| `SignIn.SignInForm.SetPassword` | projects/data-viz-platform/src/pages/SignIn.tsx:54 | editing the password changes only the password |
| `SignIn.SignInForm.HandleSubmit` | projects/data-viz-platform/src/pages/SignIn.tsx:14-22 | submit sends the fields unvalidated to the provider and leaves them unchanged; success navigates to `/` and keeps the previous error (it is not cleared); any failure sets "Invalid credentials", which the banner then shows, and does not navigate |
| `SignUp.FailureMessage` | projects/data-viz-platform/src/pages/SignUp.tsx:47 | the message is the provider's when it gave a non-empty one and "Failed to create account" otherwise; it is never empty |
| `SignUp.SignUpForm.constructor` | projects/data-viz-platform/src/pages/SignUp.tsx:18-21 | the form starts with all four fields empty |
| `SignUp.SignUpForm.SetEmail` | projects/data-viz-platform/src/pages/SignUp.tsx:72 | editing the email changes only the email |
| `SignUp.SignUpForm.SetPassword` | projects/data-viz-platform/src/pages/SignUp.tsx:85 | editing the password changes only the password |
| `SignUp.SignUpForm.SetConfirmPassword` | projects/data-viz-platform/src/pages/SignUp.tsx:98 | editing the confirmation changes only the confirmation |
| `SignUp.SignUpForm.HandleSubmit` | projects/data-viz-platform/src/pages/SignUp.tsx:32-49 | submit leaves the three fields unchanged; with unequal passwords the error becomes "Passwords do not match" and the banner shows it, the provider is not called and nothing navigates; with equal passwords (empty ones included) exactly one sign-up request with the fields goes out, then success navigates to `/` with no error and failure sets the failure message, which the banner shows, without navigating |
| `Sidebar.HandleSignOut` | projects/data-viz-platform/src/components/Sidebar.tsx:19-22 | sends one sign-out request and returns its outcome; it navigates, always to `/signin`, exactly when sign-out succeeded |
| `Sidebar.Click` | projects/data-viz-platform/src/components/Sidebar.tsx:28-57 | only LogOut runs a handler, the sign-out handler, and its outcome is returned; for every other button no handler runs, nothing is sent and nothing navigates |
| `ScenarioResults.Render` | projects/data-viz-platform/src/components/ScenarioResults.tsx:106-139 | the rotation is 0 exactly when expanded and 180 otherwise; entries are shown exactly when expanded, and then they are the result list |
| `ScenarioResults.KeysDistinct` | projects/data-viz-platform/src/components/ScenarioResults.tsx:18-29 | the entries' keys (their types) are pairwise distinct |
| `ScenarioResults.ExpandedOrder` | projects/data-viz-platform/src/components/ScenarioResults.tsx:124-127 | expanded, the panel shows profit then demand, each once |
| `ScenarioResults.Staggered` | projects/data-viz-platform/src/components/ScenarioResults.tsx:38-49 | the start order holds each entry once, at its stagger slot |
| `ScenarioResults.ExitReversesEnter` | projects/data-viz-platform/src/components/ScenarioResults.tsx:38-49 | entries enter in list order and leave in the reverse of the enter order |
| `ScenarioResults.Panel.constructor` | projects/data-viz-platform/src/components/ScenarioResults.tsx:94 | the panel starts expanded, showing the result list |
| `ScenarioResults.Panel.Click` | projects/data-viz-platform/src/components/ScenarioResults.tsx:99 | a header click negates `isExpanded`, so two clicks restore it |
| `ScenarioResults.Panel.View` | projects/data-viz-platform/src/components/ScenarioResults.tsx:116 | the panel shows entries exactly when it is expanded |

## Left out

- The identity provider's internals (`../lib/firebase`, `firebase/auth`) are not part of this model. The provider is an abstract call whose answer is a parameter.
- The provider's own timing of notifications is left out. After a successful sign-in or sign-up the listener may or may not have delivered the user before `navigate("/")` runs. The model leaves that order to the caller of `Notify`. `App.SuccessTargetIsGuarded` states what `/` shows in either case.
- Async scheduling and the intermediate render between `setError("")` and the provider's answer in SignUp are left out. Each awaited call is one atomic step, so only the state after submit is stated.
- `useEffect(..., [])` subscribes once per mount. The model does not limit how often `Subscribe` is called. Calling it is idempotent.
- A handler that finishes after its page has unmounted is not modelled. That is a framework concern.
- Route matching is exact string equality. The router library's case-insensitive matching and trailing-slash normalisation are not part of this model.
- Animation timings, spring parameters and stagger delays are floating-point presentation values. Only the stagger direction, and so the order, is modelled.
- Markup, styling, icons, the chart (Graph.tsx), KPI tiles (KPICards.tsx, DashboardMetrics.tsx), the variables modal (VariablesModal.tsx), the auth markup wrappers and the build configuration are presentation or configuration. They hold none of the modelled logic.
- The browser's form validation of the `type="email"` inputs (SignIn.tsx:40, SignUp.tsx:70) is not modelled. `HandleSubmit` starts from a submit the browser let through.
- A hover-intent tooltip timer does not appear in the source files, so none is modelled.
- Strings are Dafny character sequences. JavaScript compares UTF-16 code units, and the two agree on the ASCII names used here.
