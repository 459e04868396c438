# Registration form and auth snapshot of a food-delivery front-end

This project models, in Dafny, the two pieces of sequential logic inside a multi-role
food-delivery web front-end whose authentication and storage live in a hosted backend.

1. **The role-aware registration form** (`src/pages/auth/Register.tsx`), module `RegisterForm`
   and `RegisterSubmit`. The form state is a tagged union over the three account kinds
   client, restaurant and driver. Choosing a role throws the current record away and builds
   that variant's fresh default: a restaurant gets an opening-hours map with the seven days
   `Lundi` … `Dimanche`, each `09:00`–`22:00`; a driver gets an availability map with the seven days,
   each unavailable with the one range `09:00`–`18:00`. Every other input overwrites only its own
   field, and each per-day control overwrites only its own day. Submission is a fixed plan:
   sign-up, then a `profiles` insert, then a `restaurants` or `drivers` insert for those roles.
   Each step runs only when the previous one succeeded, and nothing is ever undone. The caught
   error becomes a message. On success, the message names the role; a driver is called `livreur`.
2. **The auth snapshot** (`src/contexts/AuthContext.tsx`), module `AuthContext`. A provider holds
   `(session, user, userRole)`. Three kinds of event change it: the one-shot initial session
   check, the auth-change notifications, and role-lookup results. The provider is modelled as a
   transition function over an ordered stream of these events, plus sign-out and teardown.
   The model follows the code, gaps included:
   - a role-lookup result is applied without checking that its user is still signed in, so a
     late answer sets a role after sign-out (`LateLookupSetsRoleAfterSignOut`,
     `RoleWithoutUserIsReachable`), and an answer for a superseded user overrides the current
     user's role (`SupersededLookupWins`);
   - `signOut` only asks the backend; the snapshot is cleared by the sign-out notification;
   - teardown only removes the listener, so an initial check that resolves afterwards still sends
     its role query (`LateInitialCheckStillQueries`).

   What the code does guarantee is proved: `user` always equals the session's user (`Run`);
   every role shown came from some lookup answer (`RoleComesFromLookup`); the listener is
   registered once and released once (`ListenerLifecycle`).

Backend calls are abstract. Sign-up returns an error or an optional user id. An insert
succeeds or fails. A role query returns a role or an error. A caught value records whether it
is an `Error` instance, because the handler only sets a message for those. Time strings such
as `09:00` are opaque. The client's optional delivery address is collected by the form but
written to no table, in the code and in the model.

## Model

| member | source | states |
|---|---|---|
| RegisterForm.ParseRole | src/pages/auth/Register.tsx:73-116 | the role select is accepted exactly when its value is one of the three role names, and then names that role; any other value selects no role |
| RegisterForm.Spread | src/pages/auth/Register.tsx:94-97 | folding the days into an empty object gives a map whose keys are exactly the given days, each holding the given entry |
| RegisterForm.ResetForm | src/pages/auth/Register.tsx:73-114 | a fresh record has the selected role and every text field empty; a restaurant has exactly the seven days at 09:00–22:00; a driver has exactly the seven days, unavailable, with the one range 09:00–18:00 |
| RegisterForm.SetField | src/pages/auth/Register.tsx:119-124 | a text edit replaces that field's value and keeps the role, every other field and the weekly map |
| RegisterForm.ApplyFieldChange | src/pages/auth/Register.tsx:66-125 | a valid role value yields that role's fresh record; an invalid role value leaves the form unchanged; any other field edit changes only the named field |
| RegisterForm.RoleChangeForgetsPreviousForm | src/pages/auth/Register.tsx:69-118 | the record after a role change does not depend on the form before it, common fields included |
| RegisterForm.FieldsDetermineForm | src/pages/auth/Register.tsx:8-39 | role, text fields and weekly map together determine the form, so the "only this changed" contracts leave nothing else free |
| RegisterForm.EditOpen | src/pages/auth/Register.tsx:392-402 | editing a day's open time sets it, keeps that day's close time, all other days, all keys and every text field |
| RegisterForm.EditClose | src/pages/auth/Register.tsx:410-420 | editing a day's close time sets it, keeps that day's open time, all other days, all keys and every text field |
| RegisterForm.EditAvailable | src/pages/auth/Register.tsx:494-505 | toggling a driver day sets its flag, keeps its hours, all other days and every text field |
| RegisterForm.EditStart | src/pages/auth/Register.tsx:514-530 | editing a driver day's start leaves that day exactly one range, with the new start and the old end, and changes nothing else |
| RegisterForm.EditEnd | src/pages/auth/Register.tsx:537-553 | editing a driver day's end leaves that day exactly one range, with the new end and the old start, and changes nothing else |
| RegisterForm.Rendered | src/pages/auth/Register.tsx:386-557 | the role select and the variant's text inputs are shown; opening-hours controls exist only on a restaurant form and for the seven days; availability boxes only on a driver form and for the seven days; a driver day's time inputs only while that day is ticked available |
| RegisterForm.FormStep | src/pages/auth/Register.tsx:278-565 | an interaction with a control on screen keeps the form well shaped; an event from a control not rendered for this form changes nothing |
| RegisterForm.FormRun | src/pages/auth/Register.tsx:53-125 | every form reachable from the page's initial record keeps all seven days, and exactly one range per driver day |
| RegisterForm.SevenDistinctDays | src/pages/auth/Register.tsx:41-49 | the seven day names are pairwise distinct, so a weekly map has seven entries |
| RegisterForm.ReachableWeekIsComplete | src/pages/auth/Register.tsx:85-113 | every reachable restaurant or driver form has exactly seven day entries |
| RegisterForm.InitialFormIsClientReset | src/pages/auth/Register.tsx:53-61 | the page starts on the same record a client reset builds |
| RegisterSubmit.SignUpRequest | src/pages/auth/Register.tsx:135-144 | sign-up sends the form's email and password, tagged with its role |
| RegisterSubmit.ProfileRecord | src/pages/auth/Register.tsx:150-160 | the profile row carries the user id, role and phone, and carries first and last name if and only if the role is client or driver |
| RegisterSubmit.RoleRecord | src/pages/auth/Register.tsx:165-188 | a restaurant gets one restaurants row and a driver one drivers row, both keyed by the new user's id; a client gets none |
| RegisterSubmit.FullPlan | src/pages/auth/Register.tsx:133-188 | with every step succeeding a client sends two requests and the other roles three |
| RegisterSubmit.RoleLabel | src/pages/auth/Register.tsx:191-202 | the success label is `livreur` exactly for a driver and the role's name otherwise |
| RegisterSubmit.SuccessMessage | src/pages/auth/Register.tsx:204 | the success message is the fixed lead, then the role's label, then the request to confirm the email before signing in |
| RegisterSubmit.ErrorMessage | src/pages/auth/Register.tsx:211-221 | only an `Error` gets a message; exactly `User already registered` gets the dedicated one, every other `Error` the generic one |
| RegisterSubmit.Submit | src/pages/auth/Register.tsx:127-225 | sign-up always runs; the profile insert runs exactly when sign-up yields a user; the role insert runs exactly when the profile insert succeeded and the role is not client; the requests are a prefix of the full plan; success exactly when every issued step succeeded; otherwise the first failure's message |
| RegisterSubmit.SubmitInsertCounts | src/pages/auth/Register.tsx:149-188 | for every role and every backend answer: one profiles insert once a user exists, at most one row in the role's own table, never one in the other role's table |
| RegisterSubmit.RestaurantSubmitWritesOneRestaurant | src/pages/auth/Register.tsx:166-177 | once sign-up and profile succeed, a restaurant submission writes exactly one restaurants row keyed by the new id and no drivers row |
| RegisterSubmit.DriverSubmitWritesOneDriver | src/pages/auth/Register.tsx:178-187 | once sign-up and profile succeed, a driver submission writes exactly one drivers row keyed by the new id and no restaurants row |
| RegisterSubmit.ClientSubmitHasNoRoleRow | src/pages/auth/Register.tsx:164-188 | a client submission never writes a third row |
| RegisterSubmit.FailedProfileKeepsIdentity | src/pages/auth/Register.tsx:146-162 | a failed profile insert stops the plan after sign-up, with no compensating request, and reports that error |
| AuthContext.UserOf | src/contexts/AuthContext.tsx:30 | the user is present exactly when a session is, and is then that session's user |
| AuthContext.OnSessionChecked | src/contexts/AuthContext.tsx:28-34 | the initial check replaces the session, sets the user to the session's user or null, keeps the role, and starts one role lookup for that user exactly when there is a session |
| AuthContext.OnAuthStateChange | src/contexts/AuthContext.tsx:39-47 | a notification replaces the session and user; without a session the role becomes null, with one the role is kept and one lookup for that user starts |
| AuthContext.OnRoleLookedUp | src/contexts/AuthContext.tsx:52-65 | a failed lookup keeps the role; a successful one sets it, whatever the current user; session and user are untouched |
| AuthContext.SignOut | src/contexts/AuthContext.tsx:67-69 | sign-out sends the backend request and leaves session, user and role as they were |
| AuthContext.Step | src/contexts/AuthContext.tsx:26-69 | each event keeps `user` equal to the session's user and only appends backend calls; after teardown the snapshot no longer changes, and the only call still made is the role query of an initial check that resolves with a session |
| AuthContext.Run | src/contexts/AuthContext.tsx:22-50 | from the all-null initial state, every event stream leaves `user` equal to the session's user, and the provider is mounted until a teardown |
| AuthContext.ListenerLifecycle | src/contexts/AuthContext.tsx:37-49 | the session check and the listener are requested once each; the listener is released once, exactly after teardown |
| AuthContext.StepListenerCalls | src/contexts/AuthContext.tsx:37-49 | no event other than teardown requests or releases the listener |
| AuthContext.RoleComesFromLookup | src/contexts/AuthContext.tsx:59-64 | a role in the snapshot is the role of some lookup answer delivered earlier |
| AuthContext.LateLookupSetsRoleAfterSignOut | src/contexts/AuthContext.tsx:52-65 | after any history, a lookup started at sign-in that lands after the sign-out notification leaves session and user null with a non-null role |
| AuthContext.RoleWithoutUserIsReachable | src/contexts/AuthContext.tsx:52-65 | some stream in which every lookup answer follows a query the provider sent reaches a snapshot with a role and no user |
| AuthContext.LateInitialCheckStillQueries | src/contexts/AuthContext.tsx:28-49 | after teardown, an initial check that resolves with a session still sends one role query for its user and leaves the snapshot unchanged |
| AuthContext.SupersededLookupWins | src/contexts/AuthContext.tsx:52-65 | when user A's lookup lands after user B's, the snapshot shows user B with A's role |
| AuthContext.UseAuth | src/contexts/AuthContext.tsx:12-19 | outside a provider a component reads all-null and its sign-out calls nothing; inside, it reads the provider's `value` (lines 71-78): its snapshot, with a sign-out that calls the backend |
| AuthContext.DefaultMatchesFreshProvider | src/contexts/AuthContext.tsx:12-24 | the default context value and a freshly mounted provider expose the same all-null snapshot |

## Left out

- The backend SDK (`signUp`, `from(...).insert`, `select().eq().single()`, `getSession`, `onAuthStateChange`, `signOut`) is not modelled: each call is an abstract answer passed in as a parameter.
- A rejected `getSession` promise is not modelled: the `then` handler never runs, so the model has no event for it.
- Promise timing and React rendering (`useState`, `useEffect`, re-renders) are not modelled beyond the order of the event stream. After teardown, the snapshot no longer changes, because React drops state updates on an unmounted component. Backend calls are still recorded: the teardown cancels neither the pending initial check nor a pending role query, so an initial check that resolves late still sends its role query. After teardown an auth-change notification no longer arrives, and a `signOut` is ignored, because the components that could call it are unmounted too.
- Navigation, the `setTimeout` redirect, `window.location.origin` in `emailRedirectTo`, `console.error`, and the `loading` flag are not modelled; `Submission` keeps the final error and success messages only.
- Styling, and the static pages, navigation bar, footer, search bar and theme, are not modelled: they hold no logic.
- The registration page's markup is modelled only where it decides which controls exist: `RegisterForm.Rendered` states which inputs and per-day controls the page shows for a given form, including the driver time inputs shown only for an available day.
- RegisterSubmit.Submit: is stated for every form. The browser's own validation is not modelled: the `required` attributes and `type="email"` on the inputs can stop the submit event before `handleSubmit` runs, and `disabled={loading}` blocks a second submit while one is in flight.
- RegisterForm.ApplyFieldChange: a non-role field name the current variant lacks leaves the form unchanged. In the TypeScript, the object spread would add a stray key, but no control the page renders emits such a name.
- RegisterForm.EditOpen: requires the day to be in the opening-hours map. For a missing day, the page's handler would build an entry with only `open`. Every reachable restaurant form has all seven days (`FormRun`), so this case never occurs.
- RegisterForm.EditClose: requires the day to be in the opening-hours map, for the same reason as `EditOpen`.
- RegisterForm.EditAvailable: requires the day to be in the availability map. For a missing day, the page's handler would build an entry with only `available`. Every reachable driver form has all seven days.
- RegisterForm.EditStart: requires the day to be present with a non-empty hours list. For a missing day, the page's handler throws; for an empty list, it builds a partial range. Every reachable driver day has exactly one range.
- RegisterForm.EditEnd: same requirement and reason as `EditStart`.
