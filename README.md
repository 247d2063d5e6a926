# Election client: a Dafny model

This project models the client logic of a small election web application.
Voters sign in, see the positions (offices) open for election with their
candidates, cast one vote per position and look at the results.
Administrators add positions and candidates and delete candidates. The
backend is a separate service reached over HTTP, and the model treats it
as given replies.

The model covers these parts:

- **Results** (`results.dfy`): the results page ranks each position's tally
  by votes, highest first, with ties kept in input order. It computes the
  total and every candidate's bar width. When the total is positive it
  shows the leader with a percentage rounded half up.
- **Ballots** (`ballot.dfy`, `vote.dfy`, `voter_panel.dfy`): the three
  voting screens.
  - The voter dashboard loads positions and candidates, infers which
    positions were already voted by probing the vote endpoint with a
    sentinel candidate id, and keeps one in-flight flag per position.
  - The standalone vote page groups candidates by position and uses one
    loading flag.
  - The older dashboard component keeps one loading flag per candidate and
    shows a message line that is green when it contains "success".
- **Error messages** (`api.dfy`): how an error payload becomes the text the
  user sees. The rules are `detail || fallback` and the "join the `msg`
  fields of a validation list" rule. Both follow JavaScript truthiness: an
  empty string is falsy and an empty array is truthy.
- **Sessions** (`auth_context.dfy`, `app.dfy`, `login_form.dfy`):
  - The token is kept in local storage, modelled as one optional string.
  - The authentication context restores a session, logs in, registers and
    logs out.
  - The application shell has its own restore and logout and holds the
    route guards.
  - The shell's login form follows the resource owner password credentials
    grant of section 4.3.2 of RFC 6749. It then sends a bearer identity
    request as in section 2.1 of RFC 6750.
- **Forms and administration lists** (`forms.dfy`, `login_page.dfy`,
  `register_page.dfy`, `admin_panel.dfy`, `candidate_management.dfy`,
  `position_management.dfy`):
  - required-field validation that stops at the first empty field;
  - the `trim` check on a new position name;
  - replacing a list by a refetch, and filtering a deleted candidate out.

How the model represents the source:

- Every awaited request is a parameter of type `Reply<T>`, either
  `Ok(payload)` or `Err(status, detail)`. A request that got no response is
  `Err(0, NoDetail)`.
- Requests sent once per position inside a loop are given as a total
  function from the position name to its reply.
- Every handler and effect that sends requests returns them in the order
  sent, so "nothing is sent" is `sent == []`. The login and register pages
  call the context instead of the backend; their handlers return whether
  they called it.
- A component whose state changes step by step is a class whose fields are
  its state variables. Each handler is a method whose contract gives the
  whole new state.
- A loop that builds a local value is a method with loop invariants, proved
  against a function that specifies it.
- Pure render decisions are functions.

## Model

| member | source | states |
|---|---|---|
| `Api.DetailOrNotBlank` | src/pages/Dashboard.jsx:86 | `detail \|\| fallback` never shows an empty text when the fallback is non-empty. It shows the fallback exactly when the detail is falsy or equals the fallback. |
| `Api.JoinLength` | src/components/AdminPanel.jsx:92-94 | The joined validation messages have the length of all messages plus one ", " between each two. |
| `Api.JoinEmpty` | src/components/AdminPanel.jsx:92-95 | The join is empty exactly for no messages or a single empty message. This is when the fallback replaces it. |
| `Api.ExtractMessage` | src/components/AdminPanel.jsx:89-102 | An array detail gives its joined messages, or the fallback when the join is empty and the page asks for it. A non-empty string detail gives itself. Anything falsy gives the fallback. With the fallback on an empty join, the result is never empty. |
| `Forms.FirstMissing` | src/pages/Register.jsx:25-39 | The first empty field in check order is reported, and every earlier field is filled. None is returned exactly when every field is filled. |
| `Forms.TrimBlank` | src/pages/PositionManagement.jsx:32 | `trim()` is empty exactly when the name is made only of ECMAScript white space. Otherwise the trimmed name starts and ends with a non-blank character. |
| `Forms.IsBlankInput` | src/pages/PositionManagement.jsx:32 | The handler's test answers true exactly when the name is empty or only white space. |
| `Results.SortByVotes` | src/pages/Results.jsx:54-56 | The ranked copy is non-increasing in votes and a permutation of the tally. It is stable: for every vote count, the entries with it keep their input order. |
| `Results.TotalOfRanking` | src/pages/Results.jsx:58-61 | The total summed over the ranked copy equals the sum of the tally's votes. |
| `Results.RoundedPercent` | src/pages/Results.jsx:117-119 | The leader's figure is 100·votes/total rounded half up, stated as integer bounds. It is 0 for a zero total and at most 100 when the votes are part of the total. |
| `Results.ShareBounds` | src/pages/Results.jsx:154-158 | A bar width lies between 0 and 100 per cent. |
| `Results.SharesSumTo100` | src/pages/Results.jsx:154-158 | With a positive total, the bar widths of a position add up to exactly 100. With a zero total, every bar is 0. |
| `Results.LeaderBeatsAll` | src/pages/Results.jsx:57 | The first ranked entry has at least as many votes as every candidate, and no more than the total. |
| `Results.PositionCard` | src/pages/Results.jsx:53-160 | An empty tally gets the "no candidates" card. Otherwise the card holds: the ranked entries; the total; each line's share; and a banner exactly when the total is positive, naming the unbeaten leader with its share and rounded percentage. |
| `Results.ResultsPage` | src/pages/Results.jsx:35-52 | "No results" exactly when the fetched object has no keys. Otherwise there is one card per position, in key order. |
| `Results.SevenThree` | src/pages/Results.jsx:54-119 | A 7-to-3 tally shows a total of 10, the leader at 70 per cent, and a 30 per cent bar for the other candidate. |
| `Ballot.ProbedVotedMembers` | src/pages/Dashboard.jsx:40-57 | A position is inferred as voted exactly when its probe was rejected with "Already voted for this position". |
| `Ballot.ProbeVotedPositions` | src/pages/Dashboard.jsx:36-57 | The probe loop sends one sentinel vote per position, in order, and returns exactly the positions whose probe was a duplicate rejection. |
| `Ballot.FetchCandidates` | src/pages/Dashboard.jsx:25-32 | There is one candidate request per position, in order. The map is returned exactly when every fetch succeeds; it is then keyed by exactly the position names, each holding its fetched list. The first failure stops the loop with no map. |
| `Ballot.LoadBallot` | src/pages/Dashboard.jsx:24-59 | The candidate map exists exactly when every fetch succeeds. The voted list exists exactly when the map does and the results fetch succeeds, and it is then the probed list. The requests sent are the candidate fetches up to the first failure; then, when all succeeded, "/results", and the probes only when "/results" succeeded. |
| `Ballot.ProbesOnlyAfterCatalogAndResults` | src/pages/Dashboard.jsx:24-57 | A sentinel vote is sent only after every candidate fetch and the "/results" fetch succeeded. Then every position is probed. |
| `Ballot.MountEffect` | src/pages/Dashboard.jsx:18-59 | "/positions" is requested first, and the rest of the load follows only when it succeeds. Map, voted list and requests are as for `Ballot.LoadBallot`. |
| `Ballot.PositionPanel` | src/pages/Dashboard.jsx:139-231 | A voted position shows the voted panel. An empty fetched list shows "no candidates". Otherwise the card lists the candidates, and its cast button is disabled exactly when nothing is selected or this position's vote is in flight. |
| `Ballot.InFlightDisablesOnlyItsPosition` | src/pages/Dashboard.jsx:228-231 | An in-flight vote disables only its own position's button. Once the vote finishes, the button is disabled only when nothing is selected. |
| `Ballot.Dashboard.constructor` | src/pages/Dashboard.jsx:10-15 | The initial state is empty lists and maps, with loading true. |
| `Ballot.Dashboard.FetchData` | src/pages/Dashboard.jsx:17-69 | Positions are published on arrival. The candidate map is published only when every fetch succeeds. The voted list is published only after the results fetch and the probes. Any failure toasts "Failed to load voting data", and loading always ends. The requests are "/positions" and then those of `Ballot.LoadBallot`. |
| `Ballot.Dashboard.Select` | src/pages/Dashboard.jsx:166-171 | Only that position's selection changes. |
| `Ballot.Dashboard.HandleVote` | src/pages/Dashboard.jsx:71-90 | The position's flag is true while the vote is pending and false afterwards, and no other flag changes. Only an accepted vote appends the position to the voted list. A rejection, including a duplicate, shows `detail \|\| "Failed to record vote"`. |
| `Vote.GroupKeysMembers` | src/pages/Vote.jsx:19-24 | The group keys are distinct. A key is present exactly when its group is non-empty. |
| `Vote.GroupCandidates` | src/pages/Vote.jsx:19-24 | The grouping loop yields the keys in first-appearance order, and each group holds exactly its candidates in fetch order. |
| `Vote.InExactlyOneGroup` | src/pages/Vote.jsx:20-22 | Every fetched candidate is in the group of its own key (its position, or "Other") and in no other group. |
| `Vote.MembersHaveKey` | src/pages/Vote.jsx:20-22 | Every member of a group has that group's key. |
| `Vote.GroupSizesSum` | src/pages/Vote.jsx:19-24 | The group sizes add up to the number of fetched candidates, so the groups partition the list. |
| `Vote.FirstPositionOfFirstCandidate` | src/pages/Vote.jsx:26-28 | The page opens the group of the first fetched candidate, or none when nothing was fetched. |
| `Vote.VoteErrorMessage` | src/pages/Vote.jsx:49-59 | On status 422 the extraction rule applies with no fallback for an empty join. On any other status the page shows `detail \|\| "Failed to submit vote"`, passing an array through. |
| `Vote.EmptyValidationList` | src/pages/Vote.jsx:51-56 | A 422 with no messages, or with one empty message, shows an empty text, and only then. A 422 with a validation list never shows the raw array. |
| `Vote.VotePage.constructor` | src/pages/Vote.jsx:7-9 | The page starts with no groups, no active group, and not loading. |
| `Vote.VotePage.FetchCandidates` | src/pages/Vote.jsx:12-35 | One request for all candidates is sent. On success the grouping is published and the first key becomes active. On failure only a toast is shown. |
| `Vote.VotePage.SelectPosition` | src/pages/Vote.jsx:77 | A tab click makes that group active and changes nothing else. |
| `Vote.VotePage.HandleVote` | src/pages/Vote.jsx:37-64 | The single loading flag is true while the vote is pending and false afterwards. The toast is the success text or the page's error message. |
| `VoterPanel.VoteErrorMessage` | src/components/Dashboard.jsx:60-73 | The extraction rule with "Failed to record vote" as the fallback: an absent or empty detail and an array whose join is empty (no messages, or one empty message) all give the fallback. The message is never empty. |
| `VoterPanel.ErrorStyleFollowsDetail` | src/components/Dashboard.jsx:60-88 | After a failed vote the message line is green exactly when the backend's detail text, or its joined validation messages, contain "success". The fallback and the load failures are red. |
| `VoterPanel.SuccessStyleFollowsAck` | src/components/Dashboard.jsx:59-88 | After an accepted vote the line is green exactly when the backend sent no `msg`, or a `msg` containing "success". |
| `VoterPanel.StyleFollowsWordingNotOutcome` | src/components/Dashboard.jsx:84-88 | The colour follows the wording, not the outcome: a rejection reading "Vote unsuccessful" is green, and an acceptance reading "Vote recorded" is red. |
| `VoterPanel.OnlyClickedCandidateDisabled` | src/components/Dashboard.jsx:126 | A pending vote disables only the clicked candidate's button; another candidate of the same position stays enabled. |
| `VoterPanel.Panel.constructor` | src/components/Dashboard.jsx:5-9 | The component starts with empty lists, no selection, no message and no flags. |
| `VoterPanel.Panel.LoadPositions` | src/components/Dashboard.jsx:11-26 | The positions are requested once. On success the positions are published and the first one is selected. On failure only the message is set. |
| `VoterPanel.Panel.RefreshCandidates` | src/components/Dashboard.jsx:28-42 | Nothing is fetched while no position is selected. Otherwise the list is replaced by the reply, or "Failed to load candidates" is shown and the list kept. |
| `VoterPanel.Panel.ChangePosition` | src/components/Dashboard.jsx:99 | Choosing a different, non-empty position sends its candidate request whatever the reply. Success replaces the list and keeps the message. Failure keeps the list and shows "Failed to load candidates". Choosing the same position sends nothing and changes neither list nor message. |
| `VoterPanel.Panel.HandleVote` | src/components/Dashboard.jsx:44-77 | The candidate's flag is true while the vote is pending and false afterwards, and no other flag changes. The message is the backend's `msg` or "Vote recorded successfully", or the extraction rule on failure. |
| `Auth.TokenStore.constructor` | src/context/AuthContext.jsx:12 | Storage starts with the given token, or with none. |
| `Auth.TokenStore.Set` | src/context/AuthContext.jsx:43 | Storage holds the given token. |
| `Auth.TokenStore.Remove` | src/context/AuthContext.jsx:74 | Storage holds no token. |
| `Auth.CredentialsFields` | src/context/AuthContext.jsx:36-40 | The context's token request carries the username and the password under their names and no other field, so it has no `grant_type`; the shell's form (`TokenLogin.PasswordGrantFields`) has one. |
| `Auth.AfterLogout` | src/context/AuthContext.jsx:73-78 | Logout clears storage, the token and the user, and keeps loading as it was. |
| `Auth.LogoutIdempotent` | src/context/AuthContext.jsx:73-78 | Logging out twice gives the same session as logging out once, and leaves no token to restore. |
| `Auth.AuthProvider.constructor` | src/context/AuthContext.jsx:10-12 | The initial token is whatever storage holds. The user is unset and loading is true. |
| `Auth.AuthProvider.Restore` | src/context/AuthContext.jsx:14-32 | With a token the identity is fetched: success sets the user, and failure performs the logout. With no token nothing is sent. Loading ends on every path. |
| `Auth.AuthProvider.Login` | src/context/AuthContext.jsx:34-57 | The result is true exactly when both requests succeed. The token is stored and published before the identity request and stays stored if only that request fails. The failure toast is the failing detail or "Login failed". |
| `Auth.AuthProvider.Register` | src/context/AuthContext.jsx:59-71 | One request is sent. The result is true exactly when it succeeds. Session state is never touched, and failure toasts the detail or "Registration failed". |
| `Auth.AuthProvider.Logout` | src/context/AuthContext.jsx:73-78 | The new session is the logout of the old one, with a toast. |
| `AppShell.Land` | src/App.jsx:53-79 | Every path lands on a page within two redirects. The admin panel is reached only by an administrator, the dashboard only by a signed-in user, and the login form only by an anonymous one. |
| `AppShell.NothingRoutedWhileLoading` | src/App.jsx:40-46 | While loading, every path shows only the spinner. |
| `AppShell.AdminRedirects` | src/App.jsx:63-74 | An anonymous visit to "/admin" goes to "/dashboard" and then to "/login". A non-administrator lands on the dashboard and an administrator on the panel. |
| `AppShell.UnguardedAndRoot` | src/App.jsx:53-79 | "/results" is shown to everyone. "/" and "/login" lead to the dashboard when a user is signed in, and to the login form otherwise. |
| `AppShell.App.constructor` | src/App.jsx:12-13 | The shell starts with no user and loading true. |
| `AppShell.App.Restore` | src/App.jsx:15-33 | A stored token is sent as the bearer of the identity request. Success sets the user; failure removes the stored token and leaves the user unset. With no token nothing is sent. Loading ends on every path. |
| `AppShell.App.HandleLogout` | src/App.jsx:35-38 | The stored token and the user are cleared whatever the state before, so a second call changes nothing. |
| `TokenLogin.PasswordGrantFields` | src/components/Login.jsx:18-25 | The token request carries exactly grant_type "password", the username, the password and empty scope, client_id and client_secret. No field is repeated. |
| `TokenLogin.LoginBox.constructor` | src/components/Login.jsx:6-9 | The form starts with no error and not loading. |
| `TokenLogin.LoginBox.HandleSubmit` | src/components/Login.jsx:12-47 | The token is stored before the identity request, and that request carries the returned token. The user is set and "/dashboard" opened exactly when both steps succeed. Otherwise the error is `detail \|\| "Invalid credentials"` and any stored token stays. Loading is true while pending and false on exit. |
| `LoginPage.Submit` | src/pages/Login.jsx:17-45 | Validation checks the username first and sets at most one required error. `login` is called exactly when both fields are filled. A thrown error puts the same message on both fields. A resolved call toasts success and opens "/". |
| `LoginPage.FailedLoginStillNavigates` | src/pages/Login.jsx:33-36 | A login that resolves with false still toasts success and opens "/". |
| `LoginPage.SubmitChecked` | src/pages/Login.jsx:33-36 | With the boolean checked, "/" is opened and success toasted exactly when both fields are filled and `login` resolved with true. |
| `LoginPage.CheckedDiffersOnlyOnRejection` | src/pages/Login.jsx:33-36 | The corrected submit differs from the written one exactly on a login that resolved with false. |
| `LoginPage.Form.constructor` | src/pages/Login.jsx:8-13 | The page starts with empty fields, no errors, and not loading. |
| `LoginPage.Form.HandleSubmit` | src/pages/Login.jsx:17-45 | The step-by-step handler leaves exactly the outcome `Submit` describes. `isLoading` is true while `login` is pending and false on every exit. |
| `RegisterPage.Submit` | src/pages/Register.jsx:19-54 | The first empty field among username, email and password gets the only error, and `register` is not called. A thrown error puts the same message on all three fields. A resolved call toasts success and opens "/login". |
| `RegisterPage.AtMostOneRequiredError` | src/pages/Register.jsx:25-39 | Validation sets at most one field error. |
| `RegisterPage.FailedRegistrationStillNavigates` | src/pages/Register.jsx:41-44 | A registration that resolves with false still toasts success and opens "/login". |
| `RegisterPage.SubmitChecked` | src/pages/Register.jsx:41-44 | With the boolean checked, "/login" is opened and success toasted exactly when every field is filled and `register` resolved with true. |
| `RegisterPage.CheckedDiffersOnlyOnRejection` | src/pages/Register.jsx:41-44 | The corrected submit differs from the written one exactly on a registration that resolved with false. |
| `RegisterPage.Form.constructor` | src/pages/Register.jsx:8-15 | The page starts with empty fields, no errors, and not loading. |
| `RegisterPage.Form.HandleSubmit` | src/pages/Register.jsx:19-54 | The step-by-step handler leaves exactly the outcome `Submit` describes. `isLoading` is true while `register` is pending and false on every exit. |
| `Admin.CandidateErrorMessage` | src/components/AdminPanel.jsx:87-102 | The extraction rule with "Failed to create candidate" as the fallback, also for an empty join. The message is never empty. |
| `Admin.EnabledSubmitPassesCheck` | src/components/AdminPanel.jsx:223-228 | An enabled submit button implies the name, position and image are all present. Any missing field disables it. |
| `Admin.MessagesClassify` | src/components/AdminPanel.jsx:113-119 | The two success texts are styled green, and "Failed to load positions" and "All fields are required" red. |
| `Admin.PositionErrorStyle` | src/components/AdminPanel.jsx:113-119 | A failed position create is green exactly when the detail is a text containing "success". An array detail is always red, because its elements are validation objects that never equal "success". |
| `Admin.CandidateErrorStyle` | src/components/AdminPanel.jsx:113-119 | A failed candidate create is green exactly when the detail text, or the joined validation messages, contain "success". |
| `Admin.ArrayDetailStyleQuirk` | src/components/AdminPanel.jsx:113-119 | The same wording is green as a string detail and red as the message of an array detail, even the message "success", because `includes` on an array of validation objects never matches a string. |
| `Admin.AdminPanel.constructor` | src/components/AdminPanel.jsx:5-12 | The panel starts with empty fields, no positions, no message, and both flags false. |
| `Admin.AdminPanel.LoadPositions` | src/components/AdminPanel.jsx:14-29 | The positions are published, and the first one becomes the candidate form's position when the list is non-empty. A failure sets "Failed to load positions". |
| `Admin.AdminPanel.HandleCreatePosition` | src/components/AdminPanel.jsx:31-57 | After a successful post the name is cleared and the list replaced by the refetch. The form's position is set only when it is empty. A failed post or refetch shows the detail or "Failed to create position". The flag is true while pending and false afterwards. |
| `Admin.AdminPanel.HandleCreateCandidate` | src/components/AdminPanel.jsx:59-106 | A missing field gives "All fields are required" and sends nothing. On success the name and image are reset, and the position is reset to the first position's name or "". A failure shows the extraction rule's message. |
| `CandidateAdmin.RemoveById` | src/pages/CandidateManagement.jsx:110-112 | The filtered list holds exactly the candidates whose id differs, and is no longer than before. |
| `CandidateAdmin.RemoveByIdConcat` | src/pages/CandidateManagement.jsx:110-112 | Filtering distributes over concatenation, so the kept candidates keep their order. |
| `CandidateAdmin.RemoveByIdAbsent` | src/pages/CandidateManagement.jsx:110-112 | A list with no candidate of that id is unchanged. |
| `CandidateAdmin.RemoveByIdIdempotent` | src/pages/CandidateManagement.jsx:110-112 | Deleting the same id twice leaves the list of the first delete. |
| `CandidateAdmin.CandidateManager.constructor` | src/pages/CandidateManagement.jsx:12-22 | The page starts with empty lists, an empty hidden form, no flags, and loading true. |
| `CandidateAdmin.CandidateManager.Load` | src/pages/CandidateManagement.jsx:24-42 | Both lists are published only when both requests succeed; otherwise "Failed to load data" is toasted. Loading ends either way. |
| `CandidateAdmin.CandidateManager.HandleInputChange` | src/pages/CandidateManagement.jsx:44-50 | Only the named field of the form changes. |
| `CandidateAdmin.CandidateManager.HandleFileChange` | src/pages/CandidateManagement.jsx:52-57 | Only the image changes. |
| `CandidateAdmin.CandidateManager.HandleSubmit` | src/pages/CandidateManagement.jsx:59-100 | A missing field toasts "Please fill all fields" and sends nothing. A success replaces the list by the refetch and empties and hides the form. A failed post keeps the form and toasts the detail or "Failed to add candidate". A failed refetch after a successful post toasts success and then that error, and keeps the form and the list. |
| `CandidateAdmin.CandidateManager.HandleDelete` | src/pages/CandidateManagement.jsx:102-119 | The id's flag is true while pending and false afterwards, and no other key differs from before. Success removes exactly that id's candidates; failure keeps the list. |
| `PositionAdmin.PositionManager.constructor` | src/pages/PositionManagement.jsx:8-11 | The page starts with no positions, an empty input, not submitting, and loading true. |
| `PositionAdmin.PositionManager.Load` | src/pages/PositionManagement.jsx:13-27 | The list is published on success, and a failure toasts "Failed to load positions". Loading ends either way. |
| `PositionAdmin.PositionManager.HandleSubmit` | src/pages/PositionManagement.jsx:29-56 | Nothing is sent exactly when the name is blank. Otherwise the untrimmed name is posted. A success replaces the list and empties the input. A failed post keeps the input and toasts the detail or "Failed to add position". A failed refetch after a successful post toasts success and then that error, and keeps the input and the list. |

## Behaviour taken from the code rather than from the intended design

- On the voter dashboard, a vote rejected as a duplicate does not mark the
  position as voted. It is shown as an error toast like any other
  rejection (`Ballot.Dashboard.HandleVote`). Only the probe loop at mount
  marks positions as voted.
- No handler refuses a second submission for the same position while one
  is in flight. The only guard is the disabled button
  (`Ballot.PositionPanel`, `Ballot.InFlightDisablesOnlyItsPosition`).
- A failed candidate fetch for one position stops the whole catalog load.
  It does not degrade that position to an empty list
  (`Ballot.FetchCandidates`).
- When the `/results` request on the voter dashboard fails, the candidate
  map has already been published. Only the voted list is skipped.

## Left out

- The HTTP transport, the shared API client (`src/services/api`, which is
  not part of this model) and the request headers it adds are left out. The
  context's identity request is therefore `GetMe(None)`.
- URL and form encoding (`encodeURIComponent`, `URLSearchParams`,
  `FormData`) are left out, as are the image upload's multipart body. Form
  fields are modelled as name/value pairs and the image as an optional file
  name.
- Toasts, navigation and rendering are returned as values: the toast shown,
  the path navigated to, and the panel a position shows. No DOM is
  modelled.
- React scheduling is left out. Each handler runs sequentially over the
  state of the render it came from. Concurrent effects and stale-closure
  races are not modelled beyond "only this key differs from the snapshot".
- After `setToken`, the authentication context re-runs its restore effect,
  which fetches the identity a second time. That re-run is not modelled.
  `Auth.AuthProvider.Login` covers only the login's own two requests.
- JavaScript objects list integer-like keys first, in ascending order. The
  model keeps the insertion order of keys. This affects the grouping on the
  vote page, its first active group, and the order of result cards.
- The fetch of the results page and its loading spinner are left out. A
  failed fetch leaves the empty object, which `Results.ResultsPage` shows as
  "no results".
- Bar widths are exact rationals, not floating-point numbers.
- An array detail on a failed position create is passed to the message
  line as it is (src/components/AdminPanel.jsx:53). Its elements are
  validation objects, and React cannot render them as `{message}`
  (src/components/AdminPanel.jsx:119), so in the application that render
  fails. The model keeps the array as `Items` and does not capture the
  failed render.
- Results.RoundedPercent: the leader's percentage is the exact ratio
  rounded half up. The browser rounds a binary floating-point product,
  which can fall just below .5: 23 of 40 votes shows 57 in the browser and
  58 here, and 29 of 200 shows 14 there and 15 here.
- An `access_token` missing from the token reply, and a stored token that
  is not a string, are not modelled. The token reply's payload is the token
  string itself.
- Route matching is exact and case-sensitive in `AppShell.Route`. The
  router also matches a path case-insensitively and with a trailing slash,
  so "/Admin" and "/admin/" reach the guarded routes in the application but
  render nothing in the model.
- Navigation bars, the static home and administration-dashboard pages, and
  the component that only lists the results object are not part of this
  model.

## Findings

| source | as written | input that shows it | evidently intended | confidence | as-written member | corrected member |
|---|---|---|---|---|---|---|
| src/pages/Login.jsx:33-36 | The boolean that `login` resolves with is ignored. The context's `login` never throws (src/context/AuthContext.jsx:52-56), so the `catch` is unreachable for a rejected login, and the page toasts "Logged in successfully" and opens "/". | Both fields filled; the token request fails, so `login` resolves with false | Toast success and navigate only when `login` resolves with true | not executed | `LoginPage.FailedLoginStillNavigates` | `LoginPage.SubmitChecked` |
| src/pages/Register.jsx:41-44 | The boolean that `register` resolves with is ignored. The context's `register` never throws (src/context/AuthContext.jsx:66-70), so a rejected registration toasts "Registration successful. Please login." and opens "/login". | All three fields filled; the register request fails, so `register` resolves with false | Toast success and navigate only when `register` resolves with true | not executed | `RegisterPage.FailedRegistrationStillNavigates` | `RegisterPage.SubmitChecked` |

The page classes (`LoginPage.Form`, `RegisterPage.Form`) model the handlers
as written. `LoginPage.CheckedDiffersOnlyOnRejection` and
`RegisterPage.CheckedDiffersOnlyOnRejection` show that the corrected
outcome differs from the written one only on a call that resolved with
false.
