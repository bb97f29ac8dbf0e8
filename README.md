# Recruitment platform client: verified model of its client-side rules

This project models the client-side rules of a recruitment web client. In it,
job applicants and HR managers sign in, and each sees a dashboard fed by a remote
service. Almost everything in the client is presentation. The model covers the
parts that have behaviour worth stating:

- **Session store and role dispatch** (`src/app/page.tsx`, module `Page`).
  The session holds at most one (user, access token) pair. It mirrors the
  pair into the browser's key-value store under `"user"` and `"accessToken"`.
  The page restores the pair at startup, writes both keys on login and removes
  both on logout. It renders a loading screen, the auth page, or the dashboard
  for the user's role. The stored text form of the user is in module
  `UserJson`, with a proved round trip.
- **Registration** (`src/app/components/AuthPage.tsx`, module `AuthPage`).
  Two checks run before any request is sent: the confirmation must match
  (checked first), and then the password must be at least 6 characters. The
  model then covers the register request and the automatic sign-in, and the
  live "passwords match" indicator.
- **Applicant dashboard** (`src/app/components/ApplicantDashboard.tsx`,
  module `ApplicantDashboard`). It has the per-status tally over the five
  literals `applied`, `under_review`, `shortlisted`, `rejected` and `hired`.
  A load replaces its list only when the reply carries `success`.
- **HR dashboard** (`src/app/components/HRDashboard.tsx`, module
  `HRDashboard`). It covers the `|| 0` defaults on the header cards and the
  truncation of skill badges to 8 with a "+N more" badge. It also covers the
  `selectedJob || jobs[0]` fallback, the success-gated loads, and deletion.
  Deletion never edits the local list; it only reloads when the server
  confirms.

Each request to the service is an input value, `Fetch<T>`: either
`Success(payload)` (a body whose `success` flag is set) or `Failure` (a thrown
network or decoding error, or a body without `success`). Input that the
browser supplies (the confirmation dialog, the DELETE response's `ok`) is a
`bool` parameter. Objects whose state hooks the source updates step by step
are classes (`Page.Session`, `AuthPage.RegisterForm`,
`ApplicantDashboard.Dashboard`, `HRDashboard.Dashboard`). Their methods state
the whole new state. The pure rules are functions, and lemmas relate them.

JavaScript truthiness is modelled where the source relies on it. The restore
effect tests `savedUser && savedToken`, and the auth gate tests `!accessToken`,
so an empty string counts as absent. `user_metadata?.role || 'applicant'`
treats an empty role as missing. As a result, logging in with an empty token
is not restored after a reload (`Page.LoginThenRestore`).

The client files implement no status-transition rules, no ranking order and
no analytics computation. A failed load keeps the previous list (initially
empty) and only logs the error, and the model does the same.

## Model

| member | source | states |
|---|---|---|
| `UserJson.ParseSerialize` | src/app/page.tsx:28-48 | parsing the text that login stores for a user gives back exactly that user |
| `Page.Restored` | src/app/page.tsx:26-42 | restore always ends loading. It can only drop the `"user"` key, and only when that key's text fails to parse. The session pair changes only to the parsed stored user and the stored token, and only when that token is non-empty |
| `Page.RestoreNeedsBothKeys` | src/app/page.tsx:28-31 | unless both keys are present and non-empty, restore changes nothing but the loading flag |
| `Page.RestoreWithOneKeyStaysLoggedOut` | src/app/page.tsx:28-31 | a fresh page whose store holds only one of the two keys shows the auth page after restore |
| `Page.RestoreDiscardsCorruptUser` | src/app/page.tsx:32-38 | a stored user that fails to parse leaves the session pair as it was. Only `"user"` is removed; `"accessToken"` and every other key stay |
| `Page.LoggedIn` | src/app/page.tsx:44-49 | login holds exactly the new user and token. The store maps `"user"` to the serialized user and `"accessToken"` to the token, and every other key is unchanged |
| `Page.LoginReplaces` | src/app/page.tsx:44-49 | a second login leaves the same state as if only it had happened |
| `Page.LoginThenRestore` | src/app/page.tsx:28-48 | after login, a fresh page restores the same user and token exactly when the token is non-empty, and then shows that user's dashboard |
| `Page.LoggedOut` | src/app/page.tsx:51-56 | logout empties both slots and removes both keys; every other key is unchanged |
| `Page.LogoutIdempotent` | src/app/page.tsx:51-56 | logging out twice gives the same state as logging out once |
| `Page.LogoutThenRestore` | src/app/page.tsx:26-56 | after logout, a restore on a fresh page finds no session and shows the auth page |
| `Page.RoleOf` | src/app/page.tsx:80-87 | the HR dashboard is chosen exactly when the role is `"hr"`; a missing, empty or other role selects the applicant dashboard |
| `Page.ScreenOf` | src/app/page.tsx:58-88 | the loading screen shows exactly while loading. The auth page shows exactly when the user is absent or the token is absent or empty. Otherwise the dashboard of the user's role shows |
| `Page.DispatchDefaultsToApplicant` | src/app/page.tsx:80-88 | with a session present, role `"hr"` shows the HR dashboard and any other role the applicant dashboard |
| `Page.Session.constructor` | src/app/page.tsx:22-24 | the page starts with no user, no token and loading set |
| `Page.Session.Restore` | src/app/page.tsx:26-42 | the mount effect moves the page to `Restored` of its previous state |
| `Page.Session.Login` | src/app/page.tsx:44-49 | `handleLogin` moves the page to `LoggedIn` of its previous state |
| `Page.Session.Logout` | src/app/page.tsx:51-56 | `handleLogout` moves the page to `LoggedOut` of its previous state |
| `AuthPage.RegistrationError` | src/app/components/AuthPage.tsx:71-83 | validation passes exactly when password and confirmation are equal and at least 6 long. A mismatch reports "Passwords do not match!", even when the password is also short. An equal but short password reports the length message |
| `AuthPage.MatchIndicator` | src/app/components/AuthPage.tsx:265-293 | the indicator is hidden exactly when a field is empty. It shows "match" exactly when the non-empty fields are equal |
| `AuthPage.RoleName` | src/app/components/AuthPage.tsx:93-98 | the role sent is always `"applicant"` or `"hr"`, and it is `"hr"` exactly for the HR choice |
| `AuthPage.RegisteredRoleDispatch` | src/app/page.tsx:80-87 | a user whose stored role is the one chosen at registration is dispatched to exactly that role's dashboard |
| `AuthPage.MessageOr` | src/app/components/AuthPage.tsx:120-122 | the error shown is non-empty: the error's own message when it has one, and exactly "Registration failed" when that message is empty |
| `AuthPage.RegisterForm.constructor` | src/app/components/AuthPage.tsx:28-40 | all fields start empty, the role starts as applicant, and there is no loading, error or success message |
| `AuthPage.RegisterForm.ChooseRole` | src/app/components/AuthPage.tsx:299-323 | the role buttons set the role to applicant or HR |
| `AuthPage.RegisterForm.EditPasswords` | src/app/components/AuthPage.tsx:236-262 | the two password inputs set the password and the confirmation |
| `AuthPage.RegisterForm.Register` | src/app/components/AuthPage.tsx:65-125 | a request is sent exactly when validation passes. On a validation failure the error is the validation message, the success message is cleared and nobody is signed in. Otherwise the request carries the form's email, password, name and role. A refused request shows its message. After an accepted one, "Account created" shows, and then the sign-in error or the signed-in pair. `loading` ends false on every path |
| `ApplicantDashboard.CountStatus` | src/app/components/ApplicantDashboard.tsx:88-92 | a status count is at most the number of applications, and it is positive exactly when some application has that status |
| `ApplicantDashboard.CountIsOccurrences` | src/app/components/ApplicantDashboard.tsx:88-92 | each count equals the number of occurrences of that exact status among the applications' statuses |
| `ApplicantDashboard.GetStatusStats` | src/app/components/ApplicantDashboard.tsx:85-94 | `total` is the number of applications, and each per-status count is at most `total` |
| `ApplicantDashboard.TalliedAtMostTotal` | src/app/components/ApplicantDashboard.tsx:86-92 | the five counts sum to at most `total`, with equality exactly when every status is one of the five literals |
| `ApplicantDashboard.AppendOne` | src/app/components/ApplicantDashboard.tsx:85-94 | appending an application with status `s` raises `total` and the count of `s` by one and leaves the other counts unchanged |
| `ApplicantDashboard.Dashboard.constructor` | src/app/components/ApplicantDashboard.tsx:30-32 | both lists start empty and loading is set |
| `ApplicantDashboard.Dashboard.LoadResumes` | src/app/components/ApplicantDashboard.tsx:45-63 | a `success` reply replaces the resume list wholesale; anything else keeps the prior list |
| `ApplicantDashboard.Dashboard.LoadApplications` | src/app/components/ApplicantDashboard.tsx:65-83 | a `success` reply replaces the application list wholesale; anything else keeps the prior list, and with it the status tally |
| `ApplicantDashboard.Dashboard.LoadData` | src/app/components/ApplicantDashboard.tsx:39-43 | loading is set before both loads and cleared after both have settled; each list follows its own reply |
| `HRDashboard.CardsOf` | src/app/components/HRDashboard.tsx:186-225 | each of `totalJobs`, `activeJobs`, `totalApplications` and `statusCounts.shortlisted` shows its value, or 0 when it or the whole summary is missing |
| `HRDashboard.ApplicantCountShown` | src/app/components/HRDashboard.tsx:293 | a job's applicant count shows its value, or 0 when missing |
| `HRDashboard.SkillBadges` | src/app/components/HRDashboard.tsx:306-310 | at most 8 skills are shown, and they are the first `min(8, n)` in order. The "+N more" badge appears exactly when `n > 8`, with `N = n - 8`. No skill list shows nothing |
| `HRDashboard.SkillBadgesCoverAll` | src/app/components/HRDashboard.tsx:306-310 | the shown skills followed by the hidden ones are the whole list, and shown plus N is the number of skills |
| `HRDashboard.CandidatesJob` | src/app/components/HRDashboard.tsx:367 | the candidates tab ranks the selected job if there is one, else the first job. It ranks none exactly when nothing is selected and there are no jobs |
| `HRDashboard.Dashboard.constructor` | src/app/components/HRDashboard.tsx:33-39 | no jobs, no analytics, loading set, form closed, nothing edited or selected, overview tab |
| `HRDashboard.Dashboard.LoadJobs` | src/app/components/HRDashboard.tsx:51-69 | a `success` reply replaces the job list wholesale; anything else keeps the prior list |
| `HRDashboard.Dashboard.LoadAnalytics` | src/app/components/HRDashboard.tsx:71-89 | a `success` reply replaces the summary; anything else keeps the prior one |
| `HRDashboard.Dashboard.LoadData` | src/app/components/HRDashboard.tsx:45-49 | loading is set before both loads and cleared after both have settled; jobs and analytics each follow their own reply |
| `HRDashboard.Dashboard.DeleteJob` | src/app/components/HRDashboard.tsx:91-111 | a DELETE is sent exactly when confirmed. The local list is never edited: it is kept, or replaced by the server's list on reload. It reloads only when the response is `ok`; otherwise jobs, analytics and loading are unchanged |
| `HRDashboard.Dashboard.JobCreated` | src/app/components/HRDashboard.tsx:113-117 | the form closes, the edited job is cleared, and jobs and analytics are reloaded |
| `HRDashboard.Dashboard.OpenJobForm` | src/app/components/HRDashboard.tsx:248 | the create button opens the job form |
| `HRDashboard.Dashboard.EditJob` | src/app/components/HRDashboard.tsx:327-330 | the edit button opens the form on that job |
| `HRDashboard.Dashboard.CloseJobForm` | src/app/components/HRDashboard.tsx:258-261 | closing the form hides it and clears the edited job |
| `HRDashboard.Dashboard.ViewCandidates` | src/app/components/HRDashboard.tsx:119-122 | the selected job becomes that job and the candidates tab opens, so the candidates view ranks that job |

## Left out

- Page.Restored: `JSON.parse` is modelled by a fixed text form. Stored text is a JSON array `["id","email","role"]` (with `null` for absent fields), or the literal `null`. Valid JSON of any other shape is treated like text that fails to parse, whereas the browser would accept it and set it as the user.
- The user record keeps only `id`, `email` and the metadata role. A missing `user_metadata` and a missing role are the same (`None`). The welcome name and the other user fields are display only.
- Network calls (`fetch`, the sign-in service, response decoding, the endpoint URLs and bearer headers) are input values, not modelled I/O.
- The `Promise.all` in both `loadData` functions is modelled as the two loads run one after the other; only their settled outcome is modelled.
- `console.error` logging, `confirm()` (a `bool` input), JSX, CSS classes and icons are UI.
- The sign-in form's own `handleLogin` (AuthPage.tsx:42-63) only forwards to the sign-in service, so it is not modelled. The browser's `required`/`minLength` checks on the inputs are also not modelled.
- AuthPage.RegistrationError: the length is counted in Unicode scalar values. JavaScript's `length` counts UTF-16 code units, which differs for characters outside the Basic Multilingual Plane.
- `downloadReport` (CSV download through a Blob and a DOM anchor) is browser I/O.
- The average-score card (`avgMatchScore?.toFixed(1)`) and the posted date (`toLocaleDateString`) need floating point and locale formatting.
- A `success` reply whose payload field is missing would set the list to `undefined`. The model's `Success` always carries a payload.
- Status-transition rules, the candidate ranking order and the server-side analytics computation are not implemented in these files. `CandidateRanking`, `HRAnalytics`, `JobPostingForm` and the server are not part of this model. The `onStatusUpdate` callback, which reloads analytics through `loadAnalytics`, is modelled only as that method.
- `src/app/layout.tsx` (static metadata) and `src/app/lib/utils.ts` (a class-name helper) have no behaviour to model.
