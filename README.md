# DSA tracker front end — a Dafny model of its session and auth logic

The application is a React single-page tracker. A logged-in user ticks off subtopics of study
topics. The user, a bearer token and the login modal's flags live in the root component and in
the browser's `localStorage`. An axios client attaches the token to authenticated calls. This
project models the four pieces of that front end that hold sequential, checkable logic. Each
piece is written in the form the code has.

- **Session store** (`src/App.tsx`): the `Session` class.
  - It holds the in-memory user, the modal flags and a shared `LocalStorage` object.
  - Its methods are `logout`, `updateUser` and the start-up hydration `checkUser`.
- **REST client** (`src/services/api.ts`): the `ApiClient` class.
  - It has a mutable default header map.
  - `addAuthToken` rewrites the `Authorization` entry from the stored token.
  - `signup` and `login` store a truthy token.
  - The three authenticated calls refresh the header before they send.
- **Topic card** (`src/components/Topic/Topic.tsx`):
  - the pure lookup behind each checkbox's `isChecked`, its visibility and its label;
  - `handleToggle` as an ordered sequence of effects.
- **Login/signup modal** (`src/components/LoginSignupFlow/LoginSignupFlow.tsx`):
  - the name and password rules, written as the regular expressions and length bounds they use;
  - the error-banner text rule;
  - the effect order of `handleSignup` and `handleLogin`.

Conventions:
- The backend's answers are method parameters (`Response<T>`).
- Every method that sends a request, writes or removes a storage key, sets the user, the modal
  flag, the loading flag or the error banner, or logs an error, returns those effects in order
  as a `seq<Effect>`. The tab and login-field setters (`SetSelectedTab`, `SetCredentials`)
  only assign their fields and return no trace.
- `LocalStorage` is one object that the session and the client share
  (`api.storage == session.storage`), as the browser's storage is.
- The user's stored text is concrete. `Json.Serialise` lays a `User` out the way
  `JSON.stringify` does, escapes included, for subtopic ids below 2^53 in magnitude: JavaScript
  numbers hold those exactly and `JSON.stringify` writes them in plain decimal. `Json.Parse` reads that layout back. The round trip
  `Parse(Serialise(u)) == Some(u)` is proved, not assumed.

Files:
- `types.dfy`: the records of `src/types.ts`, `Option`, and JavaScript truthiness of a stored string.
- `json.dfy`: the writer and reader of the stored user, and the round-trip proof.
- `trace.dfy`: requests and effects.
- `web_storage.dfy`: `localStorage`.
- `api.dfy`: the REST client.
- `session.dfy`: the root component's session store.
- `topic_view.dfy`: the topic card.
- `login_signup.dfy`: the login/signup modal.

## Model

| member | source | states |
|---|---|---|
| Json.Serialise | src/App.tsx:25 | the stored text of a user is a JSON object text, never empty |
| Json.ParseSerialise | src/App.tsx:25-39 | parsing the text `updateUser` stores gives back exactly the user that was stored |
| Json.SerialiseInjective | src/App.tsx:25 | two users with the same stored text are the same user |
| WebStorage.LocalStorage.SetItem | src/App.tsx:25 | `setItem` binds the key to the value and leaves every other key as it was |
| WebStorage.LocalStorage.RemoveItem | src/App.tsx:16-17 | `removeItem` drops the key and leaves every other key as it was |
| Api.WithAuth | src/services/api.ts:34-41 | the refreshed header map has `Authorization` iff the stored token is a non-empty string, then valued `Bearer <token>`; every other header is kept with its value |
| Api.WithAuthIdempotent | src/services/api.ts:34-41 | refreshing twice from the same token gives the same map as refreshing once |
| Api.WithAuthOverwrites | src/services/api.ts:34-41 | the refreshed map depends on the earlier one only outside `Authorization` |
| Api.RefreshTwiceIsRefreshOnce | src/services/api.ts:34-41 | two `addAuthToken` calls in a row on a client leave the same headers as one call, namely the refresh of the starting map by the stored token |
| Api.ApiClient.constructor | src/services/api.ts:26-31 | the client starts with only `Content-Type: application/json` |
| Api.ApiClient.AddAuthToken | src/services/api.ts:34-41 | the header map becomes its refresh by the stored token; storage is not written |
| Api.ApiClient.PostCredentials | src/services/api.ts:44-62 | posts with the headers as they stand, never refreshes them; writes `token` exactly when the answer is a success with a non-empty token, otherwise storage is unchanged |
| Api.ApiClient.Signup | src/services/api.ts:44-52 | one POST to `/auth/signup` with the payload, then the token write when the answer has a truthy token; headers unchanged |
| Api.ApiClient.Login | src/services/api.ts:54-62 | one POST to `/auth/login` with the payload, then the token write when the answer has a truthy token; headers unchanged |
| Api.ApiClient.SendAuthenticated | src/services/api.ts:64-82 | the header is refreshed from storage before the one request is sent, so the request carries the header that matches storage |
| Api.ApiClient.GetTopics | src/services/api.ts:64-68 | refresh, then one GET `/topics` |
| Api.ApiClient.MarkTopicAsComplete | src/services/api.ts:70-76 | refresh, then one POST `/completed/mark` carrying exactly the given triple |
| Api.ApiClient.GetUserData | src/services/api.ts:78-82 | refresh, then one GET `/auth/me` |
| Session.Session.constructor | src/App.tsx:11-13 | a page load starts with no user, the modal closed and the Signup tab |
| Session.Session.Logout | src/App.tsx:15-19 | removes `user` and `token`, no other key, and sets the user to null, in that order |
| Session.Session.UpdateUser | src/App.tsx:21-31 | a user is adopted and its text written under `user`, with `token` and every other key untouched; no user gives exactly logout's state and effects |
| Session.Session.SetLoginModalOpen | src/App.tsx:12 | the modal flag takes the given value |
| Session.Session.SetSelectedTab | src/App.tsx:13 | the selected tab takes the given value |
| Session.Session.CheckUser | src/App.tsx:33-45 | never writes storage. With a user in memory it is a no-op. Otherwise a non-empty stored user is parsed and adopted with no request, even when a token is stored. Failing that, a non-empty token leads to one refreshed `/auth/me` and the answer is adopted. With neither, nothing happens |
| Session.ReloadRestoresUser | src/App.tsx:21-45 | after `updateUser(u)`, a new load over the same storage restores exactly `u`, sending no request, whatever `/auth/me` would answer |
| Session.UpdateNullIsLogout | src/App.tsx:15-31 | `updateUser(null)` and `logout()` from the same state reach the same user, storage and effects, with both keys gone |
| Session.EmptyLoadStaysEmpty | src/App.tsx:33-45 | a load with nothing stored sends nothing and leaves the user null |
| TopicView.FindCompletion | src/components/Topic/Topic.tsx:34-36 | `find` gives nothing iff no entry is for the topic, otherwise an entry for the topic from the list |
| TopicView.FindReturnsFirst | src/components/Topic/Topic.tsx:34-36 | the first entry for the topic is the one found |
| TopicView.FoundIsFirst | src/components/Topic/Topic.tsx:34-36 | whatever is found is the first entry for the topic |
| TopicView.IsCheckedIff | src/components/Topic/Topic.tsx:34-39 | a subtopic is checked iff a user is present and their first entry for the topic lists it; hence unchecked with no user or no entry |
| TopicView.LaterEntriesIgnored | src/components/Topic/Topic.tsx:34-39 | entries after the first for a topic never change its checkboxes |
| TopicView.Label | src/components/Topic/Topic.tsx:55-58 | `Mark Complete` iff unchecked, `Mark Incomplete` iff checked |
| TopicView.CheckboxFor | src/components/Topic/Topic.tsx:47-58 | a checkbox is rendered iff a user is present; its state is `isChecked`, its title the label of that state, and a click passes the opposite state |
| TopicView.RefetchAfterMark | src/components/Topic/Topic.tsx:14-18 | the timer callback sends the refreshed `/auth/me`; on an answer it commits the user with `updateUser` and only then lowers loading; on a failure it commits nothing and leaves loading raised |
| TopicView.HandleToggle | src/components/Topic/Topic.tsx:9-24 | without `setIsLoading` only a console error. With it: loading on, then the mark request with exactly the given triple. A failed mark is logged and nothing is committed, with loading left on. After a successful mark: the refreshed `/auth/me`, then `updateUser` of the answer, and only then loading off. A failed re-fetch commits nothing and leaves loading on |
| TopicView.ToggleUnderAppProvider | src/components/Topic/Topic.tsx:7-21 | under the root component's provider a click sends no request, logs one error and leaves the user as it was |
| TopicView.ToggleWithLoadingSetter | src/components/Topic/Topic.tsx:9-18 | with the setter provided, ticking an unchecked box for a logged-in user gives the full six-step trace: both requests carry the user's bearer token, completion is requested, and the re-fetched user is adopted and stored so that it parses back |
| LoginSignup.NameAcceptedIff | src/components/LoginSignupFlow/LoginSignupFlow.tsx:12-14 | a name passes iff it is non-empty and every character is an ASCII letter or JavaScript white space; in particular a non-empty name of blanks passes and any name holding a digit fails |
| LoginSignup.Utf16LengthOfBmp | src/components/LoginSignupFlow/LoginSignupFlow.tsx:19-20 | for text without astral characters the JavaScript length counted by `min`/`max` is the character count |
| LoginSignup.LookaheadWithoutTerminators | src/components/LoginSignupFlow/LoginSignupFlow.tsx:22 | over the password alphabet each `(?=.*[K])` lookahead holds iff some character is of kind K |
| LoginSignup.PasswordAcceptedIff | src/components/LoginSignupFlow/LoginSignupFlow.tsx:18-25 | a password passes iff it has 5 to 16 characters, all letters, digits or `@$!%*?&`, with at least one letter, one digit and one special character |
| LoginSignup.FailureMessage | src/components/LoginSignupFlow/LoginSignupFlow.tsx:50-56 | the banner shows the response's `error` iff it is a non-empty string, otherwise the call site's fallback |
| LoginSignup.AuthModal.constructor | src/components/LoginSignupFlow/LoginSignupFlow.tsx:29-31 | the modal starts with empty email and password and no error |
| LoginSignup.AuthModal.SetCredentials | src/components/LoginSignupFlow/LoginSignupFlow.tsx:135-157 | the login form's fields take the typed values |
| LoginSignup.AuthModal.Finish | src/components/LoginSignupFlow/LoginSignupFlow.tsx:43-59 | after the auth call: on its failure only the banner and a console error. Otherwise the refreshed `/auth/me`, then `updateUser` and the modal closed, with the banner left as it was. A failed fetch sets the banner instead and commits nothing |
| LoginSignup.AuthModal.HandleSignup | src/components/LoginSignupFlow/LoginSignupFlow.tsx:41-62 | signup request, token write, `/auth/me`, `updateUser`, modal closed, in that order. Any failure sets the shared error to the signup fallback rule, leaves the user and the modal as they were, and keeps a token already stored |
| LoginSignup.AuthModal.HandleLogin | src/components/LoginSignupFlow/LoginSignupFlow.tsx:78-97 | the same order with the login request built from the form's email and password, and the login fallback |
| LoginSignup.AuthModal.SubmitSignup | src/components/LoginSignupFlow/LoginSignupFlow.tsx:41-72 | an invalid form sends nothing and changes nothing; a valid one runs the whole of `handleSignup`, with the same trace, user, modal, storage, headers and banner in every outcome as `HandleSignup` |
| LoginSignup.SignupFromScratch | src/components/LoginSignupFlow/LoginSignupFlow.tsx:41-62 | a successful signup from an empty session stores the token before `/auth/me`, which therefore carries it as a bearer token; the user is adopted and the modal closes |
| LoginSignup.LoginRejected | src/components/LoginSignupFlow/LoginSignupFlow.tsx:78-97 | a rejected login shows the server's message when it is a non-empty string, otherwise the login fallback, after the one login request; the user is unchanged and the modal stays open |

## Left out

- The 500 ms `setTimeout` in `handleToggle`, overlapping toggles and React's asynchronous state updates. Each handler is one sequential trace run to its end.
- `checkUser`'s re-run whenever `user` changes (the `useEffect` dependency). `CheckUser` models one run.
- Unhandled promise rejections, as when `JSON.parse` throws in `checkUser`, a `/auth/me` fails there, or the re-fetch inside the toggle timer fails. They are modelled as "nothing further happens"; the browser's report of them is not an effect here.
- Session.Session.CheckUser: `JSON.parse` accepts any JSON text (other whitespace, key orders, extra fields, non-integer numbers, values that are not users). The model adopts only texts in the layout `Serialise` writes and adopts nothing otherwise. Texts written by `updateUser` are all in that layout.
- Subtopic ids are JavaScript numbers (doubles). The model takes them as unbounded integers
  written in plain decimal. It does not capture fractional ids, ids from 10^21 up (which
  `JSON.stringify` writes in exponent notation), or ids from 2^53 up that are distinct here but
  collapse to the same double in the app, which changes what `includes` finds in `isChecked`.
- Yup's `.email()` format check is a library internal. It is an input (`emailFormatOk`) to `SignupFormValid`.
- Formik's error collection and touched-field display are not modelled.
- The browser's `required` check on the login inputs is not modelled: `HandleLogin` is run with whatever the fields hold.
- JSX rendering, styling, the password visibility toggle, the tab buttons' classes and the Modal, Button, Header, Loading and HomePage components are rendering only.
- The axios transport, the base URL and real network behaviour: each answer is a `Response` parameter.
- `src/contexts/UserContext.ts` is not part of this model. Its default value is stubs, and the app always renders inside the root component's provider.
- The `isLoading` flag lives only in the toggle trace (`LoadingSet` effects), not as session state.
- `getTopics` is modelled as the request it sends; the page that renders its answer is not.

## Findings

| source | as written | input that shows it | evidently intended | confidence | as-written member | corrected member |
|---|---|---|---|---|---|---|
| src/components/Topic/Topic.tsx:12 | the card calls `setIsLoading(true)` from the context, but the root component's provider value (src/App.tsx:53-61) has no `setIsLoading`, so the call throws a TypeError that the catch block only logs | any click on a subtopic checkbox while logged in | loading is raised, the mark request is sent, and the re-fetched user is committed | high, not executed | TopicView.ToggleUnderAppProvider | TopicView.ToggleWithLoadingSetter |
