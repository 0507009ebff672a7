# Tutoring feedback client: session, gateway and feedback join

A Dafny model of the logic inside the single-page client of a tutoring-management
backend (`script.js`). The client signs a teacher in, lists and edits students,
and shows the feedback recorded for each class session. Almost all of the file
is DOM and `fetch` glue. The model takes the three pieces that have behaviour of
their own:

- **Session and navigation** (`session.dfy`, module `Session`). The `state`
  object is the class `AppState`. Its fields are the token, the current page,
  the selected student's id and name, and the cached grade and student lists.
  A `persistedToken` field stands for the `token` entry of `localStorage`. There
  is one method per transition: page load, `initialize`, `navigate`/`render`,
  login, logout, "manage feedback", "back", and the list loading of the student
  and feedback pages. `Valid()` is the invariant every handler keeps: the stored
  token is the session token; the feedback page implies a selected student; no
  token implies the `auth` page. `Settled()` adds the converse: after
  `initialize`, the page is `auth` exactly when there is no token. Every
  handler keeps it. `Navigate` is unguarded, as `navigate` is in the code: it
  keeps the invariants only when the requested page agrees with the token and
  the selection, and its callers make sure that it does.
- **API gateway** (`gateway.dfy`, module `Gateway`). `ApiClient._request` is
  split into pure functions. `BuildRequest` chooses headers and body.
  `Classify` maps an abstract exchange to a tagged `Outcome`: `Body`,
  `NoContent` or `Failed`. `Resolve` and `ErrorToast` give what the caller
  receives and which error notice is shown. They make explicit that a 204 and a
  failure both reach the caller as `null`. `RequestAsWritten` states how the
  code as written settles its promise, and `Settle` states how the corrected
  gateway settles it (see Findings). The readers a server would apply,
  `BearerToken` and `ReadBody`, are the inverses against which the request
  shape is proved.
- **Feedback-to-class-date join** (`feedback_join.dfy`, module `FeedbackJoin`).
  A nested loop builds the dictionary from feedback id to class date. Each
  feedback card is then given its date, falling back to `날짜 정보 없음`.
  `grade_select.dfy` (module `GradeSelect`) models `populateGradeSelect`.
  `records.dfy` (module `Records`) holds the backend's records and the two
  JavaScript coercions used throughout. These are truthiness of a nullable
  string, and `reply || []`.

`Session.SessionWalkthrough` is a client of these contracts: page load, login with token `t1`, choosing a student, logout and a reload that lands on sign-in, each step asserted from the methods' postconditions alone.

Inputs the browser supplies are parameters. These are the stored token at page
load, the values the gateway resolves to, the ids and names read from buttons,
and the abstract HTTP responses.

Three behaviours of the code worth knowing:

- Logout clears the token only. The selection fields keep their values.
- The grade list is fetched only while the cache is empty, not on every visit
  to the student page.
- Handlers do not await the refresh they start after a mutation.

## Model

| member | source | states |
|---|---|---|
| Gateway.BuildRequest | script.js:18-32 | Authorization header present iff the token is truthy, and then it is `Bearer ` + token; Content-Type present iff a body is given and not form data, and then it is `application/json`; no other header; a body is attached iff one is given, URL-encoded iff `isFormData` |
| Gateway.BearerRoundTrip | script.js:19-21 | a server reading the Authorization header recovers exactly the session token when it is truthy, and none otherwise |
| Gateway.BodyRoundTrip | script.js:25-31 | every body reaches the server under a Content-Type that decodes it (form data for form bodies, JSON otherwise) and decodes back to the given body; no body, no Content-Type |
| Gateway.ErrorText | script.js:37-38 | the error message is the body's `detail`; the status text when the body does not decode; the default text when that is empty; never empty |
| Gateway.Classify | script.js:34-47 | a thrown error or a non-ok response fails with its message; status 204 is no content; any other ok response gives its decoded body, and an undecodable one fails with the parse error (see Findings) |
| Gateway.NullCollapse | script.js:36-47 | the caller receives null exactly for no-content and failure; a reported error always comes with null; null without a notice means exactly status 204 |
| Gateway.NullIsAmbiguous | script.js:40-47 | a 204 and a 404 resolve to the same null, and only the 404 shows a notice |
| Gateway.ResponseFailureHasMessage | script.js:36-38 | every non-ok response shows an error notice with a non-empty message |
| Gateway.RequestAsWritten | script.js:34-48 | how the promise settles as written: a thrown error or a non-ok response resolves to null with a notice; 204 resolves to null without one; an ok, non-204 body that decodes resolves to that body without a notice; one that does not decode rejects with the parse error, and only that case rejects |
| Gateway.Settle | script.js:34-48 | the corrected gateway always resolves; a decoded body is the resolved value; a failure resolves to null; null only for no-content or failure; a notice exactly on failure |
| Gateway.AsWrittenAgreesElsewhere | script.js:34-48 | the code as written settles like the corrected gateway on every exchange except an ok, non-204 response whose body does not decode |
| Gateway.UndecodableSuccessEscapes | script.js:43 | a 200 with an empty body, as written, rejects the promise without a notice; corrected, it shows the parse error and resolves to null |
| Gateway.DeleteFailureAnnouncedAsWritten | script.js:338-342 | the delete handler's `response === null` test, as written, announces success for a 404 that also showed an error notice |
| Gateway.DeleteConfirmedIffNoContent | script.js:338-342 | the corrected test announces a deletion exactly when the server answered 204, never together with an error notice |
| FeedbackJoin.DateMapKeys | script.js:189-195 | the dictionary has a key exactly for the feedback ids carried by some class |
| FeedbackJoin.DateMapLastWins | script.js:191-193 | the entry for an id is the date of the last class carrying it: later classes overwrite earlier ones |
| FeedbackJoin.UnmatchedIsUnknown | script.js:199 | a feedback id no class carries gets the unknown-date marker |
| FeedbackJoin.MatchedShowsLastDate | script.js:192-199 | a feedback whose last carrying class has a non-empty date is shown with that date |
| FeedbackJoin.ClassesOfStudents | script.js:189-190 | the loop visits exactly the classes of the fetched students |
| FeedbackJoin.NoStudentCarriesIt | script.js:186-199 | a feedback that no class of any fetched student carries is shown as of unknown date (a null student reply included) |
| FeedbackJoin.BuildDateMap | script.js:187-196 | the nested loop builds exactly the dictionary of visiting all classes in order |
| FeedbackJoin.RenderFeedbackCards | script.js:176-218 | a null feedback reply is an empty list; students are fetched iff the list is non-empty; one card per feedback in order, with the joined date and comment placeholders |
| GradeSelect.PopulateGradeSelect | script.js:222-233 | one option per grade, in order, with its id and name, selected exactly when its id equals the selected id |
| GradeSelect.ListsGradesUnique | script.js:222-233 | the options are determined by the grades and the selected id |
| GradeSelect.SelectionRule | script.js:222-230 | with no selected id nothing is selected; with distinct grade ids at most one option is |
| Session.AppState.constructor | script.js:3-10 | the token is read from storage, the page is `auth`, nothing is selected, both lists are empty |
| Session.AppState.Render | script.js:105-123 | without a truthy token the page becomes `auth`; with one it is unchanged; the view follows token and page |
| Session.AppState.Navigate | script.js:100-103 | the page becomes the requested one when a token is present, else `auth`; the invariant is kept when the feedback page is requested only with a selection, and a valid result is settled when `auth` is requested exactly without a token |
| Session.AppState.Initialize | script.js:415-421 | the page is `students` iff a truthy token was stored, else `auth`; afterwards `auth` iff no token |
| Session.AppState.Login | script.js:271-284 | an accepted reply sets the token and the stored token to its access token and opens `students`; otherwise token, stored token and page are unchanged and the failure notice is shown; the invariants are kept |
| Session.AppState.Logout | script.js:302-307 | token and stored token are cleared, the page is `auth`, the selection is untouched |
| Session.AppState.SelectStudent | script.js:327-331 | id and name are selected in the same step that opens the feedback page, so the feedback page always has a selection |
| Session.AppState.Back | script.js:366-370 | the selection is cleared and the page is `students` |
| Session.AppState.LoadStudentPage | script.js:126-169 | grades are requested iff the cache is empty; students on every call; null replies become empty lists; the new-student drop-down and one drop-down per student card are filled by the selection rule |
| Session.AppState.LoadFeedbackPage | script.js:172-199 | on the feedback page the invariant supplies the student whose feedbacks are requested; the cards are those of the join |

## Findings

| source | as written | input that shows it | evidently intended | confidence | as-written member | corrected member |
|---|---|---|---|---|---|---|
| script.js:43 | `return response.json()` inside `try` returns the pending promise without awaiting it, so a parse failure of a successful response escapes the `catch`; the request promise rejects, no notice is shown and the calling handler's `await` throws | a 200 response with an empty body | every decoding failure is reported and resolves to null, like the other failures | high; not executed | Gateway.UndecodableSuccessEscapes | Gateway.Settle |
| script.js:339 | the delete handler announces success whenever the gateway resolves to null, which it also does after a failure | a DELETE answered 404: the error notice is at once replaced by the success notice and the list is refetched | success only on status 204 | high; not executed | Gateway.DeleteFailureAnnouncedAsWritten | Gateway.DeleteConfirmedIffNoContent |

## Left out

- DOM rendering, HTML templating and the `<select>` element's own rule that at most one option stays selected: UI behaviour with nothing to verify beyond the data the model returns.
- `fetch`, the network and JSON decoding are external. A response is an abstract record: status, status text, and either the decoded value with its `detail` or a parse error. A non-ok JSON body of `null`, on which reading `detail` would throw, and non-string `detail` values are not modelled.
- URL construction from `BASE_URL` and the endpoint: a deployment detail.
- The per-endpoint wrappers (`signup`, `login`, `getGrades`, …) only pick a verb, an endpoint and a body for `BuildRequest`.
- `localStorage` is the `persistedToken` field.
- `showToast`'s timer, `showLoading`, `openTab`, the slider display, `console.error`: timer and UI effects only.
- Async interleaving is not modelled. The mutation handlers start a refresh without awaiting it, and nothing stops overlapping requests; each handler is treated as one atomic step.
- The signup, create, update and create-feedback handlers are not modelled. On a non-null reply, create, update and create-feedback show a notice and start a refresh, which is `LoadStudentPage` or `LoadFeedbackPage`; signup shows a notice, switches to the login tab and resets its form, and starts no refresh.
- Gateway.Classify and Gateway.NullCollapse: a 2xx, non-204 response whose JSON is the literal `null` resolves to `null` without a notice; the model takes every decoded value as a value of the reply type and gives `Body` for it, so that case is not distinguished.
- `parseInt` of button data and `new Date()`: ids are integers given as inputs. A `NaN` id from a malformed button is not modelled.
- Session.AppState.Render: models page normalisation and the view chosen. The fetches it starts are `LoadStudentPage` and `LoadFeedbackPage`, which a caller runs after it.
