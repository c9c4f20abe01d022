# Image-gallery web client: a Dafny model of its client-side logic

The client is a single-page front end for a personal image gallery. Users
sign up and log in with an e-mail or a phone number, and they can reset their
password. On a dashboard they bulk-upload, list, search, edit, reorder and
delete images. The server does all the real work. This project models and
proves the logic the client itself runs:

- **Session refresh** (`session.dfy`, module `Session`). The response
  interceptor of the HTTP client keeps a process-wide `isRefreshing` flag
  and a FIFO `failedQueue`. A 401 (section 15.5.2 of RFC 9110) starts one
  `POST /refresh-token`, and any other 401 that arrives meanwhile waits in
  the queue. A 403 (section 15.5.4 of RFC 9110) whose body asks for a logout
  sends the browser to `/login`. The pure classifier `Classify` decides each
  case. The class `SessionClient` handles two events: an error reaching the
  interceptor, and the refresh call settling. Refresh calls and redirects are
  recorded in `effects`. What each caller's promise settles with is returned
  as a `Settlement`.
- **Upload staging and the gallery list** (`dashboard.dfy`, module
  `Dashboard`). The class `Dashboard` holds the component state:
  `selectedFiles` and `titles`, which the upload modal keeps index-aligned,
  plus `uploads`, the edited item, the search term and the error banner.
  Its methods are the event handlers. Pure functions give the list
  operations: the size filter, title assignment, drag-reorder by
  remove-then-insert `splice`, removal by index, the upload payload,
  replace-by-id, delete-by-id and the search filter. The JavaScript array
  primitives are in `seqs.dfy` (module `Seqs`).
- **Auth state** (`auth_slice.dfy`, module `AuthSlice`). This is the
  reducer over `{user, token, loading, error}` together with the stored
  `"token"` entry. `Reduce` specifies it, and the class `AuthStore` applies
  it in place.
- **Request builders** (`image_actions.dfy`, module `ImageActions`). This
  covers the invalid-id guard, `:id` path substitution with the exact
  semantics of `String.prototype.replace`, the bulk and edit multipart
  fields, and the default error messages.
- **Form validators** (`validation.dfy`, `login.dfy`, `signup.dfy`,
  `reset_password.dfy`). These are the Yup schemas written as predicates,
  plus the login payload, the method toggle, the submit-button conditions
  and the failure-message fallbacks.

Server replies are parameters of the methods that handle them. Yup's
`.email()` test is a predicate parameter named `isEmail`.

`titles` never holds a hole. Every handler keeps `selectedFiles` at most one
entry longer than `titles` (the predicate `NoTitleGap`, which the
constructor establishes and each method's contract preserves), so
`newTitles[index] = …` writes at most one past the end (`HandleTitleChange`
states this). The only `undefined` that
can enter `titles` is the one `splice` inserts when a file is dragged from a
position past the end of `titles`. The model writes it as `""`. The upload
payload reads it through `titles[i] || …`, which treats both alike. The
remove button's `filter` keeps an explicit `undefined` in its place, just as
it keeps `""`.

The bulk-upload and edit handlers are asynchronous closures. When the reply
arrives they build the new gallery from the `uploads` of the render they were
created in, not from the current list (src/components/Dashboard.tsx:114,
207-211). `StartBulkUpload` and `StartEditUpload` return that captured list
and the matching `Finish…` methods build on it. The captured list can only
differ from the current one if `uploads` changes while a handler is in
flight. The `loading` flag, set by every request and cleared when it
settles, disables the Upload button (src/components/Dashboard.tsx:639), so
`StartBulkUpload` requires `!loading`. In particular no upload can start
during the fetch on mount; `UploadAfterFetch` shows the order the page
allows, which keeps the fetched uploads.

The session layer is meant to be single-flight: one refresh for any number
of simultaneous 401s, after which every waiting request is retried once, or
every one fails with the refresh's failure. The code differs from that
intent in two ways, and the model follows the code:

- Queued requests are replayed with `_retry` still unset
  (src/services/reactAPI.ts:40-44), not marked as retried. A replayed
  request that meets another 401 therefore starts a new refresh
  (`ReplayedQueuedRequestMayRefreshAgain`).
- When the refresh answers `success:false`, the code has no `return`, so
  control falls through to the final rejection. The triggering caller
  therefore receives its own original 401, with `_retry` now set
  (src/services/reactAPI.ts:61-66, 94), rather than the refresh failure.
  Queued callers get "Token refresh failed".

## Model

| member | source | states |
|---|---|---|
| Session.IsAuthEndpoint | src/services/reactAPI.ts:33-35 | a URL is an authentication endpoint iff `/login`, `/signup` or `/refresh-token` occurs at some position of it, not only as its path |
| Session.Eligible | src/services/reactAPI.ts:33-37 | a failure may be recovered by a refresh iff it is a 401 on a request not yet retried whose URL holds none of the three paths at any position |
| Session.SettleEntry | src/services/reactAPI.ts:13-20 | a queued entry is replayed, with its request exactly as queued, iff there is no failure; otherwise it is rejected with that failure |
| Session.Classify | src/services/reactAPI.ts:33-38 | an error is queued iff it is an eligible 401 (status 401, `_retry` unset, URL not containing `/login`, `/signup` or `/refresh-token`) and a refresh is in flight; it starts a refresh iff eligible and none is in flight; otherwise it is a forced logout iff 403 with the logout flag, else it is passed through |
| Session.TailEffects | src/services/reactAPI.ts:76-94 | the non-refresh tail redirects to `/login` exactly for a 403 with a truthy `logout`, and does nothing else |
| Session.QueueFailure | src/services/reactAPI.ts:56-71 | the queue is resolved only on refresh success; it is rejected with "Token refresh failed" on `success:false` and with the thrown error on a throw |
| Session.SettleQueue | src/services/reactAPI.ts:13-20 | every queued entry is settled exactly once, in insertion order; either all are replayed, each with its own request, or all are rejected with the same failure |
| Session.SessionClient.constructor | src/services/reactAPI.ts:10-11 | the process starts with no refresh in flight and an empty queue |
| Session.SessionClient.HandleError | src/services/reactAPI.ts:29-94 | an eligible 401 during a refresh appends exactly its request to the end of the queue and issues no refresh; with none in flight it sets `_retry`, sets the flag and issues exactly one `POST /refresh-token`; any other error is rejected unchanged, with a redirect only for a forced logout; the queue is non-empty only while a refresh is in flight |
| Session.SessionClient.ProcessQueue | src/services/reactAPI.ts:13-23 | every entry is settled in order and the queue is left empty |
| Session.SessionClient.CompleteRefresh | src/services/reactAPI.ts:52-73 | after any outcome the flag is false and the queue empty; on success the trigger is replayed (with `_retry` set); on `success:false` it is rejected with its own 401 after a redirect; on a throw it is rejected with the thrown error after a redirect |
| Session.AuthEndpointPassesThrough | src/services/reactAPI.ts:33-37 | a 401 on an authentication endpoint is never queued and never starts a refresh, whatever the state |
| Session.RetriedPassesThrough | src/services/reactAPI.ts:37 | a 401 on a request already marked `_retry` is passed through |
| Session.ForbiddenRedirectsOnlyOnLogout | src/services/reactAPI.ts:81-88 | a 403 redirects iff its body has a truthy `logout`, and is rejected unchanged either way |
| Session.RefreshCallNeverQueued | src/services/reactAPI.ts:54 | the refresh call's own failure is never queued behind the refresh in flight, so the refresh cannot wait on itself |
| Session.ReplayedQueuedRequestMayRefreshAgain | src/services/reactAPI.ts:40-44 | a queued request is replayed with `_retry` unset, so a second 401 on it starts a new refresh |
| Session.SimultaneousExpiry | src/services/reactAPI.ts:38-72 | N requests that all meet a 401 with no refresh in flight cause exactly one refresh call, and N-1 of them are queued in arrival order; then all N settle according to the refresh outcome, with one redirect on failure from the refresh's own `catch`; the refresh call's own error reaching the interceptor is a separate event outside the scenario |
| Seqs.Filter | src/components/Dashboard.tsx:146 | `filter` keeps exactly the elements that satisfy the test, drops nothing else, never adds or duplicates, and keeps the length iff every element passes |
| Seqs.RemoveAt | src/components/Dashboard.tsx:602-607 | filtering out index k drops that one element and shifts the later ones down; an index past the end changes nothing |
| Seqs.InsertAt | src/components/Dashboard.tsx:184-185 | `splice(k, 0, x)` puts x at k, or at the end when k is past it, and keeps every other element in order |
| Seqs.Reorder | src/components/Dashboard.tsx:180-185 | the dragged element lands at the destination, clamped to the last position; dragging from past the end inserts the hole value instead and grows the array by one |
| Seqs.FilterAppend | src/components/Dashboard.tsx:146 | `filter` keeps the kept elements in their original order, because it distributes over concatenation |
| Seqs.ReorderIsPermutation | src/components/Dashboard.tsx:180-185 | remove-then-insert `splice` of an existing element keeps the length and the multiset of elements |
| Seqs.ReorderAt | src/components/Dashboard.tsx:180-185 | each position after the move holds the element from a computed source position |
| Seqs.ReorderKeepsAlignment | src/components/Dashboard.tsx:180-185 | moving two aligned arrays the same way is the same as moving their pairs |
| Dashboard.Dashboard.constructor | src/components/Dashboard.tsx:51-57 | the page starts with an empty gallery, nothing staged, no selection, an empty search term and no error, so `NoTitleGap` holds from the start |
| Dashboard.AcceptedFiles | src/components/Dashboard.tsx:146 | the accepted files are exactly the selected files of at most 10·1024·1024 bytes, and none is dropped iff every file is within the limit |
| Dashboard.Dashboard.HandleFileSelect | src/components/Dashboard.tsx:137-153 | more than 10 files leaves both staging arrays unchanged and reports an error; otherwise the accepted files are staged with as many empty titles, and the size warning is set iff some file was dropped |
| Dashboard.Dashboard.HandleEditFileSelect | src/components/Dashboard.tsx:156-168 | an oversized edit file is refused with an error; otherwise it becomes the only staged file, and the titles stay as they were |
| Dashboard.AssignTitle | src/components/Dashboard.tsx:171-175 | only entry `index` changes and it becomes the new value; the length is unchanged when `index` is inside the array |
| Dashboard.Dashboard.HandleTitleChange | src/components/Dashboard.tsx:171-175 | the titles are updated at one index and nothing else changes; aligned arrays stay aligned when the index is a staged file's; while `selectedFiles` is at most one longer than `titles`, a staged file's title is either overwritten in place or appended, so no hole is created |
| Dashboard.Dashboard.HandleFileDragEnd | src/components/Dashboard.tsx:178-188 | a drag with no destination changes nothing; otherwise both arrays are moved source-to-destination by `splice` |
| Dashboard.DragKeepsPairs | src/components/Dashboard.tsx:178-188 | a drag keeps each array a permutation of itself with its length, and the file/title pairs stay aligned |
| Dashboard.RemoveKeepsAlignment | src/components/Dashboard.tsx:600-608 | removing index i from two aligned arrays keeps them aligned, pair by pair |
| Dashboard.Dashboard.RemoveStaged | src/components/Dashboard.tsx:600-608 | staged item i is dropped from both arrays, the rest stay in order, and the lengths stay equal |
| Dashboard.Dashboard.CancelUpload | src/components/Dashboard.tsx:628-631 | cancelling empties both staging arrays |
| Dashboard.TitleFor | src/components/Dashboard.tsx:108 | a file is titled by its title when that is non-empty, and `Image i+1` otherwise; it is never untitled |
| Dashboard.UploadData | src/components/Dashboard.tsx:107-110 | there is one upload entry per staged file, in order, each with a non-empty title |
| Dashboard.Dashboard.SetSearchTerm | src/components/Dashboard.tsx:354 | the search term becomes the typed text, the gallery shows `Search` of the uploads by it, and nothing else changes |
| Dashboard.Dashboard.SelectImage | src/components/Dashboard.tsx:403-417 | the Edit and Delete buttons select the clicked upload and change nothing else |
| Dashboard.Dashboard.EditTitle | src/components/Dashboard.tsx:686-691 | typing in the edit modal changes only the selected upload's title; its id, and so the upload the edit targets, is kept |
| Dashboard.Dashboard.CancelEdit | src/components/Dashboard.tsx:699-704 | cancelling the edit modal drops the staged file and the selection and changes nothing else |
| Dashboard.Dashboard.StartBulkUpload | src/components/Dashboard.tsx:99-113 | callable only while not loading, as the Upload button is disabled then (line 639); with no staged files it sets "No files selected" and sends nothing; otherwise it sets `loading`, sends the upload entries and changes nothing else; it returns the gallery list the handler captured |
| Dashboard.Dashboard.FinishBulkUpload | src/components/Dashboard.tsx:114-133 | on success the uploads are the list captured at the start followed by the returned ones, whatever the gallery became meanwhile, and both staging arrays are emptied; on failure only the error changes; either way `loading` is cleared |
| Dashboard.UploadAfterFetch | src/components/Dashboard.tsx:62-67 | after the fetch on mount settles, a file staged and uploaded is sent as "Image 1", and the gallery ends as the fetched uploads followed by the created ones |
| Dashboard.Dashboard.StartFetchUploads | src/components/Dashboard.tsx:64 | the fetch on mount sets `loading` and changes nothing else |
| Dashboard.Dashboard.FinishFetchUploads | src/components/Dashboard.tsx:62-86 | the fetched list replaces the gallery (an empty list when it is not an array), or the failure message is shown; either way `loading` is cleared |
| Dashboard.Dashboard.StartEditUpload | src/components/Dashboard.tsx:191-206 | with no selected image it sets an error and sends nothing; otherwise it sets `loading` and sends the image's id and title and the first staged file if any; it returns the gallery list the handler captured |
| Dashboard.ReplaceById | src/components/Dashboard.tsx:207-211 | exactly the uploads whose id equals the returned upload's id are replaced; ids, length and order are kept |
| Dashboard.ReplaceByIdIdempotent | src/components/Dashboard.tsx:207-211 | applying the same edit twice is the same as applying it once |
| Dashboard.Dashboard.FinishEditUpload | src/components/Dashboard.tsx:207-226 | on success the list captured at the start is replaced by id and becomes the gallery, and the staged file and selection are cleared; on failure only the error changes; either way `loading` is cleared |
| Dashboard.DeleteById | src/components/Dashboard.tsx:240 | exactly the uploads with the given id are removed; no other upload is lost |
| Dashboard.DeleteAfterReplace | src/components/Dashboard.tsx:240 | deleting an id after editing it gives the same list as deleting it alone |
| Dashboard.Dashboard.HandleDeleteUpload | src/components/Dashboard.tsx:236-257 | on success the uploads with the id are removed; on failure only the error changes; `loading` ends cleared |
| Dashboard.Search | src/components/Dashboard.tsx:386-389 | the result holds exactly the uploads whose lower-cased title contains the lower-cased term |
| Dashboard.Dashboard.Visible | src/components/Dashboard.tsx:386-389 | the gallery shows exactly the uploads that match the search term |
| Dashboard.EmptySearchShowsAll | src/components/Dashboard.tsx:386-389 | an empty search term shows the whole gallery, in order |
| Dashboard.SearchKeepsOrder | src/components/Dashboard.tsx:386-389 | the search keeps the gallery's order |
| Text.Decimal | src/components/Dashboard.tsx:108 | `${n}` is a non-empty run of decimal digits with no leading zero |
| Text.DecimalRoundTrip | src/components/Dashboard.tsx:108 | reading back the digits of `${n}` gives n |
| Text.IndexOf | src/redux/actions/imageActions.ts:144 | `indexOf` finds the first occurrence, and None means there is none |
| Text.Includes | src/components/Dashboard.tsx:388 | `includes` holds iff the substring occurs at some position |
| Text.Lower | src/components/Dashboard.tsx:388 | the model's `toLowerCase` keeps the length and maps each character on its own, folding the ASCII letters A-Z to a-z and leaving every other character as it is |
| AuthSlice.AuthStore.constructor | src/redux/reducers/userReducer.ts:23-28 | the initial state has no user and no token, is not loading and has no error |
| AuthSlice.Reduce | src/redux/reducers/userReducer.ts:34-80 | `logout` nulls user and token only; `clearError` nulls only the error; pending sets loading and clears the error; fulfilled clears loading and copies user and token, keeping the error; rejected clears loading and sets the message, or "Signup failed"/"Login failed" when it is absent |
| AuthSlice.StoredToken | src/redux/reducers/userReducer.ts:34-76 | the stored token is written only when a fulfilled payload's token is truthy, and is removed on logout |
| AuthSlice.AuthStore.Dispatch | src/redux/reducers/userReducer.ts:34-80 | each case reducer updates the state and the stored token as `Reduce` and `StoredToken` specify |
| AuthSlice.ClearErrorIdempotent | src/redux/reducers/userReducer.ts:39-41 | `clearError` is idempotent |
| AuthSlice.IsAuthenticated | src/routes/ProtectedRoute.tsx:9 | a route is open iff there is a user or a non-empty token |
| AuthSlice.LogoutSignsOut | src/routes/ProtectedRoute.tsx:9 | after logout the protected routes see no session |
| AuthSlice.LoadingTracksLastRequest | src/redux/reducers/userReducer.ts:45-80 | after any run of actions, `loading` is true iff the last signup/login lifecycle action was a pending one |
| ImageActions.Expand | src/redux/actions/imageActions.ts:144 | a replacement string without `$` is inserted as it is |
| ImageActions.ReplaceFirst | src/redux/actions/imageActions.ts:144 | a string-pattern `replace` leaves the text unchanged when the pattern does not occur; otherwise it keeps the text before and after the first occurrence, and a `$`-free replacement is put in its place literally |
| ImageActions.UploadPath | src/redux/actions/imageActions.ts:182 | whatever the id, the substituted path starts with "/uploads/" |
| ImageActions.PlaceholderPosition | src/services/endPoints/endPoints.ts:16 | the first `:id` in `/uploads/:id` is at position 9 |
| ImageActions.UploadPathAppendsId | src/redux/actions/imageActions.ts:144 | for an id without `$`, the edit and delete path is "/uploads/" + id |
| ImageActions.DollarAmpersandIdKeepsPlaceholder | src/redux/actions/imageActions.ts:182 | `replace` expands `$&` in the id, so such an id leaves `:id` in the path |
| ImageActions.BuildBulkForm | src/redux/actions/imageActions.ts:66-79 | there is one `images` field per upload, in input order, followed by one `titles` list with the titles in the same order, so the title count equals the image count |
| ImageActions.BulkUploadRequest | src/redux/actions/imageActions.ts:66-84 | the bulk upload is a POST to `/uploads` carrying that form |
| ImageActions.EditForm | src/redux/actions/imageActions.ts:139-141 | the edit form has `title` iff the title is non-empty, and `image` iff an image is given |
| ImageActions.EditUploadRequest | src/redux/actions/imageActions.ts:131-146 | the edit is rejected with "Invalid upload ID" and sends nothing iff the id is empty, "undefined" or "null"; otherwise it is a PUT to the substituted path with the edit form |
| ImageActions.DeleteUploadRequest | src/redux/actions/imageActions.ts:173-183 | the delete uses the same guard and message; otherwise it is a DELETE to the substituted path |
| ImageActions.GuardedRequestsTargetId | src/redux/actions/imageActions.ts:144 | a valid ordinary id is sent to "/uploads/" + id by both edit and delete |
| ImageActions.DefaultMessage | src/redux/actions/imageActions.ts:216-218 | every operation has a non-empty fixed fallback message |
| ImageActions.FailureMessage | src/redux/actions/imageActions.ts:94-96 | the failure message is the server's message when present and non-empty, and otherwise the operation's fallback |
| Validation.SomeChar | src/components/Signup.tsx:22-25 | an unanchored one-class pattern matches iff some character is in the class |
| Validation.TenDigits | src/components/Signup.tsx:17-19 | `/^\d{10}$/` holds iff the string is exactly ten ASCII digits |
| Validation.StrongPasswordIff | src/components/Signup.tsx:20-26 | a password is strong iff it has at least 8 characters and one each of A-Z, a-z, 0-9 and `!@#$%^&*` |
| Validation.StrongPasswordExamples | src/components/ResetPassword.tsx:15-21 | the strength rule can be met, and a password lacking an upper-case letter or the length fails it |
| Validation.SubmitFailureMessage | src/components/Login.tsx:170 | the status message is `err.error.message` when non-empty, else `err.message` when non-empty, else the form's fallback; Login passes "Login failed. Please try again." and Signup (src/components/Signup.tsx:103) "Signup failed. Please try again." |
| Login.FailureMessage | src/components/Login.tsx:170 | a failed login shows a non-empty message: the server's when truthy, else "Login failed. Please try again." when neither message is truthy |
| Signup.FailureMessage | src/components/Signup.tsx:103 | a failed signup shows a non-empty message: the server's when truthy, else "Signup failed. Please try again." when neither message is truthy |
| Validation.SubmitDisabled | src/components/Login.tsx:318 | the button is enabled iff not submitting, valid, dirty and not loading |
| Login.SchemaValid | src/components/Login.tsx:14-29 | the values are valid iff the password has at least 6 characters and either the method is "email" with a non-empty address passing `.email()`, or it is "phone" with ten digits; the unused identifier is not checked |
| Login.CanSubmit | src/components/Login.tsx:318 | the button is enabled iff not submitting, not loading, the values are valid and differ from the initial ones |
| Login.LoginData | src/components/Login.tsx:159-165 | the request carries the password and only the identifier of the chosen method; the other is undefined |
| Login.ChooseEmail | src/components/Login.tsx:193-195 | switching to e-mail clears the phone and keeps the rest |
| Login.ChoosePhone | src/components/Login.tsx:208-210 | switching to phone clears the e-mail and keeps the rest |
| Login.SubmittedRequestIsWellFormed | src/components/Login.tsx:14-29 | a login the button lets through has exactly one identifier, which passed its rule (a non-empty e-mail, or ten digits), and a password of at least 6 characters |
| Login.InitialFormCannotSubmit | src/components/Login.tsx:32-37 | the pristine form cannot be submitted |
| Login.ToggleDropsOtherIdentifier | src/components/Login.tsx:193-210 | after a toggle the request never carries the other identifier |
| Signup.SchemaValid | src/components/Signup.tsx:14-30 | the values are valid iff the name is non-empty, the e-mail is non-empty and passes `.email()`, the phone is ten digits, the password is strong and the confirmation equals it |
| Signup.CanSubmit | src/components/Signup.tsx:231 | the button is enabled iff not submitting, not loading, the values are valid and differ from the initial ones |
| Signup.SubmittedSignupIsWellFormed | src/components/Signup.tsx:14-30 | a signup the button lets through has a name, a non-empty e-mail, ten digits as phone, a strong password (at least 8 characters with an upper-case letter, a lower-case letter, a digit and one of `!@#$%^&*`) and a matching confirmation |
| Signup.SignupCredentialsPassLogin | src/components/Signup.tsx:20-26 | credentials the signup schema accepts pass the login schema, by e-mail and by phone |
| ResetPassword.SchemaValid | src/components/ResetPassword.tsx:13-25 | the values are valid iff the current password is non-empty, the new password is strong and the confirmation equals it |
| ResetPassword.CanSubmit | src/components/ResetPassword.tsx:190 | the button is enabled iff not loading, the values are valid and differ from the initial ones |
| ResetPassword.RequestOf | src/components/ResetPassword.tsx:47-51 | the request carries the current and the new password, and never the confirmation |
| ResetPassword.OnFailure | src/components/ResetPassword.tsx:65-70 | the message is `err.error.message`, else "Failed to reset password"; the redirect is scheduled iff the server said exactly "Invalid credentials" |
| ResetPassword.SubmittedResetIsWellFormed | src/components/ResetPassword.tsx:13-25 | a reset the button lets through sends a non-empty current password and a strong new password that matched its confirmation |

## Left out

- Network I/O. This covers axios, `createAsyncThunk` plumbing, promise chaining, credentials and headers. Server replies are method parameters. Redirects and the refresh call are recorded as `effects`, and replays are returned as `Settlement` values.
- Real interleaving of asynchronous handlers. Arrivals and the refresh settling are discrete events on one `SessionClient`.
- Dashboard.Dashboard.HandleDeleteUpload: takes the server's reply in the same step, so it filters the list at the time of the reply; the source filters the list its closure captured, which differs only if another handler changed `uploads` while the delete was in flight.
- The token that `processQueue` passes to `resolve`. It is ignored by `.then(() => …)`, so it is not modelled.
- The replay of a request is not itself sent through the model. Its next failure is a new `HandleError` event.
- Session.SimultaneousExpiry: covers the refresh call's outcome as seen by its `catch` only. The refresh call's own failure also passes through the interceptor first (as a pass-through, `RefreshCallNeverQueued`); if that failure is a 403 with `logout`, it records a second redirect before the one from the `catch`, and the scenario does not include that event.
- Dashboard.Dashboard.StartEditUpload: has no `!loading` requirement. The source gates it through the Save button (src/components/Dashboard.tsx:714) and the confirmation dialog, which is not modelled, so the model also allows an edit to start while a request is in flight.
- Rendering and UI side effects. This covers JSX, modal flags, `loading` spinners, toasts, `console` logging and the view mode.
- Object URLs (`URL.createObjectURL`, `URL.revokeObjectURL`). These are browser resource management.
- The session check and the success redirect of the login page (src/components/Login.tsx:57-122). They read `localStorage`, parse JSON and set timers.
- `handleLogout` (src/components/Dashboard.tsx:261-277). Its only state change is the `logout` reducer, which `AuthSlice.Reduce` models.
- The Dashboard's `navigate("/login")` on `err.response?.status === 401`. The rejection that `unwrap()` throws is the thunk's `{ error: { message } }` payload, which has no `response`.
- Yup's `.email()` check. Its regular expression is the library's, so the model takes it as the parameter `isEmail`.
- Formik's `isValid` and `dirty` are taken as the schema's verdict on the current values and as "the values differ from the initial ones". Formik's validation timing is not modelled.
- `JSON.stringify` of the titles is kept as the list of titles, not as text.
- The signup request. It is the form values as they are, confirmation included.
- The `rearrangeUploads` thunk. Nothing calls it in the core, so only its fallback message is modelled.
- src/redux/actions/authActions.ts, src/utils/customError.ts and the routing and provider wiring are not part of this model. The endpoint paths are constants.
- Text.Lower: folds the ASCII letters only, where `toLowerCase` folds all of Unicode (for example "É" to "é").
- Dashboard.Search: case folding covers the ASCII letters only, where `toLowerCase` folds all of Unicode.
- Dashboard.Dashboard.HandleFileDragEnd: requires the drag source to be one of the staged files, because the drag library only reports indices of rendered items.
- Validation.MinLength: counts `char`s, where Yup counts UTF-16 code units.
