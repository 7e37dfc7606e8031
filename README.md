# Membership application portal — a Dafny model

This project models how a professional syndicate's web portal handles membership applications end to end.

- **Server.** An applicant signs in and submits a multi-step application. The server stores it as a JSON record under `application:<userId>` in a key-value store, and adds its id to the advisory list `applications:pending`. An administrator lists all records, then approves one (with an expiry date and a generated membership number) or rejects it. The record is rewritten under its owner's key, and its id moves from the pending list to `applications:approved` or `applications:rejected`.
- **Two server variants.** Both are modelled over one store. `Primary` is `make-server-71a69640/index.tsx`, which validates the required fields and builds the record field by field. `Legacy` is `server/index.tsx`, which spreads the request body into the record and does not validate.
- **Clients.** The model covers the wizard that builds the request, the administrator's dashboard (filter, search, counters, approval and rejection flow), the member's status page, and the top-level view and sign-in state machine.

The modules:

- `Json`, `Kv`, `Gate`: JSON values with JavaScript truthiness, the key-value store and its prefix scan, and the bearer-token gate.
- `Records`: how records are built, looked up, sorted and updated.
- `Server`: each endpoint as a specification function that gives the response and the new store. The methods of `class Api` update `store` step by step and are proved equal to those functions. Lemmas relate the functions to one another.
- `ApplicationForm`, `AdminDashboard`, `MemberDashboard`, `AppShell`: the four client components. State the component updates in place is a class whose methods state the whole new state. Pure rules are functions with lemmas.
- `ApplicationStatus`, `Seqs`, `Wrappers`: shared statuses, sequence helpers and `Option`.

These things are inputs rather than modelled behaviour:

- The identity provider's answer is an `Identity` value.
- The store's scan order is an arbitrary enumeration (`Kv.IsScan`).
- The clock, fresh UUIDs, the browser's file reader and all network answers are parameters.

## Model

| member | source | states |
|---|---|---|
| `Gate.SecondPart` | src/supabase/functions/make-server-71a69640/index.tsx:66 | `split(' ')[1]` exists iff the header exists and contains a space; it is the space-free text that follows the first space and ends at the next space or at the end of the header |
| `Gate.BearerToken` | src/supabase/functions/make-server-71a69640/index.tsx:66-71 | a token is accepted only when that second part exists and is non-empty, since both `undefined` and `""` are refused |
| `Gate.BearerRoundTrip` | src/supabase/functions/make-server-71a69640/index.tsx:66 | a header `Bearer t`, where `t` is non-empty and has no space, yields exactly `t` |
| `Gate.NoSpaceNoToken` | src/supabase/functions/make-server-71a69640/index.tsx:66-71 | an absent header, or one without a space, carries no token |
| `Gate.Verify` | src/supabase/functions/make-server-71a69640/index.tsx:66-79 | the verdict is no-token iff there is no token, and invalid iff there is a token but the provider refuses it or gives an empty id; otherwise it is the provider's id, which is admin iff the role is exactly `"admin"` |
| `Kv.GetByPrefix` | src/supabase/functions/make-server-71a69640/index.tsx:242 | the scan returns each key that carries the prefix exactly once, with the value stored under it, and no other keys |
| `Kv.ScanValues` | src/supabase/functions/make-server-71a69640/index.tsx:242 | a value appears in a scan iff some key with the prefix stores it |
| `Json.OrTruthiness` | src/supabase/functions/make-server-71a69640/index.tsx:161 | `v or fallback` is truthy iff either side is, so a truthy default such as `[]` always yields a truthy value; applying the same default twice gives what applying it once does |
| `Json.NatText` | src/supabase/functions/make-server-71a69640/index.tsx:302 | `toString()` gives at least one digit, no leading zero, and the digits denote the number |
| `Json.SuffixMod` | src/supabase/functions/make-server-71a69640/index.tsx:302 | the last `k` digits of a digit string denote its value modulo 10^k |
| `Records.AppKey` | src/supabase/functions/make-server-71a69640/index.tsx:84 | the record key is `application:` followed by the user id, which can be read back from the key |
| `Records.OwnerKey` | src/supabase/functions/make-server-71a69640/index.tsx:313 | the key a review writes to always carries the record prefix |
| `Records.ListKeysOutsideScan` | src/supabase/functions/make-server-71a69640/index.tsx:161-163 | the three advisory list keys never carry the `application:` prefix and never equal a record key |
| `Records.MissingFieldsSpec` | src/supabase/functions/make-server-71a69640/index.tsx:105-111 | the missing fields are exactly the falsy ones among the nine required names, kept in their fixed order |
| `Records.MissingFieldsEmpty` | src/supabase/functions/make-server-71a69640/index.tsx:113-119 | no field is reported missing iff every required field is truthy, and then every required field is present |
| `Records.NewRecordShape` | src/supabase/functions/make-server-71a69640/index.tsx:122-145 | the new record has exactly the eighteen fields, and the nine required ones are the body's values, unchanged |
| `Records.NewRecordOwnerAndStatus` | src/supabase/functions/make-server-71a69640/index.tsx:124-138 | the new record carries the server's id and the caller's id, is `pending`, and is stamped with the server clock |
| `Records.NewRecordDefaults` | src/supabase/functions/make-server-71a69640/index.tsx:133-142 | a falsy `linkedin` or `files` becomes null; `reviewedAt`, `expiryDate` and `membershipNumber` start null |
| `Records.SpreadRecord` | src/supabase/functions/server/index.tsx:72-78 | the record's keys are the body's plus the four server keys; `status` and `submittedAt` are always the server's; `id` and `userId` come from the body when it has them; every other body field is kept |
| `Records.SpreadRecordIntended` | src/supabase/functions/server/index.tsx:72-78 | the corrected record keeps every body field except the four server keys, and always carries the server's `id`, the caller's `userId`, `pending` and the server clock |
| `Records.SpreadRecordsAgree` | src/supabase/functions/server/index.tsx:72-78 | the as-written and corrected records agree on every field but `id` and `userId`, and are equal when the body has neither |
| `Records.FindById` | src/supabase/functions/make-server-71a69640/index.tsx:294 | `find` returns the first record with the id, with no earlier null record; it returns not-found when no record is null and none matches; it throws when a null record comes before any match |
| `Records.MembershipNumber` | src/supabase/functions/make-server-71a69640/index.tsx:302 | the number is `EDU` followed by at most eight digits, all of them when there are fewer; the digits denote the clock modulo 10^(their count) |
| `Records.ApprovedRecord` | src/supabase/functions/make-server-71a69640/index.tsx:305-311 | the approved copy adds or overwrites exactly `status = approved`, `reviewedAt`, `expiryDate` and `membershipNumber`, and keeps every other field |
| `Records.RejectedRecord` | src/supabase/functions/make-server-71a69640/index.tsx:369-373 | the rejected copy overwrites only `status` and `reviewedAt`, so any earlier expiry date and membership number survive |
| `Records.ApprovedKeepsOwner` | src/supabase/functions/make-server-71a69640/index.tsx:305-313 | approval does not change the record's `userId` |
| `Records.RejectedKeepsOwner` | src/supabase/functions/make-server-71a69640/index.tsx:369-375 | rejection does not change the record's `userId` |
| `Records.RemoveId` | src/supabase/functions/make-server-71a69640/index.tsx:318 | the id disappears from the list, and every other entry stays, in order and with its multiplicity |
| `Records.SortNewestFirst` | src/supabase/functions/make-server-71a69640/index.tsx:247-249 | the sorted list is a permutation of the scan, ordered by `submittedAt` descending |
| `Server.AppendTo` | src/supabase/functions/make-server-71a69640/index.tsx:161-163 | when the stored list is absent or an array, the id is appended at its end; otherwise the push throws and the store is untouched; no other key changes |
| `Server.AdminDenied` | src/supabase/functions/make-server-71a69640/index.tsx:218-237 | an admin endpoint lets a request through iff it comes from an authenticated admin; otherwise the answer is 401 with no valid token, or 403 for a non-admin |
| `Server.SubmitDenied` | src/supabase/functions/make-server-71a69640/index.tsx:66-79 | a refused submit is always answered 401 |
| `Server.DuplicateResponse` | src/supabase/functions/make-server-71a69640/index.tsx:84-91 | a duplicate is answered 400 with the fixed message; the existing id is included iff the variant is Primary and the stored record has an id |
| `Server.SubmitOutcome` | src/supabase/functions/make-server-71a69640/index.tsx:64-184 | no token or an invalid one gives 401 with no write; a caller with a record gives the duplicate answer with no write; in every case only the caller's key and the pending list can change |
| `Server.PrimaryInsert` | src/supabase/functions/make-server-71a69640/index.tsx:147-176 | a Primary save writes only the caller's key and the pending list |
| `Server.LegacyInsert` | src/supabase/functions/server/index.tsx:72-91 | a Legacy save writes only the caller's key and the pending list |
| `Server.SubmitMissingFields` | src/supabase/functions/make-server-71a69640/index.tsx:105-119 | with any falsy required field, Primary answers 400 with the non-empty list of missing fields and writes nothing |
| `Server.PrimarySubmitStores` | src/supabase/functions/make-server-71a69640/index.tsx:122-176 | a complete Primary submit stores the caller's pending record and answers 200 with it; it appends the fresh id to the pending list when that list is an array; a corrupt list is left alone without changing the 200 |
| `Server.LegacySubmitStores` | src/supabase/functions/server/index.tsx:70-92 | a Legacy submit stores the corrected record (`Records.SpreadRecordIntended`: the body with the server's ids) for any body; the answer is 200 iff the pending list accepts the push, otherwise 500 with the record already saved and the list unchanged |
| `Server.UserLookup` | src/supabase/functions/make-server-71a69640/index.tsx:187-205 | Primary refuses an empty id with 400; otherwise the answer is 200 iff a truthy value is stored under the key, carrying that value verbatim, and 404 otherwise |
| `Server.SubmitThenGet` | src/supabase/functions/make-server-71a69640/index.tsx:64-205 | after a successful submit, the get endpoint returns the stored record, and a second submit by the same caller answers 400 without writing |
| `Server.ListOutcome` | src/supabase/functions/make-server-71a69640/index.tsx:216-258 | the gate's answers come first; then the answer is 500 iff the sort meets a null record among at least two; a 200 is a permutation of the scan, newest first when every record has a timestamp |
| `Server.ListCoversStore` | src/supabase/functions/make-server-71a69640/index.tsx:242-251 | a 200 list holds exactly the stored records, one per key, and never an advisory list |
| `Server.ReviewWrites` | src/supabase/functions/make-server-71a69640/index.tsx:313-323 | the updated record is written; the id is removed from the pending list and appended to the target list; a corrupt list stops the writes where the throw happens; no other key changes |
| `Server.ApproveOutcome` | src/supabase/functions/make-server-71a69640/index.tsx:263-334 | 401 or 403 first, then 400 for a missing expiry date, both without writes; past those gates, a null record met before any match gives 500 without writes, no match gives 404 without writes, and a match gives `ApproveFound` of the first matching record; a 200 means that record was approved as `Approves` describes |
| `Server.ApproveFound` | src/supabase/functions/make-server-71a69640/index.tsx:302-325 | once the record is found, the answer is 200 iff the pending and approved lists are both arrays or absent, and then the lists move as `Approves` describes; otherwise 500; either way the approved copy is already written under the owner's key, and no key but that one and the two lists changes |
| `Server.RejectOutcome` | src/supabase/functions/make-server-71a69640/index.tsx:337-396 | 401 or 403 first; then a null record met before any match gives 500 without writes, no match gives 404 without writes, and a match gives `RejectFound` of the first matching record; a 200 means that record was rejected as `Rejects` describes |
| `Server.RejectFound` | src/supabase/functions/make-server-71a69640/index.tsx:368-387 | once the record is found, the answer is 200 iff the pending and rejected lists are both arrays or absent, and then the lists move as `Rejects` describes; otherwise 500; either way the rejected copy is already written under the owner's key, and no key but that one and the two lists changes |
| `Server.ReviewNotFound` | src/supabase/functions/make-server-71a69640/index.tsx:293-299 | approve and reject answer 404 exactly when no stored record is null or has the id, whatever the scan order |
| `Server.ApproveIgnoresStatus` | src/supabase/functions/make-server-71a69640/index.tsx:293-313 | the found record's current status affects neither the lookup nor the outcome of an approval |
| `Server.RejectIgnoresStatus` | src/supabase/functions/make-server-71a69640/index.tsx:361-375 | the found record's current status affects neither the lookup nor the outcome of a rejection |
| `Server.SubmitKeepsOwners` | src/supabase/functions/make-server-71a69640/index.tsx:122-147 | a submit of either variant keeps every record under the key that its own `userId` names |
| `Server.ApproveKeepsOwners` | src/supabase/functions/make-server-71a69640/index.tsx:313 | in such a store, approval rewrites a record in place and keeps the store that way |
| `Server.RejectKeepsOwners` | src/supabase/functions/make-server-71a69640/index.tsx:375 | the same holds for rejection |
| `Server.LegacySpreadMovesOwner` | src/supabase/functions/server/index.tsx:72-81 | with the record as written, a body with a foreign `userId` is saved under the caller's key but names another owner; the store stops being owner-keyed, and approving the record writes to the other user's key |
| `Server.Api.Submit` | src/supabase/functions/make-server-71a69640/index.tsx:64-184 | the response and the new store are those of `SubmitOutcome` for either variant |
| `Server.Api.GetByUser` | src/supabase/functions/make-server-71a69640/index.tsx:187-213 | the response is `UserLookup`'s, and nothing changes |
| `Server.Api.ListApplications` | src/supabase/functions/make-server-71a69640/index.tsx:216-260 | the response is `ListOutcome`'s over the scan the store chose |
| `Server.Api.Approve` | src/supabase/functions/make-server-71a69640/index.tsx:263-334 | the response and the new store are `ApproveOutcome`'s over the scan the store chose |
| `Server.Api.Reject` | src/supabase/functions/make-server-71a69640/index.tsx:337-396 | the response and the new store are `RejectOutcome`'s over the scan the store chose |
| `Server.Api.WriteReview` | src/supabase/functions/make-server-71a69640/index.tsx:313-323 | the store and the flag are `ReviewWrites`' |
| `ApplicationStatus.Parse` | src/components/MemberDashboard.tsx:20 | a status string is read as the status of that name, or as none |
| `ApplicationStatus.ParseName` | src/components/MemberDashboard.tsx:20 | every status is read back from its own name |
| `AdminDashboard.Selected` | src/components/AdminDashboard.tsx:88-90 | only `all` selects no status, and no filter selects `expired` |
| `AdminDashboard.LowerIdempotent` | src/components/AdminDashboard.tsx:93-97 | folding twice folds once, and the folded text has no ASCII capital left |
| `AdminDashboard.LowerKeepsOccurrence` | src/components/AdminDashboard.tsx:93-97 | wherever the term occurs in a text, the folded term occurs in the folded text at the same position |
| `AdminDashboard.MatchesLiteral` | src/components/AdminDashboard.tsx:92-98 | an application whose name, email or organization contains the term as typed is matched by the case-blind search |
| `AdminDashboard.EmptySearchKeepsAll` | src/components/AdminDashboard.tsx:92-98 | the empty term matches every application, so the `if (searchTerm)` guard changes no result: a search for "" keeps the whole list |
| `AdminDashboard.FilterApplications` | src/components/AdminDashboard.tsx:85-101 | the shown list is a subsequence of the applications, in their original order |
| `AdminDashboard.FilterMembership` | src/components/AdminDashboard.tsx:88-98 | an application is shown iff it is in the list, passes the status filter, and either the term is empty or the lowercased term occurs in its lowercased name, email or organization |
| `AdminDashboard.NoFilterShowsAll` | src/components/AdminDashboard.tsx:86-92 | with `all` and an empty term the list is shown unchanged |
| `AdminDashboard.SearchKeepsMatching` | src/components/AdminDashboard.tsx:92-98 | a term that every application matches leaves the status step's result unchanged |
| `AdminDashboard.CalculateStats` | src/components/AdminDashboard.tsx:104-111 | `total` is the whole list's length |
| `AdminDashboard.StatsMatchFilters` | src/components/AdminDashboard.tsx:104-111 | each counter equals the number of rows its status filter shows with no search term |
| `AdminDashboard.StatsPartition` | src/components/AdminDashboard.tsx:104-111 | pending, approved, rejected and expired add up to the total, so the three counters stay within it |
| `AdminDashboard.RowActions` | src/components/AdminDashboard.tsx:336 | View is always offered; Approve and Reject are offered iff the application is pending |
| `AdminDashboard.ReviewableRowsArePending` | src/components/AdminDashboard.tsx:454 | the rows that offer a review are exactly the rows the pending filter would show |
| `AdminDashboard.FindApp` | src/components/AdminDashboard.tsx:114 | the result is the first application with the id, or none iff none has it |
| `AdminDashboard.Dashboard.Fetched` | src/components/AdminDashboard.tsx:63-83 | an ok answer replaces the list; a failure keeps it; nothing else changes |
| `AdminDashboard.Dashboard.SetSearchTerm` | src/components/AdminDashboard.tsx:256 | only the term changes |
| `AdminDashboard.Dashboard.SetStatusFilter` | src/components/AdminDashboard.tsx:265 | only the filter changes |
| `AdminDashboard.Dashboard.HandleApprove` | src/components/AdminDashboard.tsx:113-116 | the application with the id, or none, is selected and the expiry modal opens |
| `AdminDashboard.Dashboard.SetExpiryDate` | src/components/AdminDashboard.tsx:493 | only the date changes |
| `AdminDashboard.Dashboard.ConfirmApproval` | src/components/AdminDashboard.tsx:118-146 | without a selection or a date nothing is sent or changed; otherwise the request names the selected id and the date; on success the state reloads and the modal is closed and cleared; on failure nothing changes |
| `AdminDashboard.Dashboard.CancelApproval` | src/components/AdminDashboard.tsx:502-506 | the modal closes, the date is cleared and the selection dropped |
| `AdminDashboard.Dashboard.Select` | src/components/AdminDashboard.tsx:173-175 | only the selection changes |
| `AdminDashboard.Dashboard.HandleReject` | src/components/AdminDashboard.tsx:148-171 | a request is sent iff the administrator confirms, and it names the application `id` to reject; the list reloads only after an accepted rejection |
| `ApplicationForm.StepValid` | src/components/ApplicationForm.tsx:142-155 | steps 1 to 3 each require their text fields (step 3 without `motivation`); step 4 requires a resume; any other step is valid |
| `ApplicationForm.StepValidIntended` | src/components/ApplicationForm.tsx:148-149 | the corrected rule also requires `motivation` at step 3; it is stronger than `StepValid` and equal to it at every other step |
| `ApplicationForm.BuildFileData` | src/components/ApplicationForm.tsx:83-102 | `resume` and `resumeName` are present iff a resume is, likewise for the recommendation; `certificates` is present iff there is at least one, with one entry per file in order |
| `ApplicationForm.CertificateEntry` | src/components/ApplicationForm.tsx:97-100 | each certificate entry has exactly `data` and `name`, and the name is the file's |
| `ApplicationForm.Payload` | src/components/ApplicationForm.tsx:112-115 | the body holds every form field as a string, plus `files` |
| `ApplicationForm.PayloadTruthy` | src/components/ApplicationForm.tsx:112-115 | a field is truthy in the body iff it is non-empty in the form |
| `ApplicationForm.WizardAllowsMissingMotivation` | src/components/ApplicationForm.tsx:142-155 | a form with an empty motivation passes all four steps, yet the body it sends lacks a field the Primary server requires |
| `ApplicationForm.IntendedStepsCoverRequired` | src/components/ApplicationForm.tsx:142-155 | with the corrected step 3, passing all steps guarantees that the Primary server reports no missing field |
| `ApplicationForm.Wizard.HandleInputChange` | src/components/ApplicationForm.tsx:39-41 | only the named field changes |
| `ApplicationForm.Wizard.UploadCertificates` | src/components/ApplicationForm.tsx:46-56 | files over 10 MiB are dropped and the rest are appended in order after the existing ones, so with none left the list is unchanged |
| `ApplicationForm.Wizard.UploadSingle` | src/components/ApplicationForm.tsx:57-62 | a file is accepted iff it is at most 10 MiB, and then fills only its slot; otherwise nothing changes |
| `ApplicationForm.Wizard.RemoveFile` | src/components/ApplicationForm.tsx:66-75 | removing certificate `i` deletes exactly that position and keeps the others in order; removing a resume or recommendation empties only that slot |
| `ApplicationForm.Wizard.Previous` | src/components/ApplicationForm.tsx:524 | the step goes back by one, but never below 1 |
| `ApplicationForm.Wizard.Next` | src/components/ApplicationForm.tsx:531-534 | the step advances iff it is below 5 and valid (step 3 as corrected), so it stays within 1..5 |
| `ApplicationForm.Wizard.Submit` | src/components/ApplicationForm.tsx:77-131 | the body holds every form field as a string plus `files`, which is exactly what `DescribesFiles` requires of the held documents (resume and recommendation with names iff held, one certificate entry per file in order); a refused submission shows the server's error text or the default one and stops loading |
| `AppShell.ViewAfterAuth` | src/App.tsx:117-125 | an admin's view is unchanged; after a sign-up a non-admin goes to the form; after a sign-in a non-admin goes to the member view iff their application was found; the member view is reached only that way or by already being on it |
| `AppShell.App.CheckSession` | src/App.tsx:41-62 | a session with a token signs in, sets the admin flag from the role, and looks up the application only for a non-admin; initialization ends |
| `AppShell.App.CheckUserApplication` | src/App.tsx:64-79 | the member view follows only an ok answer; nothing else changes |
| `AppShell.App.HandleSignOut` | src/App.tsx:81-88 | both flags become false, both ids become null, and the landing page is shown |
| `AppShell.App.HandleApply` | src/App.tsx:90-97 | a visitor gets the sign-up dialog with the view unchanged; a signed-in user gets the form |
| `AppShell.App.HandleSignIn` | src/App.tsx:99-102 | the sign-in dialog opens and nothing else changes |
| `AppShell.App.HandleAuthSuccess` | src/App.tsx:104-126 | the user is signed in with the returned token and id, the dialog closes, the admin flag comes from the session role, and the view follows `ViewAfterAuth` |
| `AppShell.App.HandleApplicationSubmitted` | src/App.tsx:128-130 | the member view is shown, from whatever view the signed-in user is on when the form calls back |
| `AppShell.App.HandleAdminAccess` | src/App.tsx:132-139 | a visitor gets the sign-in dialog, an admin gets the dashboard, and a signed-in non-admin changes nothing |
| `AppShell.App.BackToLanding` | src/App.tsx:159 | only the view changes, to the landing page |
| `AppShell.App.CloseAuthModal` | src/App.tsx:183 | only the dialog closes |
| `MemberDashboard.GetStatusConfig` | src/components/MemberDashboard.tsx:126-161 | every status has a non-empty label |
| `MemberDashboard.StatusLabelsDistinct` | src/components/MemberDashboard.tsx:126-161 | no two statuses share a label |
| `MemberDashboard.ExpiryMonotone` | src/components/MemberDashboard.tsx:164 | a membership that has expired stays expired at every later time, and one not expired now was not expired earlier |
| `MemberDashboard.ExactlyOneMessage` | src/components/MemberDashboard.tsx:201-205 | exactly one message is shown: for `approved` the active or the lapsed one by expiry, for each other status its own |
| `MemberDashboard.Render` | src/components/MemberDashboard.tsx:100-124 | loading shows the spinner; an error or a missing application shows the error text; the dashboard shows the status's banner and message, the member number iff present and non-empty, the expiry iff set, the QR iff approved with a URL, and the download iff approved |
| `MemberDashboard.QrOnlyForApproved` | src/components/MemberDashboard.tsx:258 | a shown QR code means the application is approved (so the generating effect ran) and the URL is non-empty, and the download button is shown too |
| `MemberDashboard.Fetched` | src/components/MemberDashboard.tsx:43-64 | an ok answer loads the application with no error; a failure loads none and records a non-empty error |
| `MemberDashboard.FetchedRenders` | src/components/MemberDashboard.tsx:37-64 | once the fetch ends, the dashboard is shown iff the application arrived |

## Left out

- HTTP plumbing is not modelled: routing, CORS, the logger, JSON parsing of requests, and the `details` field of the 500 answers. A body that is not a JSON object is not modelled either: a handler receives a field map.
- The signup endpoint and the health endpoint are not modelled, and neither is the identity provider. Its answer for a token is the input `Identity`.
- `kv_store.tsx` is not part of this model. The store is a map, and its scan returns the matching keys in an arbitrary order.
- Timestamps are integers. The Primary server's ISO `submittedAt` and `reviewedAt` strings are modelled as the clock value, which makes the sort's comparison of two dates a comparison of integers.
- `Server.ApproveFound`: the source reads the clock twice, `Date.now()` for the membership number (index.tsx:302) and `new Date()` for `reviewedAt` (index.tsx:308). The model reads it once, so both come from the same `now`.
- `Server.ListOutcome`: when a record has no timestamp, the comparator returns NaN and the engine's order is unspecified. The contract then promises only a permutation of the scan, and the function returns the scan order.
- `Records.MembershipNumber`: the clock is a natural number (`Date.now()` is never negative here).
- The unreachable read-back check after the Primary save is not modelled: the save was just written, so the re-read always finds it. The 500 answer for an exception thrown outside the modelled branches is not modelled either.
- Concurrency between requests is not modelled: each request runs alone against the store.
- Lowercasing is ASCII-only: `toLowerCase` on other Unicode letters is not modelled.
- Several client-side details are not modelled:
  - the loading spinners and their flags;
  - alerts and `confirm` dialogs, which become a boolean input;
  - file reading, which is the `encode` parameter;
  - the QR image, its payload and the card download.
- `ApplicationForm.Wizard.UploadSingle` does not model type-confused calls of `handleFileUpload`, such as the certificates field with a single file or a single slot with an array. The form's inputs never make them.
- `ApplicationForm.Wizard.RemoveFile`: removing the certificates without an index leaves them undefined in the source, and every reader treats undefined like `[]`, so the model sets `[]`.
- `ApplicationForm.Wizard.Submit`: a failure to parse the response, and the text of a network exception, are not modelled. A refusal carries the server's `error` text, or falls back to the default one.
- `MemberDashboard.Fetched`: only the error text of a non-ok answer is modelled. A network exception's own message is not.
- `AdminDashboard.Dashboard`: the shown list and the counters are functions of the state (`Shown`, `Counters`) and not separate fields. The source recomputes them in an effect after every change, so a render between a change and the effect is not modelled.
- `ApplicationForm.Wizard.Next` uses the corrected step-3 rule `StepValidIntended`. The rule as written is `ApplicationForm.StepValid` (see Findings).
- `Server.LegacyInsert` stores the corrected record `Records.SpreadRecordIntended`. The record as written is `Records.SpreadRecord` (see Findings).
- `Server.LegacySubmitStores` is stated about that corrected record, and so are `Server.SubmitOutcome` and `Server.Api.Submit` for the Legacy variant. As written, a body `id` would also replace the server's id, and the pending-list entry and the answered `applicationId` would then carry the client's id; a body `userId` would name another owner (`Server.LegacySpreadMovesOwner`).
- `AppShell.App.HandleApplicationSubmitted` requires a signed-in user. The form's answer can arrive after the user went back to the landing page, and that case is modelled; an answer that arrives after a sign-out would show the member view to a visitor, and that race is excluded.
- `AppShell.App.CheckUserApplication` requires a signed-in user for the same reason. Its fetch could answer after a sign-out and would then show the member view to a visitor; that race is excluded too.

## Findings

| source | as written | input that shows it | evidently intended | confidence | as-written member | corrected member |
|---|---|---|---|---|---|---|
| src/components/ApplicationForm.tsx:148-149 | step 3 checks only `education` and `specialization`. Yet the motivation field on that step is marked required (line 350), and the Primary server requires `motivation` (src/supabase/functions/make-server-71a69640/index.tsx:105-119) | fill every field except `motivation` and attach a resume: all steps pass, and the submit is answered 400 "Missing required fields". `ApplicationForm.WizardAllowsMissingMotivation` proves this about `ApplicationForm.StepValid` | step 3 also requires a non-empty `motivation`. `ApplicationForm.IntendedStepsCoverRequired` proves that passing every step then leaves no required field missing | not executed | `ApplicationForm.WizardAllowsMissingMotivation` | `ApplicationForm.StepValidIntended` |
| src/supabase/functions/server/index.tsx:72-78 | the request body is spread after `id` and `userId`, so a body field `userId` replaces the authenticated caller's id | caller `mallory` submits `{"userId": "victim"}`: the record is saved under `application:mallory` but names `victim`, and approving it writes to `application:victim` | the caller's ids win over the body, as in the Primary server's record literal (`Records.SpreadRecordIntended`). `Server.SubmitKeepsOwners` proves that a submit then keeps every record under its owner's key | not executed | `Server.LegacySpreadMovesOwner` | `Records.SpreadRecordIntended` |
