# Contributor interview flow — a Dafny model

The system collects token-allocation input from contributors of a project.
An administrator creates sessions (a name, optional algorithm text, whether
feedback on that text is collected) and contributors, each with a secret
access token. A contributor opens the entry link `/character/<token>` and
goes through up to three steps: reviewing the session's algorithm text
(`/review/<token>`), the allocation-preferences form (`/contribute/<token>`:
five bucket percentages that must total 100 unless deferred, three lockup
parameters with their own defer flag, autosaved drafts, a final submit), and
an interview chat (`/interview/<token>`) that ends with a final, confirmed
submission. The administrator's dashboard lists contributors newest first,
filters them by session, shows a status badge per contributor and deletes a
contributor together with their messages.

The model has one module per source file of the core and three shared ones:

- `Text` — JavaScript's `String.prototype.trim` (the ECMAScript white-space and
  line-terminator set written out), `s || null`, and string truthiness.
- `Routes` — the client paths and navigation requests.
- `Store` — the contributor, session and message rows, the update payloads
  the screens send, and a `Database` class whose tables (maps) the requests
  change. Whether a request fails is an input; the table constraints the
  handlers meet (primary keys, the unique token, the message foreign key) are
  modelled. A ghost journal records every request in order, so the order of
  writes (messages before contributor on delete) is part of the contracts.
- `AllocationPreferences`, `AlgorithmReview`, `CharacterAccess`, `Interview`
  (pages), `ChatInterface`, `ContributorTable`, `SessionConfigModal`,
  `AddContributorModal` (components), `AdminDashboard`.
- `Flow` — lemmas chaining the screens: the row one step writes is what the
  next visit reads.

The code's state holders (the preferences form, the chat, the review page,
the two dialogs, the dashboard) are classes whose fields are the component
state and whose methods are the handlers. Each method's `ensures` gives the
whole new state and the requests sent. The decisions (gate chains, status
badge, payloads, duplicate removal, filtering) are functions, and lemmas state
their properties. Database answers, `window.confirm`, the clock (`now`), the
interview responder's reply and database-generated ids, tokens and creation
times are parameters.

There is no single router over all progress flags. The entry link reads only
`allocation_prefs_submitted_at` and sends the contributor to the interview or
to the preferences form, never to the review step
(src/pages/CharacterAccess.tsx:17-28); `CharacterAccess.NeverToReview` states
this.

## Model

| member | source | states |
|---|---|---|
| Text.Trim | src/components/ChatInterface.tsx:90-91 | the result has no white space at either end, and it is a slice of the input with only white space outside it |
| Text.TrimEmptyIffAllSpace | src/components/AddContributorModal.tsx:16 | a string trims to empty exactly when every character is white space |
| Text.TrimIdempotent | src/components/SessionConfigModal.tsx:50-52 | trimming twice equals trimming once |
| Text.OrNull | src/pages/AllocationPreferences.tsx:135 | `s \|\| null` is null exactly for the empty string, otherwise it is `s` |
| Routes.Url | src/pages/CharacterAccess.tsx:24-26 | every path starts with `/` and only the home path is `/` |
| Store.Apply | src/pages/AllocationPreferences.tsx:129-145 | per patch kind: preferences write the preference columns and the submitted-at stamp only when one is given; the acknowledgement writes its time and the feedback only when given; the completion writes the flag, its time and the evidence; every other column, and id, name, token, creation time and session, keeps its old value |
| Store.NewContributor | src/components/AddContributorModal.tsx:18-21 | a new row has the given name and session and no progress markers set |
| Store.Database.Update | src/pages/AlgorithmReview.tsx:96-99 | applies the patch to the row with that id (a missing row matches nothing) and keeps the tables valid |
| Store.Database.InsertContributor | src/components/AddContributorModal.tsx:18-21 | the insert fails on a request error or an id or token clash; otherwise it adds exactly the new row |
| Store.Database.InsertMessage | src/components/ChatInterface.tsx:54-58 | appends the message to the contributor's transcript; refused for an unknown contributor |
| Store.Database.DeleteMessages | src/pages/AdminDashboard.tsx:108-111 | removes all of the contributor's messages unless the request fails |
| Store.Database.DeleteContributor | src/pages/AdminDashboard.tsx:116-119 | removes the row unless the request fails or messages still refer to it |
| Store.Database.InsertSession | src/components/SessionConfigModal.tsx:63 | adds the session unless the request fails or the id clashes |
| Store.Database.UpdateSession | src/components/SessionConfigModal.tsx:58-61 | replaces the edited columns of the session with that id |
| AllocationPreferences.SetVoteLookup | src/pages/AllocationPreferences.tsx:160-162 | after a slider change the changed key reads the new value and every other key reads its old value |
| AllocationPreferences.SetVoteTotal | src/pages/AllocationPreferences.tsx:160-162 | the bucket total moves by exactly the change to the one slider |
| AllocationPreferences.SetVoteUnique | src/pages/AllocationPreferences.tsx:160-162 | a slider change keeps the bucket keys distinct |
| AllocationPreferences.DefaultVotesValid | src/pages/AllocationPreferences.tsx:58-64 | the default votes are one per bucket and total 100 |
| AllocationPreferences.AutosavePrefs | src/pages/AllocationPreferences.tsx:131-144 | the autosave writes the votes and lockup numbers as they stand, with empty delegates as null |
| AllocationPreferences.SubmitPrefs | src/pages/AllocationPreferences.tsx:172-186 | a deferred group has its values cleared and keeps its delegate; a group that is not deferred keeps its values and clears its delegate |
| AllocationPreferences.SubmitIsAutosaveWithDeferralsApplied | src/pages/AllocationPreferences.tsx:170-187 | the submit payload is the autosave payload with exactly the defer-dependent columns changed |
| AllocationPreferences.AutosaveRestoreRoundTrip | src/pages/AllocationPreferences.tsx:104-115 | reloading an autosaved draft into a fresh form gives back the saved form |
| AllocationPreferences.RestoreNothing | src/pages/AllocationPreferences.tsx:104-115 | a row with no draft leaves the form as it was |
| AllocationPreferences.Form.constructor | src/pages/AllocationPreferences.tsx:46-73 | the form starts loading, with the default values |
| AllocationPreferences.Form.Load | src/pages/AllocationPreferences.tsx:78-119 | no token or no row gives the matching error; a submitted row redirects to the interview; otherwise the draft is restored and the contributor recorded |
| AllocationPreferences.Form.BucketChange | src/pages/AllocationPreferences.tsx:160-162 | only the one slider changes, and the total follows it |
| AllocationPreferences.Form.SaveProgress | src/pages/AllocationPreferences.tsx:125-148 | without a loaded contributor nothing is written; otherwise one update with the autosave payload and no submitted-at stamp, sessions and messages kept |
| AllocationPreferences.Form.Submit | src/pages/AllocationPreferences.tsx:164-190 | a blocked submit alerts and writes nothing; otherwise one update with the submit payload and the stamp, sessions and messages kept, then the move to the interview |
| AllocationPreferences.SubmittedRow | src/pages/AllocationPreferences.tsx:164-187 | an accepted submit stamps the row, and the stored votes total 100 unless the buckets were deferred |
| ChatInterface.Greeting | src/components/ChatInterface.tsx:48-51 | the opening message is from the assistant and addresses the contributor by name |
| ChatInterface.FirstIndex | src/components/ChatInterface.tsx:65-73 | the position of the first entry equal to a message, with no equal entry before it |
| ChatInterface.RemoveDuplicates | src/components/ChatInterface.tsx:64-73 | the accumulator loop computes `Dedup`, the keep-if-not-yet-kept walk over the history |
| ChatInterface.DedupMembers | src/components/ChatInterface.tsx:65-73 | every role and content pair of the history is kept, and nothing else |
| ChatInterface.DedupNoDuplicates | src/components/ChatInterface.tsx:65-73 | no two kept entries share both role and content |
| ChatInterface.DedupFirstOccurrences | src/components/ChatInterface.tsx:65-73 | the kept entries are the first occurrences, in the order they occur in the history |
| ChatInterface.Chat.FetchMessages | src/components/ChatInterface.tsx:32-78 | a failed query changes nothing; an empty history appends the greeting to the contributor's stored messages (unless the insert fails or the contributor is unknown), keeps the other tables and shows the greeting only if stored; otherwise the deduplicated history and no write |
| ChatInterface.Chat.BeginSend | src/components/ChatInterface.tsx:87-98 | a busy chat or blank input sends nothing; otherwise the trimmed text is appended as the user's message and the input cleared |
| ChatInterface.Chat.FinishSend | src/components/ChatInterface.tsx:100-116 | exactly one assistant message is appended (the reply, or the apology on failure) and the busy flags drop |
| ChatInterface.Chat.SendMessage | src/components/ChatInterface.tsx:87-117 | a send turn adds the user message followed by one assistant message, or nothing at all |
| ChatInterface.Chat.EndInterview | src/components/ChatInterface.tsx:119-154 | refused before preferences are submitted, abandoned without confirmation, otherwise the completion is written, sessions and messages are kept, and the chat finishes and hides its input only if the write succeeded |
| ChatInterface.EnabledSendProceeds | src/components/ChatInterface.tsx:207-210 | an enabled send button always gets past the send guard |
| ContributorTable.GetStatus | src/components/ContributorTable.tsx:35-46 | each badge holds exactly when its marker is set and every later marker is unset |
| ContributorTable.StatusReadsOnlyMarkers | src/components/ContributorTable.tsx:35-46 | the badge depends on the three progress markers only |
| ContributorTable.StatusNeverMovesBack | src/components/ContributorTable.tsx:35-46 | no update a contributor screen sends moves the badge backwards |
| ContributorTable.EntryLink | src/components/ContributorTable.tsx:24-26 | the copied link is the origin followed by the entry path of the token |
| ContributorTable.DeleteRequest | src/components/ContributorTable.tsx:87-101 | the delete handler is called, with id and name, exactly when confirmed |
| CharacterAccess.CheckAndRedirect | src/pages/CharacterAccess.tsx:10-29 | no token goes home; a submitted row goes to the interview, anything else to the preferences form, replacing the history entry |
| CharacterAccess.NeverToReview | src/pages/CharacterAccess.tsx:24-28 | the entry link never leads to the review step |
| CharacterAccess.ReadsOnlySubmittedAt | src/pages/CharacterAccess.tsx:17-26 | the decision depends on the submitted-at column alone |
| Interview.Show | src/pages/Interview.tsx:15-84 | no token is an error; unsubmitted preferences redirect; a failed lookup is an error; a completed interview shows the notice; otherwise the chat |
| Interview.ChatOnlyWhenDue | src/pages/Interview.tsx:68-84 | the chat is shown only after preferences are submitted and before completion |
| Interview.PrefsGateFirst | src/pages/Interview.tsx:22-33 | the preferences gate comes before the second lookup and the completion check |
| AlgorithmReview.FetchData | src/pages/AlgorithmReview.tsx:23-78 | no token gives the invalid-link error and no contributor the expired-link error; once the contributor is found there is never an error: the text is shown exactly when the contributor has a session, has not acknowledged, and the session has text, and every other case redirects to preferences |
| AlgorithmReview.AcknowledgedBeforeSessionLookup | src/pages/AlgorithmReview.tsx:45-55 | without a session, or once acknowledged, the session lookup does not matter |
| AlgorithmReview.ContinuePatch | src/pages/AlgorithmReview.tsx:88-94 | the acknowledgement is always written; the trimmed feedback exactly when it is collected and not blank |
| AlgorithmReview.Page.Load | src/pages/AlgorithmReview.tsx:22-81 | the page state follows the fetch outcome, recording the contributor before any redirect |
| AlgorithmReview.Page.Continue | src/pages/AlgorithmReview.tsx:83-102 | without a contributor nothing happens; otherwise one update, sessions and messages kept, then the move to preferences whatever the write did |
| SessionConfigModal.Normalize | src/components/SessionConfigModal.tsx:50-54 | the name is trimmed; the text is trimmed and null exactly when nothing is left |
| SessionConfigModal.SaveIsNormalized | src/components/SessionConfigModal.tsx:50-54 | saved session data has no surrounding white space and no empty text |
| SessionConfigModal.EditSaveRoundTrip | src/components/SessionConfigModal.tsx:30-54 | opening a saved session and saving it unchanged writes back the same data |
| SessionConfigModal.Form.Prefill | src/components/SessionConfigModal.tsx:30-40 | editing shows the session (a null text as empty); creating shows empty fields |
| SessionConfigModal.Form.Persist | src/components/SessionConfigModal.tsx:56-64 | with a session being edited, one update of it; otherwise one insert; nothing else changes |
| SessionConfigModal.Form.Commit | src/components/SessionConfigModal.tsx:48-76 | the data is sent; the fields reset and the save is reported only on success, and loading ends |
| SessionConfigModal.Form.Save | src/components/SessionConfigModal.tsx:42-77 | a blank name alerts and writes nothing; otherwise one update or insert with the normalized data, and the fields reset only on success |
| AddContributorModal.SessionRef | src/components/AddContributorModal.tsx:20 | the session reference is null exactly when the session id is absent or empty |
| AddContributorModal.Form.Add | src/components/AddContributorModal.tsx:15-30 | a blank name does nothing; otherwise one insert of the untrimmed name, sessions and messages kept, and the name is cleared only on success |
| AdminDashboard.FilterBySession | src/pages/AdminDashboard.tsx:70-72 | keeps exactly the contributors of the session and never grows the list |
| AdminDashboard.FilterCounts | src/pages/AdminDashboard.tsx:70-72 | each contributor of the session occurs as often as in the input, any other contributor not at all |
| AdminDashboard.Filtered | src/pages/AdminDashboard.tsx:70-72 | with no session selected the list is unfiltered |
| AdminDashboard.FilterAppend | src/pages/AdminDashboard.tsx:70-72 | filtering preserves the relative order |
| AdminDashboard.FilterKeepsNewestFirst | src/pages/AdminDashboard.tsx:44-72 | the filtered list is still ordered newest first |
| AdminDashboard.AddedShowsInSelectedSession | src/pages/AdminDashboard.tsx:233 | a contributor added under the selected session is listed under it |
| AdminDashboard.FindSession | src/pages/AdminDashboard.tsx:144-147 | the selector picks the first session with the chosen id, or none when no session has it |
| AdminDashboard.DeletedToast | src/pages/AdminDashboard.tsx:125 | the success toast names the contributor |
| AdminDashboard.DeleteFailedToast | src/pages/AdminDashboard.tsx:128 | the failure toast names the contributor |
| AdminDashboard.Dashboard.Visible | src/pages/AdminDashboard.tsx:70-72 | the table shows exactly the listed contributors of the selected session |
| AdminDashboard.Dashboard.AddDialogSession | src/pages/AdminDashboard.tsx:195 | the add dialog gets a session exactly when adding is enabled, and it is the selected one |
| AdminDashboard.Dashboard.FetchContributors | src/pages/AdminDashboard.tsx:44-53 | a failed fetch keeps the list; otherwise the rows returned, newest first |
| AdminDashboard.Dashboard.SelectSession | src/pages/AdminDashboard.tsx:144-147 | the selection becomes the session found for the chosen id |
| AdminDashboard.Dashboard.EditSession | src/pages/AdminDashboard.tsx:93-98 | with a session selected the dialog opens on it; otherwise nothing changes |
| AdminDashboard.Dashboard.CreateSession | src/pages/AdminDashboard.tsx:100-103 | the dialog opens with no session to edit |
| AdminDashboard.Dashboard.DeleteContributor | src/pages/AdminDashboard.tsx:105-130 | messages are deleted before the row and a failure there aborts; only full success removes the row, refetches (ending the loading state) and reports success; a failure leaves the loading state as it was |
| Flow.SubmitOpensInterview | src/pages/CharacterAccess.tsx:24-28 | after a submit the entry link leads to the interview, which no longer redirects, and the badge is at least "In Interview" |
| Flow.EndInterviewIsFinal | src/pages/Interview.tsx:76-82 | after ending the interview the page shows only the completed notice and the badge reads "Completed" |
| Flow.AcknowledgeClosesReview | src/pages/AlgorithmReview.tsx:51-55 | after the acknowledgement the review page only redirects, and the badge is at least "Filling Prefs" |

## Left out

- The interview responder (the chat edge function and its language-model call) is not part of this model. The chat takes its reply, or its failure, as an input.
- Authentication (the session check on the dashboard and the login page) is not modelled. Nor are the route table, the transcript viewer and the presentational message component.
- The debounced autosave timer is not modelled. `SaveProgress` is the write the timer triggers.
- Alerts, toasts and the clipboard are modelled only as returned values. `window.confirm` and the clock are parameters.
- Plain input setters (`onChange` handlers that copy a field) are not modelled. They appear as the fields' values in each handler's contract.
- Reordering of the `bucket_votes` keys by the database's JSON storage is not modelled. The votes are kept in insertion order, as the JavaScript object keeps them.
- The database's ordering by `created_at` is taken as given. `AdminDashboard.Dashboard.FetchContributors` requires the returned rows to be newest first and does not sort them.
- Session listing (`fetchSessions`) is not modelled separately. It mirrors `FetchContributors` and sessions have no ordering property of their own.
- The intermediate busy flags (`saving`, `loading`, `isThinking`, `submitting`) are stated only where the handler leaves them. Their values while a request is pending are not modelled.
- ChatInterface.Chat.FinishSend: appends the reply to the current transcript. The code appends it to the snapshot taken when the message was sent. The two agree whenever nothing else changes the transcript during the call, which is all `SendMessage` models.
- Concurrency between handlers (for example two autosaves in flight) is not modelled. Each handler runs to completion.
- The cascading delete is not atomic in the code. If the messages are deleted but the row delete fails, the messages stay deleted. `AdminDashboard.Dashboard.DeleteContributor` states this rather than hiding it.
