# Avrek calls dashboard — a Dafny model of its client logic

The dashboard is a browser front end for placing automated outbound phone
calls through a voice-AI provider and reviewing them afterwards. This project
models the logic in its three core files:

- **The API client** (`src/services/api.ts`, module `ApiService`). `createCall`
  resolves a phone number and a task from the new or the legacy request
  fields, refuses the request locally when either is missing, and otherwise
  posts a fixed-shape payload. A request interceptor attaches
  `Authorization: Bearer <token>` when a non-empty token is stored. A response
  interceptor reacts to a 401 by removing the token and moving the browser to
  `/login`, and passes every error on. The token, the location and the
  requests handed to the transport are fields of a `Session` object. The
  backend's answer to each request is a parameter of type `Reply`.
- **The call-history page** (`src/pages/CallHistoryPage.tsx`, module
  `CallHistory`). It covers the tab filter and the case-insensitive search
  filter, the counters, `formatDuration`, `getStatusConfig`,
  `getCallIdShort`, and the classification of sync errors. The page's state
  (`calls`, `loading`, `filteredCalls`, `isClearing`, `isSyncing`,
  `syncResult`) lives in a `HistoryPage` class. Its handlers are methods,
  each split at the `await`, so the in-flight flags can be observed.
- **The call-details modal** (`src/components/CallDetailsModal.tsx`, module
  `CallDetails`). It covers the `M:SS` duration, the case-insensitive status
  and answered-by colours, the transcript speaker label, and the
  loading / error / details state of `fetchCallDetails` in a `DetailsModal`
  class.

Shared modules: `Wrappers` (Option, Result), `Text` (ASCII lower-casing,
`includes`, integer-to-decimal rendering and its inverse, `padStart`, the
JavaScript remainder), `Seqs` (`filter` and the order-preserving embedding it
induces), `CallTypes` (the records of `src/types/index.ts`).

`createCall` always sends `wait_for_greeting: true` (src/services/api.ts:55).
It never copies the request's voice, model, flags or thresholds into the
payload: only `language` and `endpoint` come from the request, each with a
default (src/services/api.ts:63, 65). The payload also carries
`temperature` 0.7 and `json_mode_enabled` true (src/services/api.ts:67-68).

## Model

| member | source | states |
|---|---|---|
| ApiService.Normalise | src/services/api.ts:41-71 | Fails with the "Phone number and task/script are required" validation error exactly when both phone fields or both task fields are absent or empty. Otherwise `phone_number` is the new field when it is non-empty, else the legacy `phoneNumber`. `task` is `task` when non-empty, else `baseScript`. `language` falls back to `en` and `endpoint` to `https://api.bland.ai`. `fromNumber` passes through unchanged, absent included. Every other provider field is the fixed constant. |
| ApiService.NormaliseIgnoresProviderOptions | src/services/api.ts:51-71 | Two requests that agree on the phone, task, language, endpoint and fromNumber fields give the same result, whatever their voice, model, flags or thresholds. |
| ApiService.RequestFor | src/services/api.ts:33-106 | Each operation's request starts with only the JSON content-type header, so it carries no Authorization. GET is used exactly for the three read-only operations. |
| ApiService.RouteRequestFor | src/services/api.ts:33-106 | Routing a request back from its method, path and body recovers the operation, including the call id inside `/calls/{id}/pdf` and `/calls/{id}/details`. |
| ApiService.RequestIdentifiesOperation | src/services/api.ts:33-106 | Two operations that issue the same request are the same operation. |
| ApiService.Authorise | src/services/api.ts:13-19 | With a non-empty token, the headers gain exactly `Authorization = "Bearer " + token` and keep every other header. With no token or an empty one, the headers are unchanged. Method, path and body are never touched. |
| ApiService.Session.AttachToken | src/services/api.ts:13-19 | Edits the request configuration in place into `Authorise` of it under the stored token. |
| ApiService.Session.RejectResponse | src/services/api.ts:22-31 | A 401 clears the token and sets the location to `/login`. Any other error, including one without a response, leaves both unchanged. The error is always propagated as it was. |
| ApiService.Session.Send | src/services/api.ts:5-31 | Exactly one request is handed to the transport: the operation's request, authorised with the token held before the call. It carries Authorization exactly when that token was non-empty. The answer is returned on success, and the error is propagated with the 401 effects on failure. |
| ApiService.Session.CreateCall | src/services/api.ts:41-75 | A request that fails validation returns the validation error with nothing sent and the token and location unchanged. Otherwise exactly one POST to `/calls` carrying the normalised payload is sent, and the backend's call or its error is returned. |
| Seqs.Filter | src/pages/CallHistoryPage.tsx:34-44 | The result is no longer than the input and holds exactly the input's elements that satisfy the predicate. |
| Seqs.FilterEmbedding | src/pages/CallHistoryPage.tsx:34-44 | The kept elements sit at strictly increasing positions of the input: filtering preserves relative order. |
| Seqs.FilterCompose | src/pages/CallHistoryPage.tsx:31-45 | Filtering the tab result by the search predicate is filtering the calls by both predicates. |
| Seqs.FilterPartition | src/pages/CallHistoryPage.tsx:426-436 | A predicate and its negation split a list into two parts whose multisets add up to the original, so their lengths sum to its length. |
| CallHistory.FilterCalls | src/pages/CallHistoryPage.tsx:29-48 | The shown list holds exactly the calls that pass the tab filter and, when a term is typed, the search. It is a subsequence of the calls and of the tab result, in their order. An empty term applies no search filtering. |
| CallHistory.MatchesSearchIff | src/pages/CallHistoryPage.tsx:40-44 | A call matches exactly when the lower-cased term occurs in the lower-cased phone number, or in the origin number or provider call id when present. Absent fields never match. |
| CallHistory.SearchIgnoresCase | src/pages/CallHistoryPage.tsx:40-44 | Lower-casing the term first does not change which calls match. |
| CallHistory.TabCountsSum | src/pages/CallHistoryPage.tsx:426-436 | The Completed and Active tab counts add up to the number of calls. The Completed tab count equals the Completed card. |
| CallHistory.StatusCountsSum | src/pages/CallHistoryPage.tsx:271-313 | When every status is one of the three declared ones, the Completed, In Progress and Not Answered cards add up to the Total card. |
| CallHistory.FormatDuration | src/pages/CallHistoryPage.tsx:174-179 | An absent duration shows `0m 0s`. A non-negative duration `d` shows `{d/60}m {d%60}s`, so zero also shows `0m 0s`. |
| CallHistory.FormatDurationInjective | src/pages/CallHistoryPage.tsx:174-179 | Distinct non-negative durations are displayed differently. |
| CallHistory.StatusConfig | src/pages/CallHistoryPage.tsx:181-208 | The grey `?` style is given exactly to strings other than the three statuses. Completed, In Progress and Not Answered get the ✓, ⏳ and ✗ icons. |
| CallHistory.StatusConfigInjective | src/pages/CallHistoryPage.tsx:181-208 | No two statuses with a known style share it. |
| CallHistory.ShortCallId | src/pages/CallHistoryPage.tsx:210-213 | The result is `N/A` exactly for an absent or empty id. Otherwise it is the first min(8, length) characters of the id followed by `...`. |
| CallHistory.ClassifySyncError | src/pages/CallHistoryPage.tsx:143-152 | Logout is requested exactly on status 401, with the authentication message. Status 500 gives the server-error message. Anything else, including a missing response, gives the generic message with the error text. |
| CallHistory.SyncMessageRevealsLogout | src/pages/CallHistoryPage.tsx:143-152 | Two failures showing the same message agree on whether the user was logged out. |
| CallHistory.HistoryPage.constructor | src/pages/CallHistoryPage.tsx:9-18 | The page starts with no calls, loading, the completed tab, an empty term and no flags raised. |
| CallHistory.HistoryPage.RunFilterEffect | src/pages/CallHistoryPage.tsx:29-48 | The shown list becomes the calls filtered by the active tab and the search term, which is a subsequence of the calls. |
| CallHistory.HistoryPage.SelectTab | src/pages/CallHistoryPage.tsx:419-429 | Switching tab re-runs the filter effect, so the shown list matches the new tab. Nothing else changes. |
| CallHistory.HistoryPage.SetSearchTerm | src/pages/CallHistoryPage.tsx:339 | Typing a term re-runs the filter effect. Nothing else changes. |
| CallHistory.HistoryPage.FetchCalls | src/pages/CallHistoryPage.tsx:50-59 | A successful answer replaces the calls and a failure keeps them. Loading ends either way, and the shown list is re-filtered. |
| CallHistory.HistoryPage.BeginClearAll | src/pages/CallHistoryPage.tsx:97-102 | Without confirmation nothing changes. With it, the clearing flag is raised. |
| CallHistory.HistoryPage.FinishClearAll | src/pages/CallHistoryPage.tsx:103-112 | On success the result reads `Cleared N calls successfully` and the list is refreshed. On failure it reads `Failed to clear calls` and the list is kept. The clearing flag drops either way. |
| CallHistory.HistoryPage.BeginSync | src/pages/CallHistoryPage.tsx:115-117 | Raises the syncing flag and clears the previous result. |
| CallHistory.HistoryPage.FinishSync | src/pages/CallHistoryPage.tsx:122-155 | On success the counts are reported and the list refreshed. On failure the classified message is shown, and a 401 logs out once and routes to `/login`. The syncing flag drops either way. |
| CallDetails.FormatDuration | src/components/CallDetailsModal.tsx:68-72 | For a non-negative `s` the text is the minutes `s/60`, a colon, and exactly two digits that read back as `s%60`. |
| CallDetails.FormatDurationInjective | src/components/CallDetailsModal.tsx:68-72 | Distinct non-negative durations are displayed differently. |
| CallDetails.StatusColor | src/components/CallDetailsModal.tsx:78-89 | Green exactly for `completed`, red for `failed` and yellow for `no-answer`, compared after lower-casing. Blue for everything else. |
| CallDetails.AnsweredByColor | src/components/CallDetailsModal.tsx:91-102 | Green exactly for `human`, yellow for `voicemail` and gray for `unknown`, compared after lower-casing. Blue for everything else. |
| CallDetails.ColoursIgnoreCase | src/components/CallDetailsModal.tsx:78-102 | Both colourings give the same answer for a value and its lower-cased form. |
| CallDetails.SpeakerLabel | src/components/CallDetailsModal.tsx:281-285 | The label is `Customer` exactly for the role `user`, and `Assistant` for every other role. |
| CallDetails.DetailsModal.constructor | src/components/CallDetailsModal.tsx:42-46 | The modal starts with no details, not loading and no error, and its effect has not yet run. |
| CallDetails.DetailsModal.View | src/components/CallDetailsModal.tsx:104-145 | A closed modal shows nothing. An open one shows the spinner exactly while loading. Otherwise it shows the error panel with the message exactly when an error is set, then the details panel when details are present, and otherwise an empty area. |
| CallDetails.DetailsModal.PropsChanged | src/components/CallDetailsModal.tsx:48-52 | At a commit, details are requested exactly when the effect runs (the first commit, or a change of `isOpen` or `callId`) with the modal open and a non-zero call id. A request sets loading and clears the error. Otherwise loading, error and requests are unchanged. |
| CallDetails.DetailsModal.BeginFetch | src/components/CallDetailsModal.tsx:54-56 | Sets loading, clears the error and records one request for the current call id. The modal then shows the spinner. |
| CallDetails.DetailsModal.FinishFetch | src/components/CallDetailsModal.tsx:57-65 | Success stores the details. Failure sets `Failed to load call details` and keeps the previous details. Loading ends either way. When open, a failure shows the error panel, and a success with no earlier error shows the details. |
| Text.ContainsIff | src/pages/CallHistoryPage.tsx:41-43 | `includes` holds exactly when the needle occurs at some position of the text. |
| Text.ParseIntToString | src/pages/CallHistoryPage.tsx:178 | The decimal rendering of an integer reads back as that integer. |
| Text.TwoDigits | src/components/CallDetailsModal.tsx:71 | A value below 100 padded with `0` has exactly two digits that read back as the value. |

## Left out

- Transport and async machinery: the axios instance, promises and awaits.
  Each backend answer is a `Reply` parameter (data, or an error with an
  optional status).
- Concurrency: the 5-second poll and its cleanup (src/pages/CallHistoryPage.tsx:22-27).
  Overlapping in-flight requests are also left out. Only their effect on
  the details modal's error is stated, in `FinishFetch`.
- Browser globals: `localStorage` and `window.location` are fields of
  `Session`, not real globals. `window.confirm` is the `confirmed` parameter
  of `BeginClearAll`.
- `logout()` of the auth context is not part of this model. The page only
  counts its invocations.
- Locale-dependent date formatting (`toLocaleDateString`, `toLocaleTimeString`,
  `toLocaleString`) and `price.toFixed(3)`. Both depend on locale or
  floating-point formatting.
- Floating point in general: durations are integers. `temperature` is the
  constant seven tenths.
- Lower-casing is ASCII-only. Full Unicode `toLowerCase` is not modelled.
- Strings are sequences of Unicode characters, while JavaScript's `length`,
  `substring`, `padStart` and `includes` count UTF-16 code units. For text
  outside the Basic Multilingual Plane the two differ: `ShortCallId` of an id
  of five emoji keeps all five, where `substring(0, 8)` keeps four.
- JSX rendering and DOM work: `window.open`, anchor downloads, console logging.
  The details modal's render is reduced to which panel it shows (`View`).
- The PDF request's `responseType: 'blob'` option. Binary bodies are not modelled.
- The untyped `localCall` and `responses` parts of the details answer are not modelled.
- The call-configuration page, the backup copies of the service and types,
  and the base-URL constant (src/config/api.ts) are not part of this model.
- CallHistory.FormatDuration: for a negative duration the model reproduces
  JavaScript's floor division and truncating remainder (`-1` gives `-1m -1s`).
  No property is stated for that case, because call durations are never
  negative.
- CallDetails.FormatDuration: the same holds for negative second counts.
  They are modelled but carry no stated property.
