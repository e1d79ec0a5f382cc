# AutoPulse core logic in Dafny

AutoPulse is a React Native dashboard for vehicle telemetry backed by a hosted auth/database
service. This project models its deterministic logic and proves properties of it:

- **Session manager** (`Auth`, from `hooks/useAuth.tsx`). The class `SessionManager` holds the
  four state cells `isAuthenticated`, `user`, `vehicles` and `currentVehicle`. Its methods are
  `SignIn`, `SignUp` (with the fallback sign-in and the profile upsert), `SignOut`,
  `RefreshVehicles`, `SetCurrentVehicle`, the start-up `Restore` and the `OnAuthStateChange`
  listener. Each service reply is a parameter. Each operation returns the service calls it made,
  in order. `Valid()` states that the app is authenticated exactly when a user is set, and every
  method preserves it.
- **Health scoring** (`Health`, from `app/predictHealth.tsx`). This covers the status and colour
  bands, the `|| 0` readings and their averages, and the fault-code test. The three sub-scores
  are fixed deductions from 100, followed by the rounded overall score and the ordered
  recommendation list. `AnalyzeData` builds the result imperatively, as the screen does, and is
  proved equal to the specification `Assessment`. `HealthScreen` models the
  `loading`/`analyzing` flags and the empty-data guard.
- **Connection probe** (`Probe`, from `app/settings/raspberry.tsx`). `ConnectionProbe` holds
  `status`, `lastSync` and the abort handle. `CheckConnection` starts a probe, `Settle` delivers
  how its two requests settled, and `StopConnection` aborts the probe in flight.
- **Support chat** (`SupportChat`, from `app/settings/customer-service.tsx`). This covers the
  conversation filter, `isUser`, the insert-error classification, and `ChatScreen` with
  `OnSend`, `LoadMessages` and the admin lookup.
- **Display name** (`Profile`, from `app/profile.tsx`).
- `JsString` models the JavaScript string built-ins this code relies on: `trim` with the
  ECMAScript whitespace set, `split(sep)[0]`, `includes`, `toLowerCase` and string truthiness.
  `Opt` is the `T | null` option type.

The model follows the code, including these points where the code does less than one might expect:

- A `signIn` whose reply has neither an error nor a user succeeds without signing anyone in
  (hooks/useAuth.tsx:63-67).
- `signOut` awaits the service call without a `try`. The model treats that call as returning,
  which is what the service SDK does, so local state is always cleared.
- The selected vehicle is not required to be one of `vehicles`. A refresh keeps an existing
  selection even when the new list does not contain it (`Auth.SelectionOutlivesRefresh`).

## Model

| member | source | states |
|---|---|---|
| JsString.Trim | hooks/useAuth.tsx:39-40 | `trim()` leaves a slice of the input with only whitespace cut from either end; that slice neither starts nor ends with whitespace, and it is empty exactly when the input is blank |
| JsString.BeforeFirst | app/profile.tsx:12 | `split(sep)[0]` is the longest prefix free of `sep`: it is a prefix, it has no `sep`, and the input's next character (if any) is `sep` |
| JsString.ToLower | app/settings/customer-service.tsx:90 | lower-casing keeps the length, leaves no upper-case ASCII letter, and keeps every character equal to the input's up to case |
| JsString.Contains | app/settings/customer-service.tsx:90 | `includes(t)` holds exactly when `t` occurs in the string at some offset |
| Auth.Validate | hooks/useAuth.tsx:38-52 | the checks run in order: a blank identifier gives "Email is required", then a blank password gives "Password is required", then an untrimmed length below 6 gives the short-password error; otherwise nothing fails |
| Auth.PaddedPasswordPasses | hooks/useAuth.tsx:50 | the length rule counts padding: "ab" followed by four spaces passes, although trimming would leave two characters |
| Auth.CredentialsFor | hooks/useAuth.tsx:54-57 | the service receives the password unchanged and the trimmed identifier: a slice of it with only whitespace cut from either end, neither starting nor ending with whitespace, and empty exactly when the identifier is blank |
| Auth.ProfileUsername | hooks/useAuth.tsx:136 | the username is the trimmed identifier up to, not including, its first '@', and contains no '@' |
| Auth.ProfileFor | hooks/useAuth.tsx:133-139 | the upserted profile row has the new user's id, the trimmed identifier as e-mail, the derived username and role "user" |
| Auth.SessionManager.constructor | hooks/useAuth.tsx:33-36 | the session starts unauthenticated, with no user, no vehicles and no selection |
| Auth.SessionManager.SignIn | hooks/useAuth.tsx:38-68 | a rejected credential issues no call and changes nothing; otherwise exactly one sign-in call with the trimmed identifier; a service error is rethrown with its message and changes nothing; a reply with a user signs that user in; vehicles are untouched; `Valid()` is preserved |
| Auth.SessionManager.SignOut | hooks/useAuth.tsx:70-76 | one sign-out call, then not authenticated, no user, no vehicles and no selection, whatever the state was |
| Auth.SessionManager.RefreshVehicles | hooks/useAuth.tsx:78-97 | without a user id there is no call and no change; a failed query keeps both vehicle cells; a successful one replaces the list (a null reply reads as empty) and selects its first vehicle only when nothing was selected; the user cells never change |
| Auth.SessionManager.SignUp | hooks/useAuth.tsx:99-167 | validation as for sign-in; the calls are the sign-up, then the profile upsert when a user with an id came back, then the fallback sign-in unless a session and a user both came back; the result is "no confirmation needed" with that user signed in when sign-up returned a session and user or the fallback returned a user, else "confirmation required" with the session untouched; the upsert's outcome never matters |
| Auth.SessionManager.OnAuthStateChange | hooks/useAuth.tsx:192-205 | a session with a user signs that user in, keeps the vehicles and schedules a refresh; anything else clears all four cells |
| Auth.SessionManager.Restore | hooks/useAuth.tsx:173-188 | one session lookup, whose answer is applied with the same outcome as the listener |
| Auth.SessionManager.SetCurrentVehicle | hooks/useAuth.tsx:26 | the selection becomes the given vehicle (or none) with no check against the list, and nothing else changes |
| Auth.SelectionOutlivesRefresh | hooks/useAuth.tsx:90-93 | a vehicle selected before a refresh stays selected even when the fetched list does not contain it |
| Health.HealthStatusOf | app/predictHealth.tsx:24-30 | the status is the highest band (85, 70, 55, 40, then Critical) whose threshold the score reaches |
| Health.HealthColorOf | app/predictHealth.tsx:32-38 | the colour chain uses the same thresholds: the colour is that of the score's status band |
| Health.StatusMonotone | app/predictHealth.tsx:24-30 | a higher score never gets a lower band |
| Health.Reading | app/predictHealth.tsx:97-101 | a missing reading counts as 0 and a present one as itself |
| Health.SumNonNegative | app/predictHealth.tsx:112 | a reduce over readings that are all non-negative is non-negative |
| Health.AveragesOf | app/predictHealth.tsx:97-112 | the fuel-trim average is taken over absolute values, so it is never negative |
| Health.AnyFaultCodes | app/predictHealth.tsx:119 | `some` holds exactly when some row has a non-empty fault-code list |
| Health.EngineScore | app/predictHealth.tsx:104-108 | 100 minus 15, 10 and 10 for coolant, battery and load stays within [65, 100], so the clamp at 0 never applies |
| Health.FuelScore | app/predictHealth.tsx:113-116 | 100 minus 20 and 15 for pressure and fuel trim stays within [65, 100] |
| Health.EmissionScore | app/predictHealth.tsx:120-123 | 100 minus 25 and 10 for fault codes and load stays within [65, 100], and is at most 75 when a fault code is present |
| Health.RoundHalfUp | app/predictHealth.tsx:126 | `Math.round` gives the integer within one half of its argument, halves going up |
| Health.RoundOfInteger | app/predictHealth.tsx:140-142 | rounding an integer score gives it back unchanged |
| Health.OverallScore | app/predictHealth.tsx:126 | the rounded mean of three scores in [65, 100] lies in [65, 100], and three times it is within one of their sum (a sum of 3k+1 gives k, a sum of 3k+2 gives k+1) |
| Health.Candidate | app/predictHealth.tsx:130-136 | the `i`-th condition the screen tests is the recommendation of rank `i` |
| Health.SelectUpToSpec | app/predictHealth.tsx:130-137 | after the first `k` conditions the list holds exactly the recommendations of rank below `k` whose condition holds, in rank order |
| Health.Recommendations | app/predictHealth.tsx:130-137 | each recommendation is present exactly when its condition holds, and they come in the fixed order |
| Health.AtMostSeven | app/predictHealth.tsx:130-137 | an ordered recommendation list has at most seven entries |
| Health.AssessmentBounds | app/predictHealth.tsx:104-137 | every analysis has sub-scores and an overall score in [65, 100] and a status of Fair or better (never Poor or Critical); it has at most 7 recommendations; "below optimal" appears exactly when the overall score is below 70; a fault code in any row means an emission score of at most 75 and the trouble-code recommendation |
| Health.CollectRecommendations | app/predictHealth.tsx:130-137 | the seven conditional pushes produce exactly the specified recommendation list |
| Health.AnalyzeData | app/predictHealth.tsx:92-148 | the imperative scoring, clamping, rounding and pushing computes exactly the specified assessment |
| Health.FetchLatestTelemetry | app/predictHealth.tsx:40-61 | no vehicle id gives null with the "No Vehicle" alert; a failed query gives null with the "Error" alert; otherwise the rows, a null reply read as empty, with no alert |
| Health.HealthScreen.constructor | app/predictHealth.tsx:20-22 | the screen starts idle, with no result |
| Health.HealthScreen.AnalyzeVehicleHealth | app/predictHealth.tsx:63-90 | both flags end lowered on every path; non-empty data replaces the shown result with its assessment; null or empty data keeps the result and adds the "No Data" alert after the fetch's own alert |
| Probe.Seen | app/settings/raspberry.tsx:29-31 | once the controller is aborted, the awaited request rejects with an AbortError; otherwise its own outcome is seen |
| Probe.Verdict | app/settings/raspberry.tsx:28-53 | a settled probe is connected exactly when both responses are ok and the data parses; it is cancelled exactly on an AbortError from an awaited request; otherwise it is an error, and never still checking |
| Probe.StatusText | app/settings/raspberry.tsx:65-73 | every status has a non-empty label |
| Probe.StatusTextInjective | app/settings/raspberry.tsx:65-73 | distinct statuses have distinct labels |
| Probe.StatusColor | app/settings/raspberry.tsx:75-82 | idle and checking share the default grey, and only they get it |
| Probe.ConnectionProbe.constructor | app/settings/raspberry.tsx:15-17 | the probe starts idle, with no sync time and no controller |
| Probe.ConnectionProbe.CheckConnection | app/settings/raspberry.tsx:19-26 | nothing happens while a probe is checking; otherwise the status becomes checking, `lastSync` is cleared and a fresh, unaborted controller is installed |
| Probe.ConnectionProbe.StopConnection | app/settings/raspberry.tsx:59-63 | the controller is aborted exactly when one is installed; status and `lastSync` are unchanged |
| Probe.ConnectionProbe.Settle | app/settings/raspberry.tsx:28-56 | the root request is always made and the data request only after an ok root response; the status becomes the verdict on what was seen; `lastSync` is set only on success with a non-empty timestamp; the alert is raised exactly for an error; the controller is always dropped |
| Probe.StopAfterSettleIsInert | app/settings/raspberry.tsx:54-63 | after a probe has settled, stop reports that it aborted nothing and a new probe starts; the second probe also settles in a terminal state with no controller left |
| SupportChat.Conversation | app/settings/customer-service.tsx:55-59 | the conversation holds exactly the stored messages from the user to the admin or from the admin to the user when an admin is known, and the user's own messages otherwise |
| SupportChat.ConversationSides | app/settings/customer-service.tsx:116 | in a conversation with an admin, a message is drawn as the user's exactly when the admin did not send it; without an admin every message is the user's |
| SupportChat.ClassifyInsertError | app/settings/customer-service.tsx:88-97 | the no-admin text is set exactly when the lower-cased error contains both "null" and "recipient"; otherwise no text is set |
| SupportChat.ClassifyIgnoresCase | app/settings/customer-service.tsx:90 | "null" and "recipient" written in any case still give the no-admin text |
| SupportChat.ChatScreen.constructor | app/settings/customer-service.tsx:18-23 | the screen starts with an empty input, no messages, not sending, no error and no admin |
| SupportChat.ChatScreen.LoadAdmin | app/settings/customer-service.tsx:37-39 | the admin id becomes the id found, or none |
| SupportChat.ChatScreen.LoadMessages | app/settings/customer-service.tsx:46-61 | without a user id nothing changes; the list becomes the conversation only when the query returned data |
| SupportChat.ChatScreen.OnSend | app/settings/customer-service.tsx:76-113 | a blank input or a missing user id changes nothing; otherwise the untrimmed input goes from the user to the admin (or to no one), the input is cleared and `sending` ends false; an insert error sets the classified text and alerts exactly when there is none; a successful insert clears the error and refreshes the list only when the refetch returned data |
| Profile.DisplayName | app/profile.tsx:10-16 | without an e-mail the name is "Guest"; an e-mail starting with '@' gives "User"; otherwise the name is the non-empty part before the first '@'; the name never contains '@' |
| Profile.DisplayNameWithoutAt | app/profile.tsx:12 | an e-mail without '@' is shown whole |

## Left out

- Rendering, styles and navigation (the JSX, `StyleSheet`, `router` calls) are UI only.
- The service SDK, `fetch` and `Alert` are replaced by reply parameters and by returned call lists or alert flags. The query options `order('created_at')` and `limit(10)` belong to the service: the model keeps the conversation's membership filter but not its ordering.
- Timers are left out: the 100 ms delayed vehicle refresh (it appears only as the `refreshScheduled` result), the 4 s message polling and the 2 s analysis delay. So are the `isMounted` guards, the unsubscribe on teardown, and the effect that refreshes vehicles when `user?.id` changes (hooks/useAuth.tsx:214-218).
- Each handler is one atomic step. The order between the auth listener and an in-flight `signIn`/`signUp` is not modelled, and neither are handlers that read stale React state from an earlier render.
- Auth.SessionManager.SignOut: does not model a sign-out call that throws, which would skip clearing the local state.
- The profile upsert's `updated_at` clock value is not part of the modelled row. Date formatting (`toLocaleString`) is left out: `lastSync` holds the raw timestamp, and `lastUpdated` is a parameter.
- Averages are exact reals, not IEEE doubles, so a value exactly at a threshold may compare differently in JavaScript. Telemetry fields are optional numbers; non-numeric values of the untyped rows are not modelled. `avgRpm` and `avgMap` are computed by the screen but never read, so they are not modelled.
- Health.HealthScreen.AnalyzeVehicleHealth: the "Analysis Failed" alert is not modelled, because the modelled analysis cannot throw.
- JsString.ToLower: only ASCII letters are folded, not the whole Unicode case mapping.
- Auth.Validate: string length counts Unicode scalar values, not UTF-16 code units, so a password with characters outside the Basic Multilingual Plane is measured shorter than JavaScript measures it.
- Probe.ConnectionProbe.Settle: an abort is taken to reach every request still pending. An abort that arrives after both responses and the JSON body have been read is not modelled.
- Engine and emissions panels, the settings profile editor, the Flask API and the SDK client setup are not part of this model: they only fetch, format and store values.
