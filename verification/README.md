# DevConnector profile API and alert reducer — a verified model

This project models two small pieces of the DevConnector application:

- the profile routes of the Express API (`routes/api/profile.js`): how the
  create-or-update request is validated, how its body is turned into a
  profile document (optional fields copied only when supplied, `skills`
  split on commas and trimmed, a `social` sub-object holding only the links
  supplied), how that document is applied to the profile collection (`$set`
  over the caller's profile, or inserted as a new one), how experience
  entries are added (`unshift`) and removed (`splice` at `indexOf`), and how
  a lookup by user id is answered;
- the Redux alert reducer (`client/src/reducers/alert.js`).

Files:

- `wrappers.dfy` — `Option`, with `None` standing for JavaScript `undefined`.
- `strings.dfy` — module `Strings`: `split` on one character and `trim`,
  with the ECMAScript whitespace and line-terminator code points.
- `profiles.dfy` — module `Profiles`: request and document datatypes,
  validation, the document builder, `$set`/insert, the experience list
  edits, lookup classification, as functions with the lemmas about them.
- `profile_store.dfy` — module `ProfileRoutes`: class `ProfileStore`
  holding the collection as `map<UserId, Profile>`, one method per route
  handler that reads or writes it.
- `alerts.dfy` — module `Alerts`: the reducer's `switch`, the exported
  reducer as written and as evidently intended.

The authenticated user id, the identifier the database gives a new
experience entry and the kind of error a failing query raises are
parameters of the handlers.

Behaviour modelled as the code has it, where a reader might expect
something else:

- Removing an experience entry whose id is not in the list is not a no-op:
  `indexOf` gives -1 and `splice(-1, 1)` removes the last entry
  (`Profiles.WithoutExperience`, `Profiles.RemoveMissingIdDropsLast`).
  An empty list is left unchanged.
- Adding an experience entry when the caller has no profile answers with a
  server error (reading `experience` of a missing profile throws), not a
  "not found" answer.
- The add-experience handler has no `return` after answering 400 on a
  validation failure, so the entry is still put first in the list and
  saved (`ProfileRoutes.ProfileStore.AddExperience`).
- `$set` with a `social` object replaces the stored `social` as a whole:
  stored links that an update does not repeat are dropped, while absent
  top-level fields keep their stored values
  (`Profiles.UpdateDropsOmittedLinks`, `Profiles.UpdateKeepsTopLevelFields`).

## Model

| member | source | states |
|---|---|---|
| `Strings.Split` | routes/api/profile.js:62 | `split(',')` yields at least one piece and no piece contains the separator |
| `Strings.SplitCount` | routes/api/profile.js:62 | the number of pieces is the number of separators plus one (empty pieces kept) |
| `Strings.JoinSplit` | routes/api/profile.js:62 | joining the pieces with the separator gives back the input |
| `Strings.SplitJoin` | routes/api/profile.js:62 | splitting a join of separator-free pieces gives back the pieces |
| `Strings.Trim` | routes/api/profile.js:62 | `trim()` leaves no whitespace at either end and never lengthens |
| `Strings.TrimSurrounded` | routes/api/profile.js:62 | whitespace around a core without end whitespace is removed and the core kept exactly |
| `Strings.TrimDecomposes` | routes/api/profile.js:62 | every string is its trim with whitespace before and after |
| `Strings.TrimmedIsFixed` | routes/api/profile.js:62 | a string without end whitespace is unchanged by `trim()` |
| `Strings.TrimIdempotent` | routes/api/profile.js:62 | trimming twice equals trimming once |
| `Profiles.Check` | routes/api/profile.js:31-32 | one `not().isEmpty()` rule: no error iff the value is present and non-empty, otherwise exactly its own error |
| `Profiles.ValidateProfile` | routes/api/profile.js:30-37 | no errors iff `status` and `skills` are both non-empty; each rule's error listed iff its field is missing, as many errors as missing fields, only these two rules, in declaration order |
| `Profiles.ValidateExperience` | routes/api/profile.js:157-165 | no errors iff title, company and from are all non-empty; each rule's error listed iff its field is missing, as many errors as missing fields, only these three rules, in the order title, company, from |
| `Profiles.ParseSkills` | routes/api/profile.js:62 | the skills list has one entry per comma plus one, each trimmed and comma-free |
| `Profiles.ParseSkillsPieces` | routes/api/profile.js:62 | the input is the comma-join of `pre[i] + r[i] + post[i]` with whitespace `pre[i]`, `post[i]`: each skill is its comma-separated piece with only end whitespace removed |
| `Profiles.SkillsExample` | routes/api/profile.js:62 | `"js, node "` becomes `["js", "node"]` |
| `Profiles.SkillsRoundTrip` | routes/api/profile.js:62 | a comma-joined list of trimmed, comma-free skills parses back to that list |
| `Profiles.BuildSocial` | routes/api/profile.js:64-71 | each social link is present iff supplied non-empty, and then equals the input; the repeated youtube assignment changes nothing |
| `Profiles.BuildFields` | routes/api/profile.js:53-71 | `user` is the caller; each optional field is present iff supplied non-empty and then equals the input; `skills` present iff supplied, then its parse; `social` always present |
| `Profiles.ValidatedFieldsHaveRequired` | routes/api/profile.js:30-62 | after validation passes the document always carries the request's `status` and its parsed `skills` |
| `Profiles.NewProfile` | routes/api/profile.js:84-85 | an inserted profile holds exactly the built document, with an empty experience list |
| `Profiles.Merge` | routes/api/profile.js:77-81 | `$set`: keys the document carries overwrite, absent top-level keys keep their stored value, `social` is replaced whole, experience untouched |
| `Profiles.InsertIsMergeIntoBlank` | routes/api/profile.js:74-86 | inserting a new profile equals `$set` over an empty profile of the same user |
| `Profiles.MergeIdempotent` | routes/api/profile.js:77-81 | repeating the same update changes nothing more |
| `Profiles.UpdateKeepsTopLevelFields` | routes/api/profile.js:53-81 | an update never clears a stored top-level field, whatever the request omits |
| `Profiles.UpdateDropsOmittedLinks` | routes/api/profile.js:65-81 | after an update every social link the request did not supply is absent |
| `Profiles.Upsert` | routes/api/profile.js:74-86 | only the caller's entry changes: merged when a profile existed, the new document otherwise |
| `Profiles.NewExperience` | routes/api/profile.js:175-183 | the new entry carries the given identifier and every request field as sent, present or not |
| `Profiles.WithExperience` | routes/api/profile.js:175-188 | `unshift`: new entry at index 0, length plus one, every old entry one position later, other fields unchanged |
| `Profiles.AddTwice` | routes/api/profile.js:188 | adding A then B gives `[B, A]` before the old entries |
| `Profiles.Ids` | routes/api/profile.js:206 | `map(item => item.id)`: one id per entry, position by position |
| `Profiles.IndexOf` | routes/api/profile.js:206 | `indexOf` gives the first position holding the value, or -1 exactly when it is absent |
| `Profiles.SpliceOne` | routes/api/profile.js:207 | `splice(start, 1)`: for `-n <= start < n` the entry at `start` (counted from the end when negative) is removed and the rest keep their order; `start >= n` removes nothing; `start < -n` removes the first entry |
| `Profiles.WithoutExperience` | routes/api/profile.js:206-207 | the first entry with the id is removed, the rest kept in order; with no such entry the last entry is removed; other fields unchanged |
| `Profiles.RemovePresentIdShortens` | routes/api/profile.js:206-207 | removing an id that occurs shortens the list by exactly one |
| `Profiles.RemovePresentIdGone` | routes/api/profile.js:206-207 | with distinct ids, a removed id no longer occurs |
| `Profiles.RemoveMissingIdDropsLast` | routes/api/profile.js:206-207 | removing an id that does not occur from a non-empty list drops its last entry |
| `Profiles.ClassifyLookup` | routes/api/profile.js:112-126 | found profile gives 200; not found and a malformed id (`ObjectId` error) give the same 400 message; any other error gives 500 |
| `ProfileRoutes.ProfileStore.CreateOrUpdate` | routes/api/profile.js:30-91 | invalid request: the error list and no store change; otherwise the store becomes the upsert of the built document and the new profile is returned |
| `ProfileRoutes.ProfileStore.AddExperience` | routes/api/profile.js:157-195 | with a profile the entry is prepended even when validation failed; the answer is the 400 list if validation failed, else the profile, or 500 when there is no profile |
| `ProfileRoutes.ProfileStore.DeleteExperience` | routes/api/profile.js:201-214 | with a profile, its experience becomes the splice at `indexOf` and the profile is returned; without one, 500 and no change |
| `ProfileRoutes.ProfileStore.ProfileOfUser` | routes/api/profile.js:112-126 | the caller gets the stored profile of that user, the shared "no profile" message for a missing profile or malformed id, or 500 |
| `Alerts.Without` | client/src/reducers/alert.js:16 | the filter keeps exactly the alerts of the state whose id differs, never lengthening |
| `Alerts.WithoutAppend` | client/src/reducers/alert.js:16 | the filter distributes over concatenation, so kept alerts stay in their original order |
| `Alerts.WithoutIdempotent` | client/src/reducers/alert.js:16 | removing the same id twice equals removing it once |
| `Alerts.WithoutCounts` | client/src/reducers/alert.js:16 | each alert with another id keeps its multiplicity; alerts with the id are all gone |
| `Alerts.Switch` | client/src/reducers/alert.js:10-19 | `SET_ALERT` appends the payload keeping the prefix; `REMOVE_ALERT` with an id is the filter and never lengthens, with any other payload it returns the state (no alert id equals it); any other type returns the state |
| `Alerts.Reducer` | client/src/reducers/alert.js:4-19 | as written the result is the given state, or the empty initial state, whatever the action |
| `Alerts.SetAlertIsLost` | client/src/reducers/alert.js:7 | as written, setting an alert on the empty state leaves it empty, where the intended reducer yields that alert |
| `Alerts.IntendedReducer` | client/src/reducers/alert.js:4-19 | on the given state, or the empty initial state: `SET_ALERT` appends the payload, `REMOVE_ALERT` with an id filters that id out, with another payload or any other type the state is returned |
| `Alerts.SetThenRemove` | client/src/reducers/alert.js:11-16 | setting an alert and then removing its id leaves the other alerts, in order |
| `Alerts.RemoveTwice` | client/src/reducers/alert.js:14-16 | through the reducer, removing the same id twice equals removing it once |

## Findings

| source | as written | input that shows it | evidently intended | confidence | as-written member | corrected member |
|---|---|---|---|---|---|---|
| client/src/reducers/alert.js:7 | `type` and `payload` are destructured from the string `'action'`, so both are undefined and every action reaches the default case | state `[]`, action `{type: SET_ALERT, payload: a}` returns `[]` | destructure the `action` parameter, so `SET_ALERT` yields `[a]` | high; not executed | `Alerts.SetAlertIsLost` | `Alerts.IntendedReducer` |

## Left out

- `Alerts.Switch`: a `SET_ALERT` action whose payload is not an alert object is excluded by its precondition, because the state is modelled as a list of alerts; the action creator always sends an alert.
- The action type constants come from `actions/types.js`, which is not part of this model; they are taken to be the distinct strings `"SET_ALERT"` and `"REMOVE_ALERT"`.
- The get-own-profile route (lines 12-24), the list-all route (97-106) and the delete-profile-and-user route (133-151): lookups with `populate` joins and the account-deletion cascade on another collection, outside the modelled core.
- `populate('user', ['name', 'avatar'])` joins and the answers' JSON shape.
- Database read or write failures other than the lookup fault of the profile-by-user route: the other handlers' 500 branches for such failures are not modelled.
- The profile schema (`models/Profile.js` is not part of this model): `save` is taken to succeed, so a schema validation failure after the add-experience 400 is not modelled; ObjectId generation is a parameter.
- The error the add-experience handler raises when it answers a second time after its 400 ("headers already sent"); the client sees the 400.
- Request values other than strings (numbers, arrays) and JavaScript truthiness beyond "present and non-empty"; `current` is an optional boolean copied as is.
- Express routing, the `auth` middleware, `express-validator` internals beyond the non-empty check, `console.error`.
- The read-then-write between `findOne` and `findOneAndUpdate` is not atomic; concurrent requests are out of scope of this sequential model.
- Education and GitHub routes are not part of this source file and not part of this model.
- The React components (`Register.js`, `Login.js`, `layout/Alert.js`) and `server.js`: rendering, form state and process start-up.
- `Strings.Trim`: the whitespace set is the ECMAScript one for a fixed Unicode version.
