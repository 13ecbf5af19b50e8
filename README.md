# Mr. Later client stores, modelled in Dafny

This project models the client-side state of the Mr. Later task app. It has
three stores and a plan-tier helper:

- the **auth store** (`store/authStore.ts`) holds the signed-in `user`, the
  `session`, the `profile` row, and the shared `isLoading` and `error` flags;
- the **task store** (`store/taskStore.ts`) holds the current user's `tasks`
  and the two flags;
- the **challenge store** (`store/challengeStore.ts`) holds the global
  `challenges`, the user's joined `userChallenges` and the two flags;
- the **plan constants** (`constants/plan.ts`) map a profile's plan column to
  a tier and give each tier's limits.

Each store is a Dafny class with the store's own fields. Each action is a
method. Every remote call of an action becomes a parameter: the gateway's
answer is given to the method, never computed by it. That answer is a
`Response<T>` (`Ok(rows)` or `Err(message)`) or an `Outcome` (`Done` or
`Failed(message)`). Actions name the user they act for with a
`currentUser: Option<UserId>` parameter; `AuthStore.CurrentUserId()` is the
value they are meant to get. These actions return what they send as an
out-parameter, so "no remote call was made" can be stated:

- `CreateTask`: the row inserted;
- `DoLater` and `UpdateProfile`: the update sent;
- `JoinChallenge` and `LeaveChallenge`: the participants list persisted;
- `SignUp`: the profile row inserted;
- `FetchProfile`: the id the profile is selected by.

`UpdateTask` and `DeleteTask` always send their `(id, updates)` and `id`, and
return nothing. `FetchTasks` and `FetchUserChallenges` skip their select when
there is no user (store/taskStore.ts:41, store/challengeStore.ts:55) and
return nothing either: their unchanged state is what shows that no call was
made. The fresh read of the challenge row inside `JoinChallenge` and
`LeaveChallenge` is not returned.

Auth actions that re-throw return `raised: Option<string>`, the message
re-thrown. The task and challenge actions catch every gateway error into
`error`, so they have no such result. (The task store's failure to obtain the
user, described under "Left out", is outside its `try`.)

The list operations are JavaScript's `filter`, `map` and `find`. They are
recursive functions in `Seqs`, with lemmas that say what each keeps, drops
and reorders (`seqs.dfy`). A due date is a local calendar day plus an opaque
time of day. `doLater` adds one day by the `setDate(getDate() + 1)` rollover
(`Calendar.AddOneDay`). That is proved to be exactly the next day, checked
against an independent count of days since year 0.

The auth store keeps an invariant, `AuthStore.Valid()`: a profile or session
is only held together with a user. Every action preserves it.

Behaviour of the code that is easy to misread:

- `signOut` clears the identity fields only when the remote sign-out
  succeeds (store/authStore.ts:155-161).
- Task mutations record gateway errors in `error` and do not re-raise them
  (store/taskStore.ts:55-58, 79-82, 97-100, 115-118).
- `createTask` stamps the owner id on the client (store/taskStore.ts:69-72).
- A successful join appends the row as it was read, before the user was
  added (store/challengeStore.ts:107). The joined entry's participants
  therefore do not list the user until the next fetch. `JoinChallenge`
  states this.

## Model

| member | source | states |
|---|---|---|
| Seqs.Filter | store/taskStore.ts:113 | a filtered list is never longer than the original |
| Seqs.Map | store/taskStore.ts:95 | a mapped list has the original's length |
| Seqs.Find | store/taskStore.ts:124 | `find` returns an element of the list that satisfies the predicate, and returns nothing exactly when no element does |
| Seqs.FindFirst | store/taskStore.ts:124 | the element found is the first that satisfies the predicate |
| Seqs.FilterMembers | store/taskStore.ts:113 | an element is in the filtered list exactly when it was in the list and is kept |
| Seqs.FilterAppend | store/taskStore.ts:113 | filtering distributes over concatenation, so kept elements keep their relative order |
| Seqs.FilterKeepsAll | store/challengeStore.ts:134 | a filter that keeps every element returns the list unchanged |
| Seqs.FilterCount | store/challengeStore.ts:134 | a filter keeps every occurrence of a kept value and none of a dropped one |
| Seqs.MapAt | store/taskStore.ts:95 | position k of a mapped list is the image of position k |
| Calendar.AddOneDayIsNextDay | store/taskStore.ts:128-130 | the `setDate(getDate()+1)` rollover moves the day count forward by exactly one, across month ends, year ends and 29 February |
| Calendar.DayNumberInjective | store/taskStore.ts:128-130 | the reference day count identifies a calendar date uniquely |
| Calendar.AddOneDayUnique | store/taskStore.ts:128-130 | any date one day after d is AddOneDay(d), so the increment is the next calendar day and nothing else |
| Calendar.AddOneDayExamples | store/taskStore.ts:128-130 | 2024-03-01 → 03-02; 2024-02-28 → 02-29; 2023-02-28 → 03-01; 1900-02-28 → 03-01; 2000-02-28 → 02-29; 2024-12-31 → 2025-01-01 |
| Plan.GetPlanTier | constants/plan.ts:14-16 | the tier is pro exactly when the plan is the string "pro"; null, absent and every other string give free |
| Plan.TierName | constants/plan.ts:1 | reading a tier's own name back gives that tier |
| Plan.GetPlanTierIdempotent | constants/plan.ts:14-16 | applying getPlanTier to its own output changes nothing |
| Plan.ProLimitsDominate | constants/plan.ts:3-12 | the limits are free 50 tasks / 2 challenges and pro 10000 / 1000, and no tier's limit exceeds pro's or falls below free's |
| Auth.MergeProfileOverrides | store/authStore.ts:210 | merging a partial profile overwrites exactly the keys it holds and keeps every other field |
| Auth.MergeProfileIdempotent | store/authStore.ts:210 | merging the same partial profile twice equals merging it once |
| Auth.AuthStore.constructor | store/authStore.ts:36-40 | the initial state has no user, session or profile; isLoading is true and error is null |
| Auth.AuthStore.FetchProfile | store/authStore.ts:180-197 | with no user nothing changes; success replaces the profile; failure sets only error; isLoading is never touched; the row is selected by the current user's id |
| Auth.AuthStore.Initialize | store/authStore.ts:42-70 | a stored session sets session and user and loads the profile; no stored session leaves the identity as it was; a rejected read records the error and registers no listener; loading ends false |
| Auth.AuthStore.OnAuthStateChange | store/authStore.ts:57-64 | a null session clears user, session and profile; a session sets session and user and reloads the profile; the loading flag is untouched |
| Auth.AuthStore.SignIn | store/authStore.ts:72-91 | failure records and re-raises the message and leaves the identity unchanged; success stores the returned session and user, then loads the profile; loading ends false |
| Auth.AuthStore.SignUp | store/authStore.ts:119-149 | a returned user causes the insert of a profile `{id: user id, name, email, avatar_url: null}`; if sign-up or the insert fails, the error is recorded and re-raised and no identity is set; on success session and user are set and the profile is loaded |
| Auth.AuthStore.SignOut | store/authStore.ts:151-164 | user, session and profile are cleared exactly when the remote sign-out succeeds; a failure keeps them, records the error and is not re-raised |
| Auth.AuthStore.ResetPassword | store/authStore.ts:166-178 | a failure is recorded and re-raised; the identity fields are never touched |
| Auth.AuthStore.UpdateProfile | store/authStore.ts:199-216 | with no user or profile there is no remote call and the profile is unchanged, yet error is cleared and loading ends false; success makes the profile the old one with the updated keys overwritten |
| Tasks.MergeOverrides | store/taskStore.ts:95 | `{ ...task, ...updates }` overwrites exactly the keys the update holds and keeps every other field |
| Tasks.MergeCompose | store/taskStore.ts:95 | two successive merges equal one merge with the combined patch, where the later patch's keys win |
| Tasks.MergeIdempotent | store/taskStore.ts:95 | merging the same update twice equals merging it once |
| Tasks.PatchedAt | store/taskStore.ts:94-96 | a successful update keeps the length, merges into every task with the id, and leaves every other task identical |
| Tasks.PatchedAbsent | store/taskStore.ts:94-96 | an update whose id no local task has leaves the list unchanged |
| Tasks.WithoutMembers | store/taskStore.ts:112-114 | after a delete no task has the id, and a task remains exactly when it was there with another id |
| Tasks.WithoutAppend | store/taskStore.ts:112-114 | delete distributes over concatenation, so the remaining tasks keep their relative order |
| Tasks.WithoutAbsent | store/taskStore.ts:112-114 | deleting an id no local task has leaves the list unchanged |
| Tasks.PatchedKeepsOwner | store/taskStore.ts:94-96 | if every task belongs to one user and the update does not reassign user_id, they all still do afterwards |
| Tasks.WithoutKeepsOwner | store/taskStore.ts:112-114 | a delete never introduces a task of another user |
| Tasks.FindPicksFirst | store/taskStore.ts:124 | doLater acts on the first local task with the id |
| Tasks.DeferredTask | store/taskStore.ts:128-135 | the deferred task is status later, due one calendar day later at the same time of day, and unchanged in every other field |
| Tasks.TaskStore.constructor | store/taskStore.ts:35-37 | the store starts with no tasks, not loading, and no error |
| Tasks.TaskStore.FetchTasks | store/taskStore.ts:39-60 | with no user nothing changes, not even isLoading; success replaces the tasks wholesale with the rows or with empty; failure keeps them and sets error; loading ends false |
| Tasks.TaskStore.CreateTask | store/taskStore.ts:62-84 | the row sent is the fields stamped with the current user's id; success appends the returned row, so the old list is a prefix and the length grows by one; with no user there is no call and no change |
| Tasks.TaskStore.UpdateTask | store/taskStore.ts:86-102 | success keeps the length, merges the update into each task with the id and leaves the others identical; failure keeps the list and sets error; nothing is re-raised |
| Tasks.TaskStore.DeleteTask | store/taskStore.ts:104-120 | success leaves exactly the tasks with another id, in the same order; failure keeps the list and sets error |
| Tasks.TaskStore.DoLater | store/taskStore.ts:122-139 | for an id absent locally there is no call and no change; for an unparseable due date the engine's range-error message is recorded and there is no call; otherwise it performs the update with status later and the next day's date |
| Tasks.TaskStore.SubscribeToTasks | store/taskStore.ts:141-165 | with no user no channel is opened; otherwise the channel listens on the tasks table filtered to `user_id=eq.<id>` |
| Challenges.WithParticipantsAt | store/challengeStore.ts:104-106 | patching participants keeps the length and replaces only the participants of the entries with the id; other entries are identical |
| Challenges.WithoutUserCounts | store/challengeStore.ts:134 | the list after leaving has no occurrence of the user and every other participant as often as before |
| Challenges.WithoutUserAppend | store/challengeStore.ts:134 | the remaining participants keep their relative order |
| Challenges.WithoutUserAbsent | store/challengeStore.ts:134 | leaving a challenge the user is not in leaves the participants list equal to the original |
| Challenges.WithoutChallengeMembers | store/challengeStore.ts:148 | after leaving, the joined list has no entry with the id and keeps every other entry |
| Challenges.OccurrencesAppend | store/challengeStore.ts:107 | appending the joined row adds exactly one entry with its id |
| Challenges.ChallengeStore.constructor | store/challengeStore.ts:29-32 | both lists start empty, not loading, and no error |
| Challenges.ChallengeStore.FetchChallenges | store/challengeStore.ts:34-51 | success overwrites challenges only; failure keeps it and sets error; loading ends false |
| Challenges.ChallengeStore.FetchUserChallenges | store/challengeStore.ts:53-73 | with no user nothing changes; success overwrites userChallenges only; failure sets error |
| Challenges.ChallengeStore.JoinChallenge | store/challengeStore.ts:75-115 | a user already in the fresh row causes no write and no list change; otherwise `participants ++ [user]` is persisted with the user exactly once, and on success only the entries with the id get it while the row as read is appended to userChallenges; a failed read or write and a missing user leave both lists unchanged |
| Challenges.ChallengeStore.LeaveChallenge | store/challengeStore.ts:117-155 | the persisted list is the fresh participants without the user and equals the original when the user was absent; on success userChallenges loses every entry with the id and other challenges entries are untouched; failures leave both lists |
| Challenges.JoinTwice | store/challengeStore.ts:92-107 | joining twice is joining once: the second join sends no write and leaves both lists as the first join left them (the matching entries with `participants ++ [user]`, the row appended once), so the user is listed exactly once and userChallenges holds exactly one entry with the id |

## Left out

- The current user of the task store as the code is written: `store/taskStore.ts:3` imports `AuthProvider`, which `store/authStore.ts` does not export, and lines 40, 63 and 142 call it outside any `try`. As written, each call throws a TypeError, so `fetchTasks` and `createTask` reject on every call, and `subscribeToTasks`, which is not async, throws synchronously to its caller; none of them touches the store or `error`. The model follows the evident intent instead: the user is a parameter, as the challenge store reads the auth store's user.
- Tasks.TaskStore.DoLater: the text of the range error thrown when an invalid date is formatted is the JavaScript engine's own wording, so the model takes it as the parameter `formatError` rather than fixing a string.
- The gateway's request and response wire format, and the change-feed channels: gateway results are method parameters. The subscription callbacks only rerun `FetchTasks`, or `FetchChallenges` and `FetchUserChallenges`, and `unsubscribe` is a library call.
- `subscribeToChanges` (store/challengeStore.ts:157-178): it only creates a change-feed channel and a callback made of the two fetches.
- Server-side ordering (`order('due_date')`, `order('start_date')`) and server-side filtering by owner or participant: the gateway does these. The model claims no local sorting, and `CreateTask` does not re-sort.
- Asynchronous interleaving of in-flight actions: each method runs one action to completion. The intermediate `isLoading: true` is written but cannot be observed.
- `signInWithGoogle` and the module-level `WebBrowser.warmUpAsync()` (store/authStore.ts:33, 93-117): an external browser flow.
- The email and password arguments of `signIn` and `resetPassword`, and the password of `signUp`: they only go to the identity service.
- The `error` field of the stored-session read, which `initialize` ignores. A failed read that does not reject is `Ok(None)`.
- Tasks.TaskStore.DoLater: time zones, daylight saving, the ISO string form of the due date, and the runtime's date range limit (about ±275 000 years) are not modelled. The due date is a local calendar day with a time of day that is kept.
- UI screens, components, navigation, the payment edge functions and the build configuration: they do not belong to the stores.
