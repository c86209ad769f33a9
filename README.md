# Next Gen Sports Lab coach: the bookkeeping core in Dafny

The application is a Streamlit sports-coaching app. Behind its pages sit four small pieces of state-keeping logic. This project models them and proves what they guarantee:

- **The progression ledger.** `get_xp`, `award_xp` and `_check_badges` keep one XP record per user: points, level, badges, meal and exercise counters, and the last login day. The notification helpers (`add_notif`, `unread`, `mark_read`) and the day tracker (`ensure_tracker`, `DEFAULT_EX`) sit beside the ledger. The water, exercise, food, feedback and daily-login handlers feed all three.
- **The request dispatcher.** `get_ai_response` is modelled with the network abstracted away. The outcome of each of the (at most three) HTTP requests is an input, and so are the clock readings. The model covers the key check, the cooldown check, the five-turn context window, the retry loop and the mapping of errors to replies.
- **Accounts.** This part covers `verify_password` (plaintext or digest storage), `submit_login`, and `submit_signup` with its ordered checks.
- **The API key lookup.** `get_gemini_key` checks the secrets store before the environment, and `GEMINI_API_KEY` before `GOOGLE_API_KEY`.

Layout:

- `wrappers.dfy` holds `Option`.
- `text.dfy` holds Python's `str.strip()` and the decimal rendering used in f-strings.
- `progression.dfy` holds the ledger as values. It has the badge table, the reward and level tables, the badge sweep, the notification book and every lemma about them.
- `activity.dfy` holds the tracker.
- `dispatcher.dfy` holds `get_ai_response` as a function of its inputs, plus the retry loop as a method proved equal to it.
- `accounts.dfy` holds the sign-up and login rules.
- `session.dfy` holds `st.session_state` as the class `Coach.Session`. Every dictionary the application mutates in place is a `map` field that the methods reassign. Each method states its whole new state in terms of the functions of the other modules.

`hash_password` (SHA-256) is a parameter `hash: string -> string`. Timestamps produced by `datetime.now().strftime` are opaque `stamp`/`today` strings passed in. `time.time()` readings are `real` inputs: `now` at the call, and `clockAfter` when a cooldown is written.

Where the code and its description disagree, the model follows the code:

- **Level.** The level is the number of `LVL_XP` entries at or below the total. Because `LVL_XP[0] = 0`, a fresh record's level 1 agrees with this. The level is not "one plus" that count.
- **Sign-up stripping.** `submit_signup` strips only the name, username and email. The password and its confirmation are checked for emptiness as typed, not stripped.
- **Feedback badge.** The feedback handler appends `feedback_giver` directly, with no notification of its own.
- **Meal counting.** The food handler counts the meal after `award_xp` has checked the badges, and it does not check again (`Progression.FifthMealWithoutBadge`).
- **Badge list in `_check_badges`.** The source appends to the record's badge list in place. `Coach.Session.CheckBadges` appends to a copy and stores it back at the end. No step in between reads the record, so the difference cannot be observed.

## Model

| member | source | states |
|---|---|---|
| Text.TrimStart | app.py:458 | the result is a suffix of the input that does not start with whitespace, and every character dropped is whitespace |
| Text.TrimEnd | app.py:458 | the result is a prefix of the input that does not end with whitespace, and every character dropped is whitespace |
| Text.IsSpace | app.py:458 | the characters Python's `str.strip()` removes, i.e. those for which `str.isspace()` holds |
| Text.Strip | app.py:458-459 | `str.strip()` never lengthens a string, and neither end of its result is whitespace |
| Text.StripIsMiddle | app.py:458-459 | `str.strip()` returns a contiguous middle of `s`, and everything before it and after it is whitespace |
| Text.StripEmptyIffBlank | app.py:1026 | `s.strip()` is empty exactly when every character of `s` is whitespace (both directions) |
| Text.StripIdempotent | app.py:159 | stripping an already stripped text changes nothing |
| Text.NatToString | app.py:581 | `{pts}` in an f-string is a non-empty run of decimal digits with no leading zero, denoting exactly `pts` |
| Progression.BadgeIdsDistinct | app.py:367-376 | the eight `BADGES_DEF` keys are pairwise distinct, so badges may be held as values rather than key strings |
| Progression.Points | app.py:384 | the points of an award: the explicit `pts` when given, else the `XP_REWARDS` entry of the action, else 0 |
| Progression.RewardTable | app.py:377 | without an explicit amount the actions are worth 10, 25, 10, 8, 30 and 20 points, as in `XP_REWARDS` |
| Progression.LevelOf | app.py:385-386 | the level a total leads to: the number of `LVL_XP` thresholds at or below it (see the lemmas below) |
| Progression.LvlXpAscending | app.py:378 | `LVL_XP` is ascending, has 11 entries and starts at 0 |
| Progression.CountAllWhenLastReached | app.py:385-386 | in an ascending table, reaching the last threshold means reaching all of them |
| Progression.CountIsThreshold | app.py:385-386 | the count of reached thresholds is a cut: entries before it are reached and the entry at it is not |
| Progression.CountMonotone | app.py:385-386 | more points never reach fewer thresholds |
| Progression.LevelBounds | app.py:378 | for a non-negative total the level lies between 1 and 11 |
| Progression.LevelMonotone | app.py:385-386 | the level never drops when the total grows |
| Progression.LevelIsHighestReached | app.py:385-386 | the level is the highest position whose threshold the total has reached |
| Progression.ScanThresholds | app.py:385-386 | the `for i,t in enumerate(LVL_XP)` loop over any ascending table leaves the count of reached thresholds, or the old level when none is reached |
| Progression.RecomputeLevel | app.py:385-386 | for a non-negative total the loop leaves the level equal to the number of `LVL_XP` entries at or below the total; for a negative total the level is untouched |
| Progression.NoDupIffDistinct | app.py:391-393 | the "each entry absent from those before it" invariant is equivalent to all positions holding distinct badges |
| Progression.Grant | app.py:391-393 | `g(bid)`: append the badge when its line's condition holds and it is absent, else leave the list as it is |
| Progression.GrantNoDup | app.py:391-393 | `g(bid)` appends only an absent badge and so never creates a repeat |
| Progression.FreshRecordOk | app.py:380-381 | the record `get_xp` creates has level 1 = the level formula at 0 XP, no badges and zero counters |
| Progression.LedgerOkUpdate | app.py:380-381 | storing a valid record for one user keeps every record of the ledger valid |
| Progression.GrantStep | app.py:391-393 | one `g(bid)` keeps the earlier badges as a prefix and pushes exactly one notification, for that badge, when it appends |
| Progression.Qualifies | app.py:395-402 | the condition guarding each badge's line; `feedback_giver` has none, so the sweep never grants it |
| Progression.Sweep | app.py:395-402 | the badge list after the first `k` guarded lines, tried in the order of `Progression.CheckOrder` (chat, exercises, meals, level 5, level 10, xp, water) |
| Progression.SweepExtends | app.py:389-402 | the sweep never removes or reorders a badge: the old list is a prefix of the new |
| Progression.SweepNoDup | app.py:389-402 | a sweep over a list without repeats leaves a list without repeats |
| Progression.SweepMembers | app.py:395-402 | after the sweep a badge is held exactly when it was held before or it is on the sweep's list and its predicate holds |
| Progression.SweepNoChange | app.py:389-402 | a sweep whose satisfied badges are all held already appends nothing |
| Progression.SweepIdempotent | app.py:389-402 | a second sweep with the same counters appends nothing |
| Progression.AddPoints | app.py:384-386 | the record with the points added and the level recomputed by the `LVL_XP` loop; a negative total keeps its level |
| Progression.Recheck | app.py:389-402 | `_check_badges` changes only the badge list, and the old list is a prefix of the new |
| Progression.RecheckMembers | app.py:395-402 | after `_check_badges` the badges held are exactly those held before plus those whose predicate holds: chat ≥ 1, exercises ≥ 5, meals ≥ 5, level ≥ 5, level ≥ 10, xp ≥ 200, water ≥ 2000 |
| Progression.Award | app.py:383-387 | `award_xp` adds exactly the points, leaves the meal, exercise and login fields unchanged, and keeps the earlier badges as a prefix |
| Progression.AwardKeepsOk | app.py:383-387 | an award keeps a valid record valid (level formula, no repeated badge, non-negative counters) and never lowers its level |
| Progression.GrantKeepsOk | app.py:1139 | the feedback handler's direct append keeps a valid record valid |
| Progression.RecheckOk | app.py:1091-1092 | re-checking a valid record after a counter grows keeps it valid and keeps the earlier badges |
| Progression.RecheckIdempotent | app.py:1056 | the water button's extra `_check_badges` right after `award_xp` changes nothing |
| Progression.QualifiesMonotone | app.py:395-402 | no badge predicate turns false when xp, level, meals, exercises, chat length and water all grow or stay |
| Progression.PlusMeal | app.py:1028 | the record with `meals_logged` one higher |
| Progression.PlusExercise | app.py:1091 | the record with `exercises_done` one higher |
| Progression.WithBadge | app.py:1139 | the record with a badge appended unless it is already held |
| Progression.LoggedInOn | app.py:453-454 | the record with today's date as `last_login` |
| Progression.FifthMealWithoutBadge | app.py:1028 | a fifth meal leaves `meals_logged` at 5 without the nutrition badge, which the next award grants |
| Progression.AwardCommutes | app.py:383-387 | two awards in either order give the same total, the same level and the same set of badges |
| Progression.BadgeMessage | app.py:393 | the text of a badge's notification: icon, " Badge: **", title, "** — ", description |
| Progression.BadgeNotices | app.py:391-393 | the badges appended in one sweep push one notification each, the last one appended at index 0 |
| Progression.BadgeNoticesSnoc | app.py:391-393 | one more appended badge pushes exactly one entry, in front of the earlier ones |
| Progression.BadgeNoticesAppend | app.py:391-393 | the entries for badges appended in two rounds are the later round's followed by the earlier round's |
| Progression.BadgeNoticesChain | app.py:1090-1092 | the entries for badges appended across two successive sweeps combine the same way |
| Progression.Push | app.py:434-435 | inserting at the front puts the new entries first, keeps the user's earlier entries after them in order, and leaves every other user's list untouched |
| Progression.PushPush | app.py:434-435 | two front insertions in a row are one insertion of the later entries ahead of the earlier ones |
| Progression.UnreadCount | app.py:436 | `unread` never exceeds the number of notifications |
| Progression.UnreadZeroIffAllRead | app.py:436-438 | `unread` is 0 exactly when every entry is read |
| Dispatcher.EitherKey | app.py:32 | `m.get("GEMINI_API_KEY") or m.get("GOOGLE_API_KEY")`, a missing or empty entry counting as false |
| Dispatcher.Configured | app.py:65 | the key is usable: neither empty nor the placeholder `your-gemini-api-key-here` |
| Dispatcher.GeminiKey | app.py:30-37 | the key returned is always stripped |
| Dispatcher.KeyPrecedence | app.py:30-37 | the secrets store's `GEMINI_API_KEY`, then its `GOOGLE_API_KEY`, then the environment in the same order |
| Dispatcher.BlankSecretShadowsEnvironment | app.py:32-34 | a secret made only of whitespace is chosen and strips to the empty key, even when the environment has one |
| Dispatcher.LastN | app.py:120 | `chat_history[-5:]` keeps the last `min(len, 5)` turns, in order |
| Dispatcher.RoleFor | app.py:121 | a stored turn's role "user" is sent as "user", every other role as "model" |
| Dispatcher.ToContent | app.py:121-122 | one stored turn becomes one contents entry with the mapped role and the turn's text |
| Dispatcher.ToContents | app.py:120-122 | one entry per turn, in order |
| Dispatcher.BuildContents | app.py:119-123 | `contents` holds at most 6 entries: the last ≤ 5 turns in order, with "user" kept and any other role sent as "model", then the new message as the final "user" entry |
| Dispatcher.Reply.Message | app.py:66-179 | the text `get_ai_response` returns for each outcome, with the wait seconds, status code and truncated error detail filled in |
| Dispatcher.Truncate | app.py:175 | `str(e)[:100]` is the prefix of exactly `min(len, 100)` characters |
| Dispatcher.SuccessReply | app.py:153-162 | a response whose status `raise_for_status` accepts (not 404 or 429) never retries: it answers, reports an empty response, or raises when the body is not JSON of the expected shape |
| Dispatcher.AttemptStep | app.py:132-162 | one iteration retries exactly on a timeout, a connection error or a 429 before the last attempt |
| Dispatcher.RunFrom | app.py:132-163 | the loop from iteration `i` on, read as recursion, with the request count |
| Dispatcher.Handle | app.py:164-179 | a returned reply passes through; an escaped exception never becomes an answer, "busy" or the empty-response reply, and sets the cooldown exactly when it is an HTTP 429 |
| Dispatcher.WaitSeconds | app.py:73-75 | `max(int(retry_after - now), 1)`: the whole number of seconds left when at least one second is left, and exactly 1 otherwise |
| Dispatcher.Respond | app.py:63-179 | `get_ai_response` as a function: at most three requests, and a request carries at most six contents entries |
| Dispatcher.RunAttempts | app.py:132-163 | the `for attempt in range(3)` loop computes the same exit and request count as `Dispatcher.RunFrom`, the loop read as a recursive function |
| Dispatcher.RunEnds | app.py:132-163 | the loop makes 1 to 3 requests and always returns or raises; it never reaches the "busy" line; no timeout, connection error or 429 escapes it |
| Dispatcher.FirstDecisiveAttempt | app.py:132-163 | the first attempt that does not retry decides the result, after exactly that many requests |
| Dispatcher.ShortCircuit | app.py:64-75 | no request is made exactly when the key is missing or the placeholder, or `now < retry_after`; the wait shown is at least 1 second |
| Dispatcher.UnreachableReplies | app.py:163-174 | the "busy" reply and the outer timeout, connection and 429 replies are never returned |
| Dispatcher.AllTimeouts | app.py:135-139 | three timeouts make three requests and return the timed-out-after-retries message |
| Dispatcher.AllConnectionErrors | app.py:140-144 | three connection errors make three requests and return the network message |
| Dispatcher.AllRateLimited | app.py:145-150 | three 429s make three requests and return the rate-limit reply, which sets the cooldown |
| Dispatcher.NotFoundStops | app.py:151-152 | a 404 after retryable failures ends the loop at once with the model-unavailable reply |
| Dispatcher.StepAnswerStripped | app.py:153-162 | one attempt answers only with a non-empty stripped text |
| Dispatcher.LoopAnswerStripped | app.py:132-162 | every answer the loop returns is non-empty and stripped |
| Dispatcher.AnswerIsStripped | app.py:154-162 | the reply text of `get_ai_response` is never empty and carries no surrounding whitespace |
| Accounts.VerifyPassword | app.py:196-198 | `verify_password`: an empty stored value fails; otherwise plaintext or digest equality |
| Accounts.LoginAccepted | app.py:449-451 | the login decision: the stripped name is a known user and the password verifies against its stored value |
| Accounts.SignupDecision | app.py:457-463 | the three sign-up checks in order, the first failure's message winning |
| Accounts.NewAccount | app.py:464 | the stored account: the digest of the password, the stripped name and email, an empty profile |
| Accounts.VerifyPasswordModes | app.py:196-198 | an empty stored value never matches; otherwise both plaintext and digest storage match, and nothing else does |
| Accounts.SignupAcceptedIff | app.py:457-463 | a sign-up is accepted exactly when name, username and email are not blank, the password is non-empty and equals the confirmation, and the stripped username is free |
| Accounts.SignupThenLogin | app.py:448-466 | after an accepted sign-up the new user logs in with the same password, and every other user's login is decided as before |
| Coach.Session.constructor | app.py:350-359 | a new session: the loaded users, no current user, empty errors, empty ledger, notifications, trackers and chat histories, and no cooldown (0.0) |
| Coach.Session.Unread | app.py:436 | `unread`: the number of the user's notifications not yet read, 0 for a user without any |
| Coach.ExerciseDoneMessage | app.py:1092 | the exercise notification `✅ +{pts} XP — {name}` |
| Coach.FoodLoggedMessage | app.py:1029 | the food notification `🍎 +{pts} XP — {fn} ({cal} kcal)` |
| Coach.FeedbackMessage | app.py:1139-1140 | the feedback notification `📨 +{pts} XP — {cat} feedback received!` |
| Coach.Session.GetXp | app.py:380-381 | `get_xp` returns the existing record unchanged, or stores and returns the fresh one |
| Coach.Session.AddNotif | app.py:434-435 | a new unread entry goes to index 0 of the user's list; the list grows by one and `unread` by one |
| Coach.Session.MarkRead | app.py:437-438 | every entry becomes read with its message, time and kind unchanged; the length and the other users are unchanged; `unread` becomes 0 |
| Coach.Session.GrantBadge | app.py:391-393 | `g(bid)` appends an absent badge and pushes its notification, or does nothing |
| Coach.Session.TryBadge | app.py:395-402 | one guarded line of `_check_badges` advances the sweep by one badge and pushes the notification for it |
| Coach.Session.SweepFirstLines | app.py:395-398 | the first four lines of `_check_badges` perform the first four steps of the sweep |
| Coach.Session.SweepBadges | app.py:389-402 | the seven lines leave the re-checked badge list and push one notification per badge appended |
| Coach.Session.CheckBadges | app.py:389-402 | `_check_badges` stores the re-checked record, keeps the old badges as a prefix and pushes one notification per badge appended |
| Coach.Session.AwardXp | app.py:383-387 | `award_xp` returns `pts`, else the table's points, else 0; it stores the awarded record, pushes the badge notifications and keeps the ledger valid |
| Coach.Session.EnsureTracker | app.py:439-443 | a new user gets an empty food log, zero water and `DEFAULT_EX` stamped now; a known user's tracker is untouched |
| Coach.Session.AddWater | app.py:1053-1056 | a water button (150, 250, 500 or 750 ml) adds `amt` ml, awards `amt // 60` points, and its extra badge check adds nothing |
| Coach.Session.RecheckAgain | app.py:1056 | the second `_check_badges` after `award_xp` leaves the ledger and the notifications unchanged |
| Coach.Session.CountExercise | app.py:1091 | one more exercise is counted; the rest of the ledger is unchanged |
| Coach.Session.CountAndRecheck | app.py:1091-1092 | the exercise is counted, then the badges are re-checked with the new count |
| Coach.Session.AwardExercise | app.py:1090-1092 | the exercise award adds 25 points, counts the exercise, re-checks, then announces the points after the badge entries |
| Coach.Session.CompleteExercise | app.py:1088-1092 | "mark done" completes exactly that exercise and performs the award above |
| Activity.Drink | app.py:1056 | the tracker with the water total raised by the amount |
| Activity.LogMeal | app.py:1027 | the tracker with the food entry appended to the log |
| Activity.MarkDone | app.py:1090 | the tracker with exercise `i` completed |
| Coach.Session.CountMeal | app.py:1028 | one more meal is counted; the rest of the ledger is unchanged |
| Coach.Session.AwardMeal | app.py:1028-1029 | the food award adds 10 points and counts the meal after the badge check; the announcement goes in front of the badge entries |
| Coach.Session.LogFood | app.py:1025-1029 | a blank name changes nothing; otherwise the entry, with its own "HH:MM" time, is appended to the food log and the meal is awarded as above |
| Coach.Session.GiveFeedbackBadge | app.py:1139 | the feedback badge is appended if absent, with no notification |
| Coach.Session.SubmitFeedback | app.py:1136-1140 | blank comments change nothing; otherwise 30 points are awarded, the feedback badge is appended and the points are announced |
| Coach.Session.SubmitLogin | app.py:448-455 | a failed login only sets the error; a successful one selects the stripped user and awards 20 points only on the first login of the day |
| Coach.Session.SubmitSignup | app.py:457-466 | the first failed check sets its message and changes nothing else; otherwise exactly one user is added, with the digest of the password, and becomes current |
| Coach.Session.GetAiResponse | app.py:63-179 | the reply, the request count and the contents sent are those of `Dispatcher.Respond` applied to the stripped key; the cooldown becomes `clockAfter + 45` exactly when a 429 reply sets it |

## Left out

- All page rendering, CSS and HTML, dialogs, the startup animation and `navigate_to`/`st.rerun` routing: none of it holds state the core reads.
- User-file I/O (`load_users_from_file`, `save_users_to_file`, `_ensure_users_file`), `get_startup_bg_style` and logging. The user map is the constructor's argument.
- The SHA-256 digest: `hash_password` is the parameter `hash`.
- `requests.post`, the URL and payload, the system prompt built from the profile, and `time.sleep` back-off: each request is an `Outcome` input. `Dispatcher.Body` states which JSON shapes give an answer, an empty reply or an exception.
- Float arithmetic. Clock values are exact `real`s, so `int(retry_after - now)` is `Floor` on a difference that is positive on that path. The progress-bar percentages (`xp_bar`, the sidebar and tracker bars) are not modelled.
- The chat page handler (`chat_msg` awards, appends to the chat history) and every other caller of `add_notif` outside the handlers above. The chat history is a field that only the badge sweep reads.
- The tracker's reset-water, delete-entry and add-custom-exercise buttons, and the onboarding flow that fills the profile.
- The sidebar "mark done" button (app.py:578-581) acts on the first unfinished exercise. `Coach.Session.CompleteExercise` takes the index, which covers it.
- `get_gemini_key`'s `str(key)` of a non-string secret value: secrets are modelled as strings.
- Text.Strip: its own ensures only bounds the length and the two ends. `Text.StripIsMiddle` proves the full statement that the result is the middle of `s` with only whitespace around it. It is kept out of `Strip`'s contract because every proof that uses `Strip` would then carry it.
- One `stamp` stands for the time of every notification a handler pushes, while each `add_notif` call reads `datetime.now()` afresh. Two calls within one handler run can differ by a minute boundary, and the model does not capture that.
- Accounts.SignupThenLogin: requires the digest of the password to be non-empty. A SHA-256 hex digest always is, but `hash` is an arbitrary parameter here.
