# jieyou-backend in Dafny

A model of the business rules of jieyou-backend, the Go server behind a
habit-tracking mini-program, with proofs about them. Users sign in once a day
or record a "break" (a relapse). They can view a calendar of their record and
two leaderboards, and chat with a language model acting as a counsellor. Every
evening at 20:30 a sweep sends a one-shot WeChat subscription reminder to each
authorised user who has recorded nothing that day.

The database is an in-memory `Store.Database` object holding the four tables
(`users` keyed by openid, `sign_records`, `chat_records`, `subscriptions`).
Whether an insert succeeds is a boolean parameter. "Today" and "now" are
parameters. The language model, the WeChat token endpoint and the send
endpoint are oracles.

Modules, in dependency order:

- `Basics`: `Option` and `Result`.
- `Text`: substring search and ASCII lower-casing, the two string operations
  the chat filter uses.
- `Dates`: Gregorian `(year, month, day)` dates, their text form
  "2006-01-02", and `nextDay`, with both round trips proved.
- `Store`: the records of `internal/db/models.go`, the table queries the
  handlers issue (counts, `WHERE user_id`, the sign-row delete), and the
  `Database` class with its invariant: distinct user ids, one sign row per
  user per day, and at most ten user messages per user per day. The handlers
  keep this invariant under two conditions: each count query they rely on
  succeeds, and requests are handled one at a time (see "Left out").
- `Ledger`: `getOrCreateUserByOpenID`, `SignInHandler` and `BreakHandler` as
  methods on the database.
- `Calendar`: the three loops of `CalendarHandler` (totals, current streak,
  per-date calendar). Each loop is proved against a fold over the records.
  Lemmas show what each fold means: totals count exactly their type; the
  calendar marks a date "break" if any break falls on it; the streak never
  exceeds the number of signs; totals and calendar do not depend on row order.
- `Ranking`: the rank / top-10 / self-entry post-processing shared by
  `MonthRankHandler` and `TotalRankHandler`.
- `Chat`: the admission checks of `ChatHandler` in the handler's order, the
  conversation context, the handler itself, and `ChatHistoryHandler`.
- `Notification`: the package-level access-token cache as a class whose
  lookup method updates it, the template-message sender, and the sign-in
  reminder.
- `Scheduler`: `CheckAndSendReminders` as a loop over the subscription table,
  and the next-run time of `StartScheduler`.

## Model

| member | source | states |
|---|---|---|
| Text.ContainsIff | internal/logic/router.go:315 | The substring scan that stands for `strings.Contains` returns true exactly when the word occurs at some position of the text (both directions). |
| Text.Lower | internal/logic/router.go:315 | Lower-casing keeps the length and maps each code point to its lower-case form (ASCII letters only). |
| Text.CaseInsensitiveMatch | internal/logic/router.go:315 | Checking the lower-cased text for an all-lower-case word finds every spelling of that word, whatever the case of its letters. |
| Dates.DaysInMonth | internal/logic/router.go:166-169 | A month has 28 to 31 days, and 29 exactly for February of a Gregorian leap year. |
| Dates.Succ | internal/logic/router.go:166-169 | The day after a valid date is a valid, later date, and no valid date lies strictly between the two. |
| Dates.Format | internal/logic/router.go:168 | The "2006-01-02" text of a date with a four-digit year is ten characters long. |
| Dates.Parse | internal/logic/router.go:167 | Every text the layout accepts yields a valid date with a four-digit year; anything else is an error. |
| Dates.ParseFormat | internal/logic/router.go:167-168 | Parsing the text form of a valid date with a four-digit year gives back that date. |
| Dates.FormatParse | internal/logic/router.go:167-168 | Every accepted text is exactly the text form of the date it parses to. |
| Dates.NextDayOfFormat | internal/logic/router.go:166-169 | `nextDay` of a date's text is the text of the next calendar date. |
| Dates.NextDayOfMalformed | internal/logic/router.go:167 | `nextDay` of text the layout rejects ignores the error and returns "0001-01-02", the day after Go's zero time. |
| Store.CountOnZero | internal/logic/router.go:57-58 | A count of rows for (user, date, type) is zero exactly when no such row exists. |
| Store.RemoveSignsInvisible | internal/logic/router.go:91 | The delete of a user's sign rows is invisible to any query that selects only other rows (another user's rows, the user's breaks): same rows, same order. |
| Store.RemoveSignsShrinks | internal/logic/router.go:91 | The delete never raises any (user, date, type) count. |
| Store.RecordsOf | internal/logic/router.go:110 | A row is among the user's rows exactly when it is in the table and belongs to that user (both directions). |
| Store.HistoryOf | internal/logic/router.go:321 | A chat row is in a user's history exactly when it is in the table and belongs to that user. |
| Store.HistoryAppend | internal/logic/router.go:319-321 | A row just stored for a user is the last row of that user's history, after the earlier history. |
| Store.FindUser | internal/logic/router.go:369 | The lookup by openid finds a user exactly when the openid is present, and it returns the stored user. |
| Store.Database.constructor | internal/db/models.go:7-34 | The database starts with empty tables, with user ids starting at 1, and satisfies the invariant. |
| Ledger.GetOrCreateUser | internal/logic/router.go:367-381 | An existing user is returned unchanged and its nickname is not updated. A missing one is inserted with the next id, openid and nickname when the insert succeeds. Otherwise nothing changes and the result is an error. The users table ends exactly as `Ledger.ResolvesUser` states. No other table changes. |
| Ledger.SignKeepsOnePerDay | internal/logic/router.go:55-66 | Adding a sign row for a (user, day) with none keeps at most one sign row per user per day. |
| Ledger.BreakKeepsOnePerDay | internal/logic/router.go:85-92 | Deleting a user's sign rows and adding a break row keeps at most one sign row per user per day. |
| Ledger.SignIn | internal/logic/router.go:41-68 | 400 without an openid, with no user created. Otherwise the users table is updated as for `getOrCreateUserByOpenID`: an unknown openid gets a new user when that insert succeeds. 500 when the user cannot be resolved; 400 when a sign row already exists today, with the table unchanged. Otherwise exactly one sign row for (user, today) is appended, or 500 with the table unchanged when the insert fails. The database invariant is kept. |
| Ledger.Break | internal/logic/router.go:71-94 | The same errors and the same users-table effect as sign-in, with no "already" case. On success the table is the old table with every sign row of the user removed, plus today's break row; on a failed insert it is unchanged. |
| Calendar.CountKindIsMultiplicity | internal/logic/router.go:119-125 | Each total is the multiplicity of its type among the records' types, so records of any other type count toward neither. |
| Calendar.StreakAtMostSigns | internal/logic/router.go:127-142 | `current_streak` never exceeds `total_sign`. |
| Calendar.BreakResetsStreak | internal/logic/router.go:128-131 | After a break, only the sign records that follow it can count toward the streak. |
| Calendar.StreakOfConsecutiveSigns | internal/logic/router.go:133-139 | Over a run of sign records on consecutive days, the streak is the run's length and ends on the last date. |
| Calendar.CalendarMeaning | internal/logic/router.go:145-154 | Whatever the order of the records, a date maps to "break" exactly when some break has that date. It maps to "sign" exactly when it has signs and no break. It is absent when it has neither. |
| Calendar.CountKindIgnoresOrder | internal/logic/router.go:110-125 | The totals are the same for every order of the same records. |
| Calendar.CalendarIgnoresOrder | internal/logic/router.go:110-154 | The totals and the calendar map are the same for every order in which the store returns the same rows. |
| Calendar.NoSignsAfterSignDelete | internal/logic/router.go:91 | After the delete, the user's records contain no sign row. |
| Calendar.BreaksSurviveSignDelete | internal/logic/router.go:91 | The delete keeps every break row of the user. |
| Calendar.CalendarAfterBreak | internal/logic/router.go:85-92 | Right after a successful break the user's calendar shows no signs, one more break than before, a streak of 0 ending today, and today marked "break". |
| Calendar.Stats | internal/logic/router.go:113-154 | The three loops compute the sign total, the break total, the current streak and the calendar exactly as the folds define them. |
| Calendar.HandleCalendar | internal/logic/router.go:97-163 | 400 without an openid; 404 for an unknown user (no user is created). Otherwise the user's rows as the store returns them, with their totals, streak and calendar. |
| Ranking.FirstIndexOf | internal/logic/router.go:210-215 | The viewer's index is that of the first row of their user id, and no row of theirs comes earlier; with no row, no row has their id. |
| Ranking.RankBoard | internal/logic/router.go:192-224 | Ranks 1..n in query order, and the first min(10, n) entries. The viewer's first entry is flagged in place when its index is below 10; otherwise a flagged copy with its own rank is appended as entry 11. With no openid or an unknown user nothing is flagged. `TotalRankHandler` (lines 250-281) runs the same code. |
| Chat.BannedMeaning | internal/logic/router.go:315 | A message is refused as sensitive exactly when "openai" occurs in its lower-cased text or "system" occurs in it as written. |
| Chat.Screen | internal/logic/router.go:305-318 | In order: refused with "今日已达上限" exactly when 10 or more messages were sent today; with "消息过长" exactly when it is within the limit but longer than 500 code points; with "消息包含敏感内容" exactly when it passes both and is banned. It is admitted exactly when it passes all three checks. |
| Chat.ContextOf | internal/logic/router.go:325-333 | The context has one turn more than the history: the role prompt first, then each stored row in order. User rows become user turns and replies become model turns. |
| Chat.BuildContext | internal/logic/router.go:326-333 | The loop filling the conversation memory produces exactly that context. |
| Chat.ContextEndsWithRequest | internal/logic/router.go:319-333 | The message just stored is the last turn of the context, right after the user's earlier history. |
| Chat.AdmittedKeepsDailyLimit | internal/logic/router.go:304-319 | Storing an admitted message and the model's replies keeps every user within ten messages per day. |
| Chat.HandleChat | internal/logic/router.go:289-346 | 400 without openid or content, with no user created. Otherwise the users table is updated as for `getOrCreateUserByOpenID`. 500 when the user cannot be resolved; the screening refusals with the chat table unchanged. An admitted message is stored (with no message id) before the model is asked. The model sees the role prompt and the user's history ending with that message. A model error is 500, with only the user message stored; a reply is stored after it and returned with 200. |
| Chat.HandleHistory | internal/logic/router.go:349-364 | 400 without an openid; 404 for an unknown user; otherwise exactly that user's chat rows in storage order. |
| Notification.FetchResult | internal/logic/notification.go:54-72 | A token request succeeds exactly when a response was decoded with `errcode == 0`. A non-zero `errcode` is an API error carrying code and message. |
| Notification.LookupResult | internal/logic/notification.go:45-80 | A fresh cache yields the cached token. Otherwise the result is the fetched token or the fetch's error. |
| Notification.LookupState | internal/logic/notification.go:45-80 | A lookup leaves the cache as it was when the token is fresh or the fetch fails. Otherwise the cache holds the fetched token, the time of the fetch and the new lifetime. |
| Notification.TokenCache.constructor | internal/logic/notification.go:38-42 | The cache starts with the zero values: empty token, time 0, lifetime 0. |
| Notification.TokenCache.GetAccessToken | internal/logic/notification.go:45-80 | A fresh non-empty token is returned without fetching. A failed fetch leaves all three fields unchanged. A successful one stores (token, now, expires_in) and returns the new token. |
| Notification.FreshWindow | internal/logic/notification.go:47 | A set token is reused exactly while less than `expires_in` − 300 seconds have passed since it was fetched. |
| Notification.EmptyTokenNeverFresh | internal/logic/notification.go:47 | An empty token is never reused, so a lookup with it always fetches. |
| Notification.PostResult | internal/logic/notification.go:103-124 | A send succeeds exactly when a response was decoded with `errcode == 0`. A non-zero `errcode` is an error carrying code and message. |
| Notification.SendTemplateMessage | internal/logic/notification.go:83-125 | Without a token nothing is posted and the token error is returned. Otherwise the message with `touser` = openid, the template id, the page and the data is posted, and the response decides the result. |
| Notification.ReminderDataKeys | internal/logic/notification.go:129-134 | The reminder data has exactly the four keys `thing1`, `thing2`, `time3`, `thing4`. |
| Notification.ReminderDataValues | internal/logic/notification.go:130-133 | Each key maps "value" to its text: the title, the body, the send time, the note. |
| Notification.SendSignInReminder | internal/logic/notification.go:128-137 | The reminder is that data, sent to page `pages/index/index`. |
| Scheduler.RemindOne | internal/logic/scheduler.go:33-72 | A reminder is attempted exactly for an authorised subscription whose two count queries succeed with zero sign and zero break rows today. An attempt spends the authorisation whether or not the send succeeds. A skipped or failed-query subscription is unchanged, and then nothing is sent and the token cache is untouched. An attempt performs one token lookup, which leaves the cache as `Notification.LookupState` says. If that lookup fails nothing is posted and the attempt fails. Otherwise exactly one message is posted, and the attempt succeeds exactly when the send endpoint accepts it. |
| Scheduler.Sweep | internal/logic/scheduler.go:30-73 | Each subscription ends as `RemindOne` says, and nothing else in the database changes. `reminderCount` is the number of due subscriptions. A subscription is posted to exactly when it is due and the token lookup, on the cache as the earlier lookups of the sweep left it (`CacheAfter`), yields a token (`PostsAt`). The posted messages are those subscriptions' reminders, in table order. `successCount` is the number of posts the send endpoint accepted, so at most `reminderCount`. The cache ends as the sweep's lookups leave it. |
| Scheduler.PostsWhenFetchSucceeds | internal/logic/scheduler.go:55-57 | A due subscription whose token request would succeed is posted to, whatever the cache holds: the sweep never skips a send it could make. |
| Scheduler.FetchedTokenIsReused | internal/logic/notification.go:45-80 | After a due subscription fetches a token, the next due subscription inside that token's refresh window is posted to with the cached token, and its lookup leaves the cache as it was. |
| Scheduler.CheckAndSendReminders | internal/logic/scheduler.go:11-76 | With no database, or a failing subscription query, nothing happens, nothing is sent and the cache is untouched. Otherwise the sweep runs with all of its guarantees above, including which subscriptions are posted to and the final cache, and no table other than `subscriptions` changes. |
| Scheduler.NextRun | internal/logic/scheduler.go:85-91 | The next run is at 20:30, at or after now and less than a day ahead. |
| Scheduler.NextRunIsEarliest | internal/logic/scheduler.go:85-91 | No 20:30 lies between now and the next run. |

## Left out

- `ChatRecord.MsgID` exists (internal/db/models.go:33) but no handler ever sets it. The model stores every chat row with an empty message id.
- The language model is an oracle from (context, message) to a reply or an error. internal/logic/hunyuan_api.go, the langchaingo conversation chain, its window buffer of 10 messages and the 600-token reply limit are not part of this model. The message just stored is both the last turn of the context and the chain's input; the model records this and does not say what the chain does with it.
- HTTP routing, JSON binding and the JSON bodies of replies are not modelled; a reply is a status code and the error or success text. A malformed request body is treated like a missing field (the same 400).
- The database is an in-memory model. Primary keys and `created_at` timestamps of records are not modelled: insertion order stands for `created_at` order, and a chat row carries the day it was stored.
- The leaderboard's aggregate query (`GROUP BY user_id ORDER BY count DESC`, the month filter) is not modelled. Its rows are an input to `Ranking.RankBoard`.
- Calendar.HandleCalendar: takes the rows of the date-ordered query as an input, required to be the user's rows in some order. Sorting by date is the store's job. How rows with equal dates are ordered is not controlled by the handler, and only the streak depends on it.
- A user lookup error other than "record not found" is folded into a failed insert, since both end in the same 500 reply.
- Ledger.Break: the error of the sign-row delete is ignored by the handler, so in the model the delete always succeeds.
- Chat.HandleChat: the error of the insert of the user's message is ignored by the handler, so in the model it always succeeds. The reply's insert is modelled the same way.
- Lower-casing is ASCII-only. Unicode case folding of `strings.ToLower` is not modelled.
- Go's `time.Parse` accepts a signed year such as "-001-01-01". The model treats any non-digit year as a parse failure.
- Time is whole seconds of local time with fixed 24-hour days. Time zones, daylight saving, sub-second precision and `time.Duration` overflow are not modelled. `GetWxAccessToken` reads the clock twice; the model uses one `now` for both.
- The goroutine and `time.Sleep` loop of `StartScheduler`, and all logging, are not modelled; only the next-run computation is.
- The JSON encoding and the HTTP round trips to the WeChat API are not modelled. Each request's outcome is an input: transport, read or parse failure, or a decoded response.
- Ledger.SignIn: the error of the count at internal/logic/router.go:57 is ignored, so a failed count reads as 0 and a second sign row for the day can be inserted. The model has the count always succeed. It also handles requests one at a time, while gin serves them concurrently and no unique key covers (user_id, date, type), so two simultaneous sign-ins can both pass the check. `OneSignPerDay` is proved only under those two conditions.
- Chat.HandleChat: the error of the count at internal/logic/router.go:306 is ignored, so a failed count bypasses the daily limit. The model has the count always succeed and handles requests one at a time, while concurrent requests can all pass the check before any insert. `WithinDailyLimit` is proved only under those two conditions. The failed read of the history (line 321) is not modelled either.
- Calendar.HandleCalendar: the failed read of the user's rows (internal/logic/router.go:110-111) is not modelled; the rows always arrive. The same holds for the chat-history read of `Chat.HandleHistory` (line 362).
- Scheduler.Sweep: the errors of the two `Save` calls (internal/logic/scheduler.go:60-61 and 68-69) are ignored by the code; in the model the spent authorisation is always written back.
- The column size limits of `internal/db/models.go` (openid 64, nickname 32, date 10, type 8) are not modelled.

