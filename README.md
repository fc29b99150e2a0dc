# DailyKind task rotation and client state, in Dafny

DailyKind hands out ten small acts of kindness a day. Two edge handlers run
on the server side. `POST /generate` (generate-tasks.js) builds and caches a
master list of 50 distinct tasks, rebuilding it every five days. `GET /daily`
(daily-tasks.js) serves that day's window of ten from it. On the phone, a
handful of small helpers keep the state behind the screens: the per-user map
of tasks done per date, the once-per-day random pick, the `User` object with
its friends and XP, the shared app state (sign-in, friends, challenges), and
the figures the profile, friends and login screens compute.

This project models that core and proves what it promises:

- `Text` models the JavaScript string operations the code relies on:
  `trim` with its full whitespace set, `toLowerCase` for ASCII and Latin-1
  letters, `split(/\s+/)` exactly as the engine splits, and `includes`.
- `KvStore` models the Vercel KV store as a class. It holds typed maps for
  arrays, numbers and sets, plus the expiry passed with each write.
- `DeviceStorage` models AsyncStorage as a class. It holds plain strings and
  decoded done-task maps.
- `GenerateTasks` models `canon`, `validateTasks`, `fetchCandidates` and the
  generation handler. The text provider is a `Generator` object that answers
  each request from a script. Any behaviour of the provider is some script.
- `DailyTasks` models the daily handler. That covers the day index, the
  window, the TTL to the next UTC midnight and the `daily:` key. When the
  master list is missing, it calls the generation handler itself.
- `DoneStorage` and `DailyRandom` model the two AsyncStorage helpers.
- `Users` models the `User` class. `AppContext` models the app state as a
  class with one method per operation.
- `ProfileScreen`, `FriendsScreen` and `LoginScreen` model the computations of
  those screens.

Clock readings are epoch-millisecond parameters. `Math.random` is a choice
the caller cannot control. The ISO week of a date string is a function
parameter.

Behaviour the model follows where the code differs from its own comments or
from an informal reading:

- `fetchCandidates` waits only after the first and second failures: 500 ms,
  then 1000 ms. The third failure is rethrown without a wait, although the
  comment at generate-tasks.js:33 mentions a 2 s step.
- At the exact instant of a UTC midnight, the TTL of the daily key is a full
  86400 s. So the TTL lies in [0, 86400], not [0, 86400).
- In the rebuild loop, `master.find` returns the matching task itself. An
  empty-string match is falsy, so the accumulator check lets it through. The
  history check then rejects it, so the items still have distinct canonical
  forms (`GenerateTasks.Consider`).
- `split(/\s+/)` counts pieces, not words. An item of fifteen words with a
  leading space splits into sixteen pieces and is rejected
  (`GenerateTasks.IndentedWordsCountOneMore`).
- `fetchDailyRandomTask` treats a stored empty string as "no pick yet". Its
  once-per-day promise therefore holds only for non-empty tasks.
- The final `validateTasks(master, count)` of the generation handler can
  never fail. The model proves this at that point of `GenerateTasks.Rebuild`.

## Model

| member | source | states |
|---|---|---|
| Text.TrimShape | generate-tasks.js:10 | `trim` yields a string with no whitespace at either end. It is the middle of the input, and what it drops on each side is all whitespace |
| Text.LowerShape | generate-tasks.js:10 | `toLowerCase` keeps the length and leaves no upper-case letter |
| Text.TrimLower | generate-tasks.js:10 | trimming and lower-casing commute |
| Text.PiecesOfJoin | generate-tasks.js:23 | splitting single-space-separated words on whitespace runs gives the words back |
| Text.PiecesOfIndentedJoin | generate-tasks.js:23 | a leading space adds an empty first piece before the words |
| GenerateTasks.CanonShape | generate-tasks.js:10 | a canonical form has no surrounding whitespace, no upper-case letter, and is no longer than its input |
| GenerateTasks.CanonIdempotent | generate-tasks.js:10 | `canon(canon(s)) == canon(s)` |
| GenerateTasks.IndentedWordsCountOneMore | generate-tasks.js:23 | k single-spaced words count as k pieces, and as k + 1 pieces behind a leading space |
| GenerateTasks.ValidateTasks | generate-tasks.js:13-29 | success exactly when the value is an array, of the expected length when one is given, with every item a string of at most 15 pieces and no two canonical forms equal. On success it returns the input unchanged. Otherwise it returns the first failing check: not an array, wrong length, or the error of the first item that breaks the conditions |
| GenerateTasks.Generator.Request | generate-tasks.js:36-64 | one provider request records the size asked for and consumes the next scripted answer |
| GenerateTasks.Attempt | generate-tasks.js:36-65 | one attempt makes exactly one request. It succeeds exactly when the answer is an array that `validateTasks` accepts, and then returns that answer's strings. It fails with a provider error exactly when the answer is a failed request |
| GenerateTasks.FetchCandidates | generate-tasks.js:32-71 | at most three requests of size n. The waits are 500·2^attempt ms after failed attempts 0 and 1 only. It succeeds with the first acceptable answer's strings, which are distinct and of at most 15 pieces. Three failures rethrow an error of the last answer's kind: a provider failure for a failed request, a schema error for a rejected reply |
| GenerateTasks.RequestedCount | generate-tasks.js:78-84 | the effective count lies in [1, 50]. Integers in range are kept, negatives give 1, large values give 50. A missing, zero, non-numeric or malformed body gives 50 |
| GenerateTasks.Oversample | generate-tasks.js:104 | `Math.ceil(k·1.4)` as the least r with 10r ≥ 14k |
| GenerateTasks.FindByCanon | generate-tasks.js:110 | `master.find` returns the first task with the given canonical form if there is one, and none otherwise |
| KvStore.Kv.IsMember | generate-tasks.js:111 | `sismember` answers whether the canonical form is in the history set |
| KvStore.Kv.Add | generate-tasks.js:113 | `sadd` adds the member to that set only |
| GenerateTasks.Consider | generate-tasks.js:108-113 | a candidate is appended only when its canonical form is new to both the accumulator and the history. Either way the history ends up holding its canonical form, and no other store entry changes |
| GenerateTasks.KeepFresh | generate-tasks.js:107-114 | the inner loop appends to the accumulator exactly the candidates `Kept` takes from the batch, in answer order, and adds exactly their forms to the history |
| GenerateTasks.KeptFresh | generate-tasks.js:107-114 | what one pass keeps is at most the room left, taken from the batch, new to the history and pairwise distinct in form |
| GenerateTasks.KeptSkipsOnlySeen | generate-tasks.js:108-111 | while there is room left, a candidate is passed over only when its form is already in the history or among the forms taken |
| GenerateTasks.KeptAllFresh | generate-tasks.js:107-114 | when the next `room` candidates are all new to the history and pairwise distinct in form, the pass takes exactly those, in order |
| GenerateTasks.Absorb | generate-tasks.js:107-114 | one round keeps the accumulator as a prefix and never exceeds count. What it appends is exactly what `Kept` takes from the batch, so only candidates whose forms were new to the history, and the history gains exactly those forms. If it stops short of count, every candidate's form is now in the history. A batch with enough fresh, distinct candidates fills the list |
| GenerateTasks.Round | generate-tasks.js:103-114 | one round makes one to three requests, each for exactly ceil((count − len)·1.4) candidates. A failure made three requests, none of whose answers was accepted, and left the history as it was. On success exactly one answer was accepted, the last one consumed, and the accumulator is extended within count by its tasks: canonically distinct, new to the history and of at most 15 pieces, the history gaining exactly their forms. If the round ends short of count, every string of the accepted answer has its form in the history. If the first answer is accepted and holds enough strings new to the history, the round fills the list with that one request |
| GenerateTasks.Collect | generate-tasks.js:98-115 | one to 15 provider requests, with at most 5 accepted answers, one per completed round. A result shorter than count comes only after exactly 5 accepted answers and at least 5 requests, with every accepted answer's strings put in the history. A failure comes only after three unaccepted answers in a row, with fewer than 5 rounds completed before them. If the first answer is accepted and holds count strings new to the history, the result is full after exactly one request. Every task is a string of an accepted answer. The result holds at most count tasks, canonically distinct and none from the prior history, and the history grows by exactly their forms |
| GenerateTasks.RoundCompleted | generate-tasks.js:102-114 | a completed round keeps the loop's invariant: one more accepted answer, the accumulator gathered from the accepted answers, and, while short, every accepted answer absorbed into the history |
| GenerateTasks.RoundFailed | generate-tasks.js:66-67 | a round whose three attempts all failed ends the loop as a rethrow after three unaccepted answers, with fewer than 5 rounds completed before it |
| GenerateTasks.LoopDone | generate-tasks.js:102 | the loop leaves with a full list, or with a short one after 5 completed rounds |
| GenerateTasks.AccumulatorAcceptable | generate-tasks.js:120 | the accumulated tasks always pass `validateTasks` with their own length, so the final check never throws |
| GenerateTasks.Rebuild | generate-tasks.js:98-125 | the rebuild branch: the history only grows and at most 5 answers are accepted. A 500 follows exactly 5 accepted answers, each fully absorbed into the history, and writes no master. A rethrow follows three unaccepted answers with fewer than 5 rounds completed, and writes no master. A first answer that is accepted and holds count strings new to the history gives a 200 after exactly one request. A 200 stores `count` new distinct tasks from accepted answers with the finish timestamp and a six-day expiry |
| GenerateTasks.Generate | generate-tasks.js:73-129 | non-POST gives 405 and no change. A fresh stored list is returned unchanged without generation. On a rebuild the history only grows, at most 5 answers are accepted, and a 500 or rethrow writes no master. The 500 comes only after exactly 5 accepted answers, each fully absorbed into the history. A rethrow comes only after three unaccepted answers, with fewer than 5 rounds completed. A first answer that is accepted and holds count new strings gives a 200 after one request. A 200 returns exactly count distinct tasks, each from an accepted provider answer and none in the prior history, stored with the finish timestamp and a six-day expiry |
| GenerateTasks.RebuildStaysDue | generate-tasks.js:97 | once a stored list is due for a rebuild, it stays due as time advances |
| GenerateTasks.RebuildThenReuse | generate-tasks.js:97-128 | a list rebuilt and stored at a non-zero time `finished` is served again unchanged exactly while the next request comes less than five days after `finished`. From then on a rebuild answers with something else |
| DailyTasks.DayIndex | daily-tasks.js:32-34 | the clamp of floor((now − created)/86 400 000) to [0, 4], characterised by the interval `now` falls in |
| DailyTasks.DayIndexMonotone | daily-tasks.js:32-34 | the day index never decreases as time advances |
| DailyTasks.MissingTimestampIsDayZero | daily-tasks.js:31-32 | a missing or zero creation time reads as now, which is day 0 |
| DailyTasks.SliceOf | daily-tasks.js:38 | `slice(from, to)` clamps to the list's end and keeps the elements in place |
| DailyTasks.SlicesPartition | daily-tasks.js:37-38 | the five windows of a 50-item list hold ten items each and, in order, make up the list |
| DailyTasks.ThirdDayWindow | daily-tasks.js:32-38 | 2.1 days after creation the window is items 20 to 29 |
| DailyTasks.NextMidnight | daily-tasks.js:41-46 | the next UTC midnight is a multiple of a day and lies in (now, now + 1 day] |
| DailyTasks.TtlSeconds | daily-tasks.js:47 | the TTL is the whole seconds to the next midnight and lies in [0, 86400] |
| DailyTasks.KnownDates | daily-tasks.js:48 | the date key of the epoch is 1970-01-01, and of day 11016 is 2000-02-29 |
| DailyTasks.DailyKey | daily-tasks.js:49 | the cache key starts with `daily:` |
| DailyTasks.SameKeyUntilMidnight | daily-tasks.js:41-49 | every request before the next UTC midnight uses the same date key, so they all find the slice cached until then |
| DailyTasks.MasterKeyFifty | daily-tasks.js:16-17 | the daily handler's keys are the generation handler's keys for count 50 |
| DailyTasks.ServeSlice | daily-tasks.js:30-53 | the slice is the day's window of the given list. It is written under the date key with the TTL, and nothing else changes |
| DailyTasks.GenerateFifty | daily-tasks.js:21-27 | the nested generation of 50: at most 5 accepted answers. A non-array body, thrown on by `.slice`, comes only after exactly 5 accepted answers, all absorbed into the history. A rethrow comes only after three unaccepted answers. A fresh first answer gives 50 tasks after one request. A rejection writes no list, and a list is stored as the generation handler stores it |
| DailyTasks.Refill | daily-tasks.js:19-53 | with the master missing: the generation ends as `GenerateFifty` states and its history additions stay. A rejection writes no list. A 200 stores 50 new distinct tasks, each from an accepted answer, stamped with the finish time. It returns and caches under the date key exactly the ten-item window of the day |
| DailyTasks.Daily | daily-tasks.js:10-54 | non-GET gives 405 and no change. A present master, even a stale one, is used as is, with no generation. A missing master triggers generation of 50, which ends as `DailyTasks.Refill` states |
| DoneStorage.GetKey | src/utils/doneStorage.js:10-13 | fails exactly on a missing or empty username; otherwise the prefix followed by the username |
| DoneStorage.GetKeyInjective | src/utils/doneStorage.js:7-13 | different users never share a key |
| DoneStorage.Dedup | src/utils/doneStorage.js:36 | `Array.from(new Set(xs))` has no duplicates and the same elements |
| DoneStorage.DedupOfNoDups | src/utils/doneStorage.js:36 | a duplicate-free list is kept as it is |
| DoneStorage.DedupSnoc | src/utils/doneStorage.js:36 | adding a task keeps the existing order and puts that task last unless it is already there |
| DoneStorage.WithDoneListed | src/utils/doneStorage.js:32-38 | after marking a task done, the date's list holds it, has no duplicates, and holds nothing new besides that task. Other dates are unchanged |
| DoneStorage.WithDoneIdempotent | src/utils/doneStorage.js:32-38 | marking the same task twice equals marking it once |
| DoneStorage.ReadMap | src/utils/doneStorage.js:17-21 | reads the user's map, or the empty map when nothing is stored. Fails with the key |
| DoneStorage.WriteMap | src/utils/doneStorage.js:25-28 | overwrites the user's map and nothing else |
| DoneStorage.WriteThenRead | src/utils/doneStorage.js:17-28 | a map written for a user reads back unchanged |
| DoneStorage.AddDone | src/utils/doneStorage.js:32-38 | the user's map becomes the stored one with the day's list deduplicated after appending that task. The day is the given date, or today when it is missing or empty. Other users' maps are unchanged |
| DoneStorage.ListDone | src/utils/doneStorage.js:42-45 | the date's list, or the empty list when the date has no entry |
| DoneStorage.AddThenList | src/utils/doneStorage.js:32-45 | after `addDone(task, u, d)`, `listDone(d, u)` holds that task with no duplicates. Every other user's map is unchanged |
| DailyRandom.PickKeyInjective | dailyRandom.js:3-9 | different dates use different keys |
| DailyRandom.FetchDailyRandomTask | dailyRandom.js:6-22 | no tasks gives null and no change. A non-empty stored pick is returned with no change. Otherwise the result is some element of the tasks and becomes the date's stored pick |
| DailyRandom.OncePerDay | dailyRandom.js:9-21 | a second call on the same date returns the first result when that is non-empty. Picks of other dates are untouched |
| Users.StepKeepsLevel | src/context/User.js:19-22 | one completed task keeps level = xp/2500 + 1 and raises the level by at most one |
| Users.AfterTasksClosedForm | src/context/User.js:2-22 | a new user who completed n tasks has 250n XP and level 250n/2500 + 1 |
| Users.User.constructor | src/context/User.js:2-9 | a new user has the given name and password, xp 0, level 1, and no tasks or friends |
| Users.User.AddFriend | src/context/User.js:11-15 | appends the name only if absent, so the friends stay duplicate-free. Nothing else changes |
| Users.AddFriendTwice | src/context/User.js:11-15 | adding the same friend twice equals adding once |
| Users.User.CompleteTask | src/context/User.js:17-23 | appends that task, adds exactly 250 XP, and levels up once XP reaches level·2500. Keeps the level–XP invariant |
| Users.User.ToJson | src/context/User.js:29-38 | the six fields with their current values. For a valid user, distinct friends and level = xp/2500 + 1 |
| AppContext.FindUser | src/context/AppContext.js:17 | `users.find` returns the first user with the name, and none when no user has it |
| AppContext.FindMember | src/context/AppContext.js:17 | with unique names, `find` returns the very user object that has the name |
| AppContext.ReplaceByName | src/context/AppContext.js:41 | the `map` replaces exactly the entries with the given name |
| AppContext.ReplaceSelf | src/context/AppContext.js:37-42 | with unique names, replacing the signed-in user by itself leaves the list as it was |
| AppContext.AppProvider.constructor | src/context/AppContext.js:8-12 | no users, nobody signed in, no challenges |
| AppContext.AppProvider.SignIn | src/context/AppContext.js:15-30 | an unknown name appends a fresh user and signs it in. A wrong password changes nothing. The right password signs in the existing user with the list unchanged. Names stay unique |
| AppContext.AppProvider.Logout | src/context/AppContext.js:32-35 | nobody is signed in afterwards; users and challenges are unchanged |
| AppContext.AppProvider.AddFriend | src/context/AppContext.js:37-42 | no-op without a signed-in user. Otherwise the user's friends gain the name, and only the entry with that username is replaced, which in a valid state leaves the list itself unchanged. The user's XP, level and completed tasks stay as they were |
| AppContext.AppProvider.ChallengeFriend | src/context/AppContext.js:44-50 | an absent or blank task is ignored. Otherwise `{from, to, task.trim()}` is appended, so challenges only grow. With nobody signed in it fails without change |
| ProfileScreen.WeeklyCounts | ProfileScreen.js:21-30 | the first loop builds the per-week totals |
| ProfileScreen.TotalsPerWeek | ProfileScreen.js:24-30 | a week has an entry exactly when one of its dates occurs, holding the number of tasks done on its dates |
| ProfileScreen.TotalsSum | ProfileScreen.js:24-30 | the week totals add up to the number of tasks done |
| ProfileScreen.CountHeavyWeeks | ProfileScreen.js:33-38 | the second loop counts the weeks with at least ten tasks |
| ProfileScreen.HeavyBound | ProfileScreen.js:33-36 | ten times the number of heavy weeks is at most the sum of their totals |
| ProfileScreen.CountBadgesByWeek | ProfileScreen.js:20-39 | the badge count is the number of weeks whose total is at least ten |
| ProfileScreen.BadgeBound | ProfileScreen.js:20-39 | there are never more badges than a tenth of all tasks done |
| ProfileScreen.XpBreakdown | ProfileScreen.js:81-85 | XP is 250 per task, the level is n/10 + 1, and the XP in the current level is 250·(n mod 10), below 2500 |
| ProfileScreen.UserAgreesWithProfile | ProfileScreen.js:81-84 | the screen's XP and level for n tasks equal those of a `User` who completed n tasks |
| ProfileScreen.NextBadgeName | ProfileScreen.js:119-132 | counts 0 to 3 name the Bronze, Silver, Gold and Platin tiers, and exactly 4 or more give "Max Level!" |
| ProfileScreen.RemainingDeeds | ProfileScreen.js:200 | the remaining deeds are never negative. They make up the ten, or are 0 from ten on |
| ProfileScreen.SortByDeeds | ProfileScreen.js:100 | the in-place sort orders the rows by deeds, non-increasing, and permutes them |
| ProfileScreen.SinkLeft | ProfileScreen.js:100 | one insertion step extends the sorted prefix by one row and permutes the array |
| ProfileScreen.Leaderboard | ProfileScreen.js:93-100 | the board is the three fixed rows and the viewer's, ordered by deeds |
| FriendsScreen.Usernames | src/screens/FriendsScreen.js:22-23 | the usernames in list order |
| FriendsScreen.Available | src/screens/FriendsScreen.js:22-28 | a name is offered exactly when it is a user other than the signed-in one, not yet a friend, and contains the search text ignoring case. The offer keeps list order |
| FriendsScreen.Offered | src/screens/FriendsScreen.js:20-28 | with someone signed in, a name is offered exactly when it is a user other than them, not in their friend list, and matches the search. With nobody signed in, the filter throws on `currentUser.username` as soon as there is a user, and offers nothing when there is none |
| FriendsScreen.EmptySearchKeepsAll | src/screens/FriendsScreen.js:27 | with an empty search every other non-friend is offered |
| FriendsScreen.SentTo | src/screens/FriendsScreen.js:32 | the first challenge to the friend, and none when there is none |
| FriendsScreen.SentToStable | src/screens/FriendsScreen.js:32 | later challenges never change which one is shown for a friend already challenged |
| FriendsScreen.TypeText | src/screens/FriendsScreen.js:48 | typing sets only that friend's field |
| FriendsScreen.ClearText | src/screens/FriendsScreen.js:55 | sending empties only that friend's field |
| FriendsScreen.SendChallenge | src/screens/FriendsScreen.js:53-56 | the typed text, trimmed, is sent when non-blank and someone is signed in. The friend's field is emptied either way |
| LoginScreen.OnContinue | LoginScreen.js:55-69 | a trimmed username under 3 characters is rejected first. A password under 8 characters is rejected next. Otherwise `signIn` gets the trimmed username and the untrimmed password |
| LoginScreen.AcceptedNameHasKey | LoginScreen.js:56-68 | an accepted username is trimmed and non-empty, so it always has a done-map key |
| LoginScreen.Continue | LoginScreen.js:55-69 | a rejection leaves the app state unchanged. Otherwise `signIn` runs, and unless the password is wrong the trimmed name is signed in |

## Left out

- The OpenAI chat call, its prompt and the `JSON.parse` of the reply (generate-tasks.js:36-64) are a network call. The provider is a scripted oracle. An unparseable reply or a missing `tasks` key is an answer that is not an array, or a failed request.
- `setTimeout` sleeping is not modelled. The waits are returned as a list of delays.
- Vercel KV and AsyncStorage are maps in class fields. Key expiry is not modelled: the `ex` value of each write is only recorded.
- Concurrency is not modelled. That covers simultaneous rebuilds by two requests, React's batched and deferred state updates with their stale closures, and effect cancellation flags.
- Floating point is not modelled. `·1.4` is the integer ceiling. Fractional `count` values (generate-tasks.js:81) and a `NaN` creation timestamp are outside the model, which reads numbers as integers and a missing one as 0. `progressPercent` (ProfileScreen.js:86) and the width styles are omitted.
- Clock readings are parameters. `DailyTasks.Daily` uses one `now` for the readings at daily-tasks.js:31, 32 and 41, which the code takes microseconds apart.
- `parseISO`, `getISOWeek` and `getISOWeekYear` from date-fns are not implemented. The week key of a date string is a function parameter of `ProfileScreen.CountBadgesByWeek`.
- `toISOString` is modelled for years up to 9999. Later years use a six-digit signed form and are not modelled.
- `Math.random` is a nondeterministic index into the list of tasks.
- DailyTasks.GenerateFifty: when generation answers 500, the code throws later, on `.slice` of the error body at daily-tasks.js:38. The model raises that rejection where the body is parsed. Nothing is written in between, so the store ends the same.
- DailyTasks.GenerateFifty: the nested `new Request("", …)` of daily-tasks.js:22-26 is taken to be built and handed to the generation handler. A runtime that refuses a request with an empty URL and no base would throw there; that case is not modelled.
- GenerateTasks.Collect: which fresh candidates each round keeps is stated per round, by `GenerateTasks.Absorb` through `Kept`. The loop's contract, and so `GenerateTasks.Rebuild`'s, states only that every task comes from an accepted answer, is new and is distinct, not which candidates were chosen across rounds.
- GenerateTasks.Collect: states that each request asks for between 2 and 70 candidates. The exact per-round figure ceil((count − len)·1.4) is stated by `GenerateTasks.Round`.
- DailyTasks.ServeSlice: in the last second before a UTC midnight the TTL is 0, so daily-tasks.js:51 sends `{ ex: 0 }`. Redis-compatible stores refuse an expire time of 0. The model records that write as a success.
- DailyTasks.DailyKey: states the `daily:` prefix and that the key stays the same until midnight. That different UTC days give different keys is not proved.
- `toLowerCase` is modelled for ASCII and Latin-1 letters only. Other Unicode case mappings are not modelled.
- String lengths count characters, not UTF-16 code units. This matters only for characters outside the Basic Multilingual Plane, in the login checks and in splitting.
- Values of the wrong JavaScript type are not modelled: a non-string username, task or typed text, or a non-array task list. Such values are taken as absent (`Option`) or as strings.
- AsyncStorage keeps plain strings and JSON-encoded maps in one key space. The model keeps them in two maps, since their key prefixes never meet. `JSON.stringify` followed by `JSON.parse` is taken as the identity on the stored maps.
- The `getUserName` getter (src/context/User.js:25-27) only reads `username`. `username` and `password` are never reassigned, so they are constants in the model.
- ProfileScreen.SortByDeeds: proves order and permutation but not the stability that `Array.prototype.sort` guarantees. `ProfileScreen.Leaderboard` inherits this: rows with equal deeds may appear in either order.
- Navigation (`navigation.replace`), `alert`, modals, JSX and styles are not modelled. `SignInOutcome` and the login `Verdict` record which navigation or alert happens.
- App.js, HomeScreen.js, taskScreen.js, calendarScreen.js, useDailyTasks.js and src/hooks/useRandomDailyTask.js are not part of this model. They are rendering, fetch and hook plumbing around the helpers above.
