# Budget server: the user store and the budget ledger

This project models the in-memory core of a small personal-budget web server
(`server.js`). Once the web framework, password hashing and token signing are
stripped away, the server is a state machine over two lists:

- `users`: records `{userId, username, email, passwordHash}`. Signup validates a
  request and appends one record. Login looks a record up by username.
- `budgets`: entries `{userId, type, data, month, year}` with `type` one of
  income, expense, savings or goal. Every protected route is a list operation on
  it. The add routes append one entry. Update-goal maps over the list and merges
  a patch into the caller's matching goals. Delete-goal filters those goals out.
  Save-month filters out the caller's (month, year) slice and pushes four
  batches. Reset-month filters out that slice. Get-month and list-goals read
  the list.

The modules follow that structure:

- `Js` (js.dfy) holds JSON-shaped request values and the JavaScript operators the
  handlers use: truthiness, `===` (`StrictEq`), property reads, `|| null` and
  `String.prototype.split`.
- `Seqs` (seqs.dfy) holds `Array.prototype.filter` as `Filter` and the facts about it.
- `Auth` (auth.dfy) holds the bearer-token extraction and the decision of `verifyToken`.
- `Accounts` (accounts.dfy) holds user records, the signup conflict test, the
  login lookup and the uniqueness invariant signup keeps.
- `Ledger` (ledger.dfy) holds entries and every list operation as a function on
  sequences, with the lemmas about them.
- `Server` (server.dfy) holds the class `Store` with the two lists as `seq`
  fields. Each route that changes a list is a method with a `modifies this`
  clause, and its postcondition gives the new lists in terms of the old ones
  and the `Ledger` functions. `Login` only reads, so it has no `modifies`
  clause. The add routes push one entry. Update-goal's `map` with its `found`
  flag and save-month's `forEach` push loops are `while` loops with invariants.
  `Serve` runs the `verifyToken` check first and then dispatches to a handler.
  Its postcondition states, for each protected route, the handler's answer and
  the new ledger. The two read routes, get-month and list-goals, have no method
  of their own: `Serve` answers them from the `Ledger` functions `GetMonth` and
  `ListGoals`.

Modelling choices that matter for reading the contracts:

- Month, year, username, email and every payload field are `Js.Value`s.
  Comparisons use `StrictEq`: primitives compare by value, and two objects or
  arrays parsed from different requests are never `===`. So `Num(3)` never
  equals the query-string value `Str("3")`. Also, a month sent as an object
  matches nothing that is already stored.
- An entry's `data` is itself a `Value`. Save-month stores the raw array items,
  which may be `null`. For one of the caller's goals with `null` data, reading
  `b.data.id` throws a TypeError. Update-goal and delete-goal then answer with a
  server error, and the list is not reassigned.
- Save-month uses `x || []` and then calls `.forEach`. A batch that is truthy
  but not an array throws after the slice was already removed and the earlier
  batches pushed. `SaveMonth` states exactly that partial state.
- Password hashing and comparison are parameters that return `Option`. `None`
  stands for a rejected promise, for example a non-string password. On
  Express 4, which does not catch the rejection of an `async` handler, the
  request gets no response, and on Node 15 or later the unhandled rejection
  ends the process, which loses both lists. On Express 5 the rejection becomes
  a 500 response. Either way `users` is unchanged, as the contracts state. Two requests reach it without a token: a signup
  whose password is a truthy non-string such as `1` (the `bcrypt.hash` call at
  server.js:24), and a login with a known username and no password (the
  `bcrypt.compare` call at server.js:34). The token verifier is a parameter
  `string -> Option<UserId>`. The fresh user id is passed into signup, with a
  precondition that it is unused.

Behaviours of the code that the model keeps and that a reader might not expect:

- Update-goal changes every matching goal, not one unique goal. It reports "not
  found" only when nothing matched.
- Delete-goal can fail with a server error when the caller has a goal with null
  data.
- Save-month is not atomic when a batch is not an array.
- Save-month is idempotent, and reading a saved month gives back the saved
  lists, only when month and year are primitive values. `ReplacedIdempotent`
  and `GetMonthAfterReplace` require this. `ReplacedWithObjectKeyOnlyAppends`
  shows what happens otherwise.

## Model

| member | source | states |
|---|---|---|
| `Js.OrNull` | server.js:62 | `v \|\| null` is `null` exactly for falsy `v` and is `v` otherwise; this is how a goal's missing month or year is stored |
| `Js.Falsy` | server.js:18 | defines `!v`: true exactly for `undefined`, `null`, `false`, `0` and `""`; the required-field test here and `!token` at line 129 |
| `Js.StrictEq` | server.js:21 | defines `===` on request data: primitives compare by value and two separately parsed arrays or objects are never equal; also used for lines 33, 71, 83, 94, 104 and 115 |
| `Js.Split` | server.js:128 | `split(' ')` gives at least one piece and no piece contains a space |
| `Js.JoinSplit` | server.js:128 | joining the pieces of a split with the separator gives back the original header |
| `Js.SplitJoin` | server.js:128 | splitting is the only separator-free decomposition: splitting any such join returns its pieces |
| `Auth.BearerToken` | server.js:127-129 | a token is only extracted from a present header, and it is non-empty and has no space |
| `Auth.TokenIsSecondWord` | server.js:127-129 | for any way of writing the header as space-separated words, the token is the second word when it is there and non-empty, and there is none otherwise; the scheme word is not checked |
| `Auth.SchemeThenToken` | server.js:128 | `<scheme> <token>` yields the token |
| `Auth.DoubleSpaceHasNoToken` | server.js:128-129 | two spaces after the scheme give an empty second word, which is refused |
| `Auth.Authenticate` | server.js:126-137 | 'Access denied' exactly when no token can be extracted; otherwise the verifier's answer decides between 'Invalid token' and the verified user id |
| `Accounts.Clashes` | server.js:21 | defines signup's conflict test for one user: its username or its email is `===` the new one |
| `Accounts.Taken` | server.js:21 | defines `users.some(...)` with that test: some stored user clashes, which makes signup answer 409 |
| `Accounts.FindByUsername` | server.js:33 | `users.find` returns the first user whose username is `===` the given one, or nothing when none is |
| `Accounts.SignupKeepsRegistry` | server.js:21-26 | a user appended after the conflict test, with a fresh id, keeps usernames, emails and ids pairwise distinct |
| `Accounts.FindRegistered` | server.js:33 | in a store signup built, login by a primitive username finds exactly the user who registered it |
| `Accounts.FindAfterSignup` | server.js:21-33 | the user a signup appends is the one a later login with the same username finds |
| `Seqs.Filter` | server.js:83 | `filter` never grows the list |
| `Seqs.FilterSound` | server.js:83 | everything `filter` keeps is an element that passes, and every element that passes is kept |
| `Seqs.FilterConcat` | server.js:83 | `filter` works element by element in order, so it distributes over concatenation |
| `Seqs.FilterIdempotent` | server.js:115 | filtering twice by one predicate is filtering once |
| `Ledger.IncomeEntry` | server.js:43-44 | defines the pushed income: the caller's id, type `income`, the picked fields `id, source, amount, frequency, date`, and the body's raw month and year |
| `Ledger.ExpenseEntry` | server.js:49-50 | defines the pushed expense: the caller's id, type `expense`, the picked item fields, and the raw month and year |
| `Ledger.SavingsEntry` | server.js:55-56 | defines the pushed savings entry, built like an expense but with type `savings` |
| `Ledger.GoalEntry` | server.js:61-62 | defines the pushed goal: the picked goal fields, with a falsy month or year stored as `null` |
| `Ledger.WithoutSlice` | server.js:115 | defines reset-month, and the first step of save-month at line 94: keep every entry that is not the caller's with that `===` month and year |
| `Ledger.WithoutGoal` | server.js:83 | defines delete-goal when no `b.data.id` read throws: keep every entry that is not one of the caller's goals with that id |
| `Ledger.MergeGoals` | server.js:70-76 | defines update-goal when no read throws: every target's data has the patch spread over it, every other entry is kept, and the order is kept |
| `Ledger.AsBatch` | server.js:88-91 | defines a batch's default to `[]` followed by `.forEach`: a falsy value gives an empty batch, an array gives its items, and any other value makes `forEach` throw |
| `Ledger.GetMonth` | server.js:104-110 | defines get-month: the caller's entries whose month and year are `===` the query's, split by type into four lists of their data, in ledger order |
| `Ledger.ListGoals` | server.js:121 | defines list-goals: the data of every one of the caller's goals, of any month, in ledger order |
| `Ledger.InSlice` | server.js:104 | defines the slice test shared with lines 94 and 115: the caller's entry with month and year `===` the given ones |
| `Ledger.IdReadThrows` | server.js:71 | defines when the test of lines 71 and 83 throws a TypeError: the entry is the caller's goal and its data is `null` or `undefined` |
| `Ledger.IsTarget` | server.js:71 | defines when the test of lines 71 and 83 is true: the caller's goal whose data is an object with an `id` `===` the route's id |
| `Ledger.AnyThrows` | server.js:71 | defines when update-goal's `map` and delete-goal's `filter` (line 83) throw: some entry's test throws |
| `Ledger.AnyTarget` | server.js:71 | defines when update-goal's `found` ends true: some entry passes the test |
| `Ledger.Merged` | server.js:73 | defines update-goal's callback on one entry: a target gets the patch spread over its data, any other entry is returned as it was |
| `Ledger.Batches` | server.js:88-91 | defines save-month's four batches, read from `incomes`, `expenses`, `savings` and `goals` in that order, each through `AsBatch` |
| `Ledger.BatchLists` | server.js:88-91 | defines the items of each batch, with a batch whose `forEach` throws counting as none |
| `Ledger.Stamp` | server.js:95-98 | defines one `forEach` push loop: one entry per item, in order, with the caller's id, the batch's type and the raw month and year |
| `Ledger.Stamped` | server.js:95-98 | defines the pushes of the first n batches, one batch after the other in the order incomes, expenses, savings, goals |
| `Ledger.Replaced` | server.js:94-98 | defines save-month when every batch pushes: the list without the slice, followed by the four batches' pushes |
| `Ledger.Partition` | server.js:106-109 | defines get-month's four `filter(...).map(b => b.data)` lists of a slice, one per type, in ledger order |
| `Ledger.FirstBad` | server.js:95-98 | the index of the first batch whose `forEach` throws: every earlier batch is an array or falsy, and this one is neither |
| `Ledger.PartitionSizes` | server.js:106-109 | the four type filters split a list: their sizes add up to its length |
| `Ledger.PartitionStamp` | server.js:95-109 | a pushed batch shows up, in order, in its own type's list and in no other |
| `Ledger.StampedShape` | server.js:95-98 | every entry save-month pushes belongs to the caller and carries the request's month and year |
| `Ledger.KindOfStamped` | server.js:95-109 | among the entries of the first batches pushed, those of one batch's type are exactly that batch's entries |
| `Ledger.StampedFour` | server.js:95-98 | save-month pushes incomes, then expenses, savings and goals |
| `Ledger.GetMonthPartitionsSlice` | server.js:104-110 | get-month's four lists together hold exactly as many items as the caller's slice has entries |
| `Ledger.GetMonthAfterAppend` | server.js:42-110 | after an add, get-month for a key gains the new data at the end of its type's list if the entry is in that slice, and is unchanged otherwise |
| `Ledger.UndatedGoalOnlyListed` | server.js:60-64 | a goal posted without month or year is stored with `null`: it appears in list-goals but never in get-month for a non-null key |
| `Ledger.ReadsIgnoreOthers` | server.js:102-123 | get-month and list-goals give the same answer if every other user's entries are removed |
| `Ledger.MonthGoalsAreListed` | server.js:104-121 | every goal get-month returns is also returned by list-goals |
| `Ledger.GetMonthAfterReset` | server.js:113-117 | after reset-month, get-month for the same key returns four empty lists |
| `Ledger.ResetIdempotent` | server.js:115 | resetting a month twice is resetting it once |
| `Ledger.ReplacedSlice` | server.js:94-98 | after save-month with primitive month and year, the caller's slice is exactly the supplied items in batch order |
| `Ledger.ReplacedKeepsRest` | server.js:94 | save-month keeps every entry outside the slice, in its order |
| `Ledger.ReplacedIdempotent` | server.js:94-98 | save-month with primitive month and year, applied twice, gives the same list as once |
| `Ledger.GetMonthAfterReplace` | server.js:87-110 | reading back a month saved with primitive month and year returns the four saved lists |
| `Ledger.PartitionStampedFour` | server.js:95-109 | partitioning the four pushed batches by type gives back the four lists |
| `Ledger.ReplacedWithObjectKeyOnlyAppends` | server.js:94 | with an object or array month or year, save-month removes nothing and only appends |
| `Ledger.DeleteIdempotent` | server.js:83 | deleting a goal twice is deleting it once |
| `Ledger.ListGoalsAfterDelete` | server.js:83 | after delete-goal, no goal the caller lists has that id |
| `Ledger.MergeIdempotent` | server.js:70-76 | merging the same patch into the goals twice is merging it once |
| `Ledger.MergeKeepsGoalCount` | server.js:70-76 | update-goal keeps the number of goals the caller lists |
| `Ledger.AppendKeepsOthers` | server.js:44 | appending one of the caller's entries leaves every other user's entries unchanged |
| `Ledger.ReplaceKeepsOthers` | server.js:94-98 | save-month, completed or stopped at a bad batch, leaves every other user's entries unchanged |
| `Ledger.ResetKeepsOthers` | server.js:115 | reset-month leaves every other user's entries unchanged |
| `Ledger.DeleteKeepsOthers` | server.js:83 | delete-goal leaves every other user's entries unchanged |
| `Ledger.MergeKeepsOthers` | server.js:70-76 | update-goal leaves every other user's entries unchanged |
| `Server.Store.constructor` | server.js:12-13 | the server starts with no users and no entries |
| `Server.Store.Signup` | server.js:16-29 | any falsy username, email or password gives the 400 outcome; a username or email `===` an existing one gives 409; in both cases `users` is unchanged; otherwise exactly one user is appended with the hash of the password, earlier users untouched, and the registry invariant holds |
| `Server.Store.Login` | server.js:31-39 | unknown username or a failed comparison gives 401; otherwise the first user with that username is logged in |
| `Server.Store.SignupThenLogin` | server.js:16-39 | signing up and logging in with the same credentials appends exactly the new user, leaves the ledger unchanged and logs in as the new user id |
| `Server.Store.AddIncome` | server.js:42-46 | appends exactly one income entry with the caller's id, the route's five fields and the body's month and year; earlier entries are unchanged |
| `Server.Store.AddExpense` | server.js:48-52 | appends exactly one expense entry with the caller's id; earlier entries are unchanged |
| `Server.Store.AddSavings` | server.js:54-58 | appends exactly one savings entry with the caller's id; earlier entries are unchanged |
| `Server.Store.AddGoal` | server.js:60-64 | appends exactly one goal entry with the caller's id, storing a falsy month or year as `null` |
| `Server.Store.UpdateGoal` | server.js:66-79 | a goal of the caller's with null data makes it fail with nothing changed; otherwise every matching goal's data is merged with the patch, length, order and all other entries are kept, and 'not found' is answered exactly when nothing matched |
| `Server.Store.DeleteGoal` | server.js:81-85 | the list becomes the old list with exactly the caller's goals with that id removed, in order, unless a goal with null data makes the filter throw |
| `Server.Store.SaveMonth` | server.js:87-100 | the caller's slice is removed and the four batches pushed in order; at a truthy non-array batch it stops with a server error, keeping what it already did |
| `Server.Store.PushBatches` | server.js:95-98 | the four `forEach` loops run in order and stop at the first batch that is not an array; exactly the batches before it are pushed |
| `Server.Store.PushBatch` | server.js:95-98 | one `forEach` appends one entry per item, in order |
| `Server.Store.ResetMonth` | server.js:113-117 | removes exactly the caller's entries for that month and year, of every type |
| `Server.Store.Serve` | server.js:42-137 | without a usable token, or with one the verifier refuses, the answer is 401 and nothing changes; a verified request never changes another user's entries; each add route answers 201 with its one entry appended; update-goal answers 500 with nothing changed when a read of `id` throws, and otherwise merges the patch and answers 200 or 404 as a target exists; delete-goal likewise answers 500 or 200 with the caller's goal removed; save-month drops the slice, pushes the batches up to the first bad one and answers 201 only when each of the four was an array or falsy; reset-month drops the slice and answers 200; the two read routes change nothing and return get-month and list-goals |

## Left out

- Express routing, CORS, JSON body parsing, status codes and response bodies: results are datatypes whose comments name the status code.
- A request body that is a JSON array rather than an object: the body is modelled as an object.
- bcrypt hashing and comparison: they are function parameters. What the Node process does after an unhandled promise rejection is not part of this model.
- Signing, verifying and expiring tokens, including the 1-hour lifetime and the secret key: the verifier is a parameter. The signup and login results carry the claims instead of a token.
- Generating the user id from the clock and a random number: the id is a parameter, required to be unused.
- The time between the conflict check and the push in signup: signup is atomic here.
- Floating-point numbers: JSON numbers are integers here. `NaN`, `-0` and fractions are not modelled.
- Spreading a patch that is not a plain object into a goal's data: the patch is an object of fields.
- assets/budget.js, the browser-side summary and chart code: this is display code doing floating-point arithmetic, and it is not part of this model.
