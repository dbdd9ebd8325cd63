# Budget Buddy: a Dafny model of the expense store, dashboard and handlers

Budget Buddy is a personal expense tracker. Users sign up and sign in. They record
expenses with an amount, a category, a date and an optional note. A dashboard
summarises the current month, and an advice endpoint asks an outside text
service for saving tips. This project models three parts of it and proves their
properties:

- `storage.dfy`, module `Storage`: the in-memory store `MemStorage`. It is a
  class with two maps, users by id and expenses by id. Each JavaScript `Map` is
  modelled as a Dafny `map` together with the sequence of its keys in insertion
  order (`userOrder`, `expenseOrder`). That sequence is the order in which
  `Map.values()` yields the records. `CreateUser` and `CreateExpense` are
  methods that update the fields in place. The queries are functions over the
  fields. The object invariant `Valid()` says three things: each key order
  matches its map, each record sits under its own id, and no two users share an
  email.
- `dashboard.dfy`, module `Dashboard`: the pure `stats` computation of the
  dashboard component. It covers the month filter, the total (the source's left
  fold, proved equal to a reference sum), the remaining budget out of 4000, the
  per-category fold with its chart colours, and the first three transactions.
- `routes.dfy`, module `Routes`: the decision rules of the REST handlers over
  the store. Sign-up and expense recording are methods that change the store.
  Sign-in, expense listing and advice are functions. The advice provider is a
  function parameter from payload to outcome (tips, or failure).
- `schema.dfy`, module `Schema`: the `User` and `Expense` records and the two
  request validators. These are the login schema (an email address and a
  password of at least 6 UTF-16 code units) and the expense insert schema (amount,
  category and date required; the note optional).
- `wrappers.dfy`, module `Wrappers`: `Option` and `Result`.

Two properties one might expect hold only outside the server, and the model
follows the server code:

- The expenses table declares its `userId` column as a reference to
  `users.id` (shared/schema.ts:15), but the in-memory store never checks it:
  `createExpense` (server/storage.ts:54-63) stores any `userId`, and the
  handlers fall back to `"mock-user-id"`, which is never a user's id.
  `Routes.ExpenseWithoutAccount` exhibits such an expense.
- Only the browser form limits categories to Food, Transport, Shopping, Bills
  and Others (client/src/components/dashboard/expense-form.tsx:16-22) and
  amounts to non-negative numbers (its `min="0"` at line 101). The expense
  insert schema (shared/schema.ts:28-32) checks neither, so the model accepts
  any real amount and any category string. Unknown categories get the default
  chart colour.

Stand-ins for the environment:

- `randomUUID()` is `Storage.FreshId`. It picks an identifier that is not
  already a key: a string longer than every existing key.
- `new Date()` is a `now: Timestamp` parameter, and the dashboard's current
  month is a `today: Date` parameter.
- The email-format check is a parameter `isEmail: string -> bool`.
- The advice provider is a parameter `provider: seq<AdviceItem> -> ProviderOutcome`.

## Model

| member | source | states |
|---|---|---|
| `Schema.Utf16Length` | shared/schema.ts:36 | the length the password minimum counts: one unit per character, two for a character outside the Basic Multilingual Plane; never below the character count nor above twice it, and equal to it when every character is in that plane |
| `Schema.Utf16LengthAppend` | shared/schema.ts:36 | the length of a concatenation is the sum of the lengths |
| `Schema.ParseLogin` | shared/schema.ts:34-37 | the body is accepted iff the email is present and well-formed and the password is present with at least 6 UTF-16 code units; the accepted data is the body's email and password; a refusal is non-empty, holds only the four possible complaints, and holds each one exactly when its cause holds |
| `Schema.ThreeEmojiPasswordAccepted` | shared/schema.ts:36 | a password of three emoji (six code units) is long enough |
| `Schema.ParseExpense` | shared/schema.ts:13-32 | the body is accepted iff amount, category and date are present and the note is omitted, null or a string; an accepted body keeps its amount, category and date, and its note when it is a string; a refusal is non-empty, holds only the four possible complaints, and holds each one exactly when its cause holds |
| `Storage.MemStorage.constructor` | server/storage.ts:16-19 | a new store holds no users and no expenses and satisfies the invariant |
| `Storage.MemStorage.GetUser` | server/storage.ts:21-23 | returns the user stored under `id`, and absent exactly when `id` is not a key; under the invariant, the returned user's id is `id` |
| `Storage.FindByEmail` | server/storage.ts:26-28 | `find` by exact email: absent iff no listed user has the email; otherwise the first listed user with that email |
| `Storage.MemStorage.GetUserByEmail` | server/storage.ts:25-29 | absent iff no stored user has the email; a result is a stored user with exactly that email; under email uniqueness it is the one stored user with that email |
| `Storage.FreshId` | server/storage.ts:38 | the identifier chosen for a new record is none of the keys already in use |
| `Storage.MemStorage.CreateUser` | server/storage.ts:31-46 | a stored email fails with "User with this email already exists" and leaves both maps unchanged; otherwise exactly one user is added, with a fresh id, the given email and password, and the clock reading; expenses are unchanged; email uniqueness is preserved |
| `Storage.OwnedBy` | server/storage.ts:49-50 | the filter keeps exactly the records owned by the user and keeps identifiers distinct |
| `Storage.InsertNewestFirst` | server/storage.ts:51 | one insertion step of the sort keeps the list newest-first and adds exactly the one record |
| `Storage.SortNewestFirst` | server/storage.ts:51 | the result is ordered by non-increasing `createdAt` and is a permutation of the input |
| `Storage.SortKeepsOrderOfTies` | server/storage.ts:51 | the sort is stable: expenses with equal `createdAt` keep their input order |
| `Storage.SortKeepsDistinctIds` | server/storage.ts:51 | sorting a list with distinct ids keeps the ids distinct |
| `Storage.MemStorage.GetExpensesByUserId` | server/storage.ts:48-52 | the result holds exactly the stored expenses owned by the user, each once (distinct ids), newest `createdAt` first; it is empty when there are none |
| `Storage.MemStorage.CreateExpense` | server/storage.ts:54-63 | never fails; adds exactly one expense under a fresh id, with the input fields, the owner and the clock reading; users and existing expenses are unchanged |
| `Dashboard.MonthlyExpenses` | client/src/components/dashboard/dashboard.tsx:46-50 | every expense dated in the reference month and year is kept with its multiplicity; every other expense is dropped; `createdAt` plays no part |
| `Dashboard.ReduceSum` | client/src/components/dashboard/dashboard.tsx:52 | the `reduce` fold of the amounts from an accumulator equals the accumulator plus the reference sum |
| `Dashboard.Lookup` | client/src/components/dashboard/dashboard.tsx:58 | a category without a key reads as 0; a category with a key reads as the total of an entry for it |
| `Dashboard.AddAmount` | client/src/components/dashboard/dashboard.tsx:58 | one accumulator update adds the amount to that category only, adds the category as a key if new (after the existing keys), keeps keys distinct, and grows the grand total by the amount |
| `Dashboard.ReduceCategories` | client/src/components/dashboard/dashboard.tsx:57-60 | the category fold keeps the keys distinct |
| `Dashboard.ReduceCategoriesSpec` | client/src/components/dashboard/dashboard.tsx:57-60 | after the fold, each category's total is its earlier total plus that category's sum over the expenses; the keys are the earlier keys plus the categories that occur; the grand total grows by the sum of all amounts |
| `Dashboard.LookupAt` | client/src/components/dashboard/dashboard.tsx:58 | with distinct keys, reading a category's running total yields its own entry |
| `Dashboard.CategoryTotals` | client/src/components/dashboard/dashboard.tsx:57-60 | the breakdown's keys are exactly the categories in the monthly set, each once; reading any category gives its monthly sum (0 for an absent one); the values add up to the monthly total |
| `Dashboard.CategoryTotalsCorrect` | client/src/components/dashboard/dashboard.tsx:57-60 | each entry of the breakdown holds its own category's monthly sum |
| `Dashboard.ColorOf` | client/src/components/dashboard/dashboard.tsx:29-35 | a category in the colour table gets its colour; any other gets `hsl(215 20% 65%)` |
| `Dashboard.ChartData` | client/src/components/dashboard/dashboard.tsx:62-66 | one slice per breakdown entry, in entry order, with its name and value and the table colour; the slice values add up to the breakdown's total |
| `Dashboard.ComputeStats` | client/src/components/dashboard/dashboard.tsx:42-75 | the total is the sum of the monthly amounts (0 for no expenses); the remaining budget is 4000 minus it; the count is the monthly set's size; the chart has one distinct slice per monthly category, holding that category's sum; the chart values add up to the total; the recent list is the first min(3, n) inputs in order |
| `Routes.Signup` | server/routes.ts:16-24 | an invalid body gives 400 with the schema's complaints; a duplicate email gives 400 with the store's message; neither adds a user; otherwise 200 with only the new user's id and email, and exactly that user is added, last in the listing order |
| `Routes.Signin` | server/routes.ts:26-39 | an invalid body gives 400; otherwise 200 iff a stored user has the email and the same password, and the body carries only that user's id and email; every other case gives 401 "Invalid credentials" |
| `Routes.ResolveUserId` | server/routes.ts:46 | a present, non-empty `userId` parameter is used as given; a missing or empty one becomes "mock-user-id" |
| `Routes.ListExpenses` | server/routes.ts:42-52 | responds 200 with exactly the resolved user's stored expenses, each once, newest first |
| `Routes.PostExpense` | server/routes.ts:54-64 | an invalid body gives 400 and stores nothing; otherwise the validated body is stored once under the resolved user and returned with 200 |
| `Routes.ToAdviceItem` | server/routes.ts:76-81 | one forwarded expense keeps amount, category and date; its note is the expense's note, and it is `''` exactly when the note is missing or empty |
| `Routes.AdvicePayload` | server/routes.ts:75-81 | the payload is the first min(10, n) expenses, in order, each reduced to amount, category, date and note, with a missing note sent as `''` |
| `Routes.PayloadForgetsTheRest` | server/routes.ts:76-81 | two lists that agree on amount, category, date and note of their first ten expenses give the same payload; ids, owners, creation times and later expenses are not forwarded |
| `Routes.Advice` | server/routes.ts:67-123 | a missing or empty list gives 400 "No expenses provided"; otherwise the provider's tips are returned with 200; any provider failure gives 500 "Failed to get AI advice" with exactly the two fixed tips |
| `Routes.EmptyAdviceSkipsProvider` | server/routes.ts:71-73 | a refused advice request gives the same response whatever the provider would do, so the provider is not consulted |
| `Routes.SignupRun` | server/routes.ts:16-39 | in a sequential run, two sign-ups with different emails both succeed with different ids; a third with a used email fails with 400; signing in with a wrong password gives 401 |
| `Routes.ExpenseWithoutAccount` | server/routes.ts:54-60 | an expense posted without a user id on a fresh store belongs to "mock-user-id", a user with no account, and it is exactly what listing without a user id returns |

## Left out

- Concurrency: the store is modelled as used by one request at a time. Two concurrent sign-ups with the same email can both pass the email check and both insert; that race is not modelled.
- `randomUUID()`: its output is not modelled. `FreshId` is deterministic and only guarantees the id is unused. A UUID collision is not modelled.
- Clock readings are arbitrary integers. Nothing assumes that successive readings increase, so ties and out-of-order `createdAt` values are allowed.
- The zod email syntax is the parameter `isEmail`. The text of zod's error message is modelled as the list of complaints. A required field present with a wrong JSON type is treated like a missing one (both are zod's `invalid_type`).
- Dates are (year, month, day) triples. The schema's date column is a plain string, so a malformed date string is not modelled. Such an expense falls in no month on the dashboard.
- Timezones: the dashboard reads the month in local time from a date string that JavaScript parses as UTC midnight. West of UTC, an expense dated on the first of a month is counted in the previous month. The model compares the date's own month and year.
- Amounts are exact reals, not IEEE-754 doubles. Rounding in the sums, `toFixed` and the percentage display are not modelled.
- JavaScript object-key behaviour in `categoryColors` and the category accumulator is not modelled. Category names that are `Object.prototype` properties (such as "constructor" or "__proto__") behave differently there. Integer-like category names are listed first by `Object.entries`. The model treats every category as a plain key, kept in first-insertion order.
- A `userId` query parameter given more than once (an array) is not modelled. The parameter is an optional string.
- `Routes.Advice`: the request body's `expenses` is an optional list of expense records. Other values are not modelled. In the source a falsy value (`0`, `""`, `false`, `null`) and a truthy value whose `length` is 0 (such as `{"length": 0}`) take the "No expenses provided" branch with 400 (server/routes.ts:71). Any other truthy non-list throws at `slice` or `map` (server/routes.ts:76) and gets the 500 fallback, and so does a list with a `null` or `undefined` element among its first ten.
- `Schema.ParseExpense`: an omitted note and a `null` note both become a stored note of none. The source keeps the difference: the JSON that POST and GET /api/expenses send (server/routes.ts:60 and :48) has no `note` key in the first case and `"note": null` in the second. Every reader in the program treats the two alike (`note || ''` at server/routes.ts:80, `transaction.note || 'No description'` at client/src/components/dashboard/dashboard.tsx:256).
- The OpenAI call, its prompt text and the `JSON.parse` of its reply are the `provider` parameter. An empty reply, which the source parses as `{"tips": []}`, is the outcome `Replied([])`. The success body is modelled as the tips list, not as an arbitrary parsed JSON object. Logging to the console is not modelled.
- The 500 branch of GET /api/expenses is not reachable in the model, because the store's queries do not fail.
- Rendering, animation, the decorative "12.5%" figure and `Math.floor(totalExpenses / 4)`, the React Query cache, and the other client components are not part of this model.
