# School coin ledger, modelled in Dafny

This project models the core of a school reward system. Teachers give
students coins, students spend the coins on items from a catalog, and
admins manage the catalog and the teacher list. The model covers five
parts of the system.

- **The ledger server** (`server.dfy`, module `Server`).
  - It resolves a bearer token to a caller id, including the two demo tokens.
  - It seeds the demo admin and the demo teacher at start-up.
  - It models the handlers `add-student`, `give-coins`, `buy-item`,
    `add-item`, `transactions/:studentId`, `students` and `login-student`.
  - The key-value store is a `Store` object with one table per key prefix
    (`user:`, `item:`, `transaction:`). Each handler is a method on it.
    A handler either fails with an HTTP error and writes nothing, or
    writes the records the server writes.
  - `keyvalue.dfy` models a table. It keeps its records in enumeration
    order, keyed by the record's `id`. `Get` finds the record under a key.
    `Put` overwrites that record, or appends one when the key is new.
- **The item catalog screen** (`catalog.dfy`, module `Catalog`): add,
  delete and toggle items, the search, the totals and the three most
  popular items.
- **The student overview screen** (`studentstats.dfy`, module
  `StudentStats`): the search, the total, average and highest balance,
  the teacher-name lookup, the balance colours and ranges, the status
  badge, and the in-place sort behind "Top Students".
- **The teacher directory screen** (`teacherlist.dfy`, module
  `TeacherList`): add and delete teachers, the search, the status badge,
  the active count and the average number of students.
- **The translation lookup** (`language.dfy`, module `Language`). It
  holds the whole Uzbek/English table, the current-language state, and
  the lookup that falls back to the key.

Shared pieces:

- `seqs.dfy` models the array operations the source uses. These are
  filter, find-index, sum, a stable sort into non-increasing order,
  slice, and `Math.round` of a mean.
- `text.dfy` models case-insensitive substring search and decimal
  number formatting.
- `wrappers.dfy` holds `Option` and `Result`.

In three places the code does less than one might expect. The model
follows the code in each.

- One might expect `give-coins` to check that the amount is positive.
  It does not: any integer is added, including zero or a negative amount.
- One might expect `buy-item` to count the sale in the item's
  `purchaseCount`. It does not: the item record is left unchanged.
- One might expect student ids to be unique. They are random and never
  checked, so every lookup by student id takes the first record in
  store order.

## Model

| member | source | states |
|---|---|---|
| KeyValue.Get | src/supabase/functions/server/index.tsx:265 | A record is found under a key exactly when some stored record has that key, and the record found is a stored one with that key. |
| KeyValue.Put | src/supabase/functions/server/index.tsx:335 | A write stores the record, and the table grows by at most one. |
| KeyValue.PutGet | src/supabase/functions/server/index.tsx:335 | After a write, the key reads back the written record, and every other key reads what it read before. |
| KeyValue.PutNew | src/supabase/functions/server/index.tsx:348 | Writing under a key that is not yet stored appends the record at the end. |
| KeyValue.PutKeepsUnique | src/supabase/functions/server/index.tsx:335 | A write keeps the keys of the table unique. |
| KeyValue.GetAt | src/supabase/functions/server/index.tsx:318 | With unique keys, reading the key of the record at position i finds that record, at position i. |
| KeyValue.PutAt | src/supabase/functions/server/index.tsx:335 | With unique keys, writing a record under an existing key replaces that record in place and leaves the order unchanged. |
| Server.BearerToken | src/supabase/functions/server/index.tsx:31-39 | The token is the text after the first space, up to the next space. There is no token when the header is missing, has no space, or the token part is empty. |
| Server.BearerTokenOf | src/supabase/functions/server/index.tsx:36-39 | A header made of a scheme, one space and a token (plus any further space-led text) yields exactly that token, or none when the token is empty. |
| Server.Authenticate | src/supabase/functions/server/index.tsx:30-67 | The demo admin token resolves to `admin-default` and the demo teacher token to `teacher-default`. Any other token resolves to what the identity provider answers. A missing token resolves to nothing. |
| Server.AdminTokenResolves | src/supabase/functions/server/index.tsx:41-43 | The header `Bearer demo-admin-token` resolves to `admin-default` whatever the identity provider says. |
| Server.TeacherTokenResolves | src/supabase/functions/server/index.tsx:45-47 | The header `Bearer demo-teacher-token` resolves to `teacher-default` whatever the identity provider says. |
| Server.Authorize | src/supabase/functions/server/index.tsx:260-268 | It gives 401 exactly when no caller id resolves. Otherwise it gives 403 with the handler's text when the caller has no record or the wrong role. It succeeds exactly when the caller's record exists with an allowed role, and then returns that record. |
| Server.GenerateStudentId | src/supabase/functions/server/index.tsx:25-27 | For every draw in [0, 1), the id is ten decimal digits without a leading zero, and its value lies in [1000000000, 9999999999]. |
| Server.SeedDefaults | src/supabase/functions/server/index.tsx:70-102 | The demo admin and demo teacher records are written only when their keys are absent. Every other key keeps its record, and keys stay unique. |
| Server.SeedIdempotent | src/supabase/functions/server/index.tsx:70-102 | Seeding a second time, at any time, leaves the user table as the first seeding left it. |
| Server.Store.InitializeDefaultAccounts | src/supabase/functions/server/index.tsx:70-102 | The user table becomes the seeded table. Items and transactions are unchanged. |
| Server.StudentIndex | src/supabase/functions/server/index.tsx:179 | The position of the first user carrying the student id, or the table's length when none does. |
| Server.StudentLogin | src/supabase/functions/server/index.tsx:173-190 | Returns the first record with that student id. Fails with 404 `Student ID not found` exactly when no record carries it. |
| Server.Store.LoginStudent | src/supabase/functions/server/index.tsx:173-190 | Login reads the store and gives what `StudentLogin` gives: the first stored record with the student id, or 404 `Student ID not found` exactly when no stored user has it. |
| Server.StudentRecords | src/supabase/functions/server/index.tsx:534-537 | Exactly the user records whose role is student, each as often as it is stored. |
| Server.Store.GetStudents | src/supabase/functions/server/index.tsx:522-544 | 401 exactly when no caller id resolves, otherwise 403 `Access denied` unless the caller is a stored teacher or admin. On success the listing is `StudentRecords`: exactly the student records, each as often as stored. |
| Server.StudentTransactions | src/supabase/functions/server/index.tsx:508-512 | Exactly the transactions of that student id, as a permutation of them, newest first. |
| Server.Store.GetTransactions | src/supabase/functions/server/index.tsx:500-519 | Fails with 401 exactly when no caller id resolves. Otherwise the listing is `StudentTransactions`: the student's transactions, each as often as stored, newest first. Nothing is written. |
| Server.RecordMovesLedger | src/supabase/functions/server/index.tsx:337-348 | Writing a transaction under a fresh id moves its student's sum of amounts by the transaction's amount. Every other student's sum is unchanged. |
| Server.Store.AddStudent | src/supabase/functions/server/index.tsx:258-308 | Failure cases: 401 or 403 from the caller check, then 400 with the provider's message. Each writes nothing. On success it stores one student record with balance 0, the caller as teacher and a ten-digit student id. |
| Server.Store.GiveCoins | src/supabase/functions/server/index.tsx:311-355 | Failure cases: 401, 403, then 404 `Student not found`. Each writes nothing. On success the first matching student's balance becomes old + amount, that value is returned, and no other user changes. One `received` transaction is written with the student id, the caller, the amount and the reason. Under a fresh transaction id the student's ledger sum moves by exactly the amount, the same change as the balance. |
| Server.Store.Credit | src/supabase/functions/server/index.tsx:333-348 | The student at the found position gets old balance + amount in place, no other user changes, and the transaction is written, as one more record when its id is fresh, which then moves the student's ledger sum by the transaction's amount. Items are unchanged and keys stay unique. |
| Server.CheckPurchase | src/supabase/functions/server/index.tsx:450-473 | The checks run in the handler's order: 401/403 caller check, 404 unknown item, 400 unavailable item, 400 insufficient coins. A purchase that passes is by a student, of an available stored item, and the balance covers the price. |
| Server.Store.BuyItem | src/supabase/functions/server/index.tsx:448-497 | Every rejection writes nothing. On success the buyer's balance becomes old - price, which is at least 0, and is returned. One `purchase` transaction is written with amount -price, the buyer's student id, the item id and the item name. Under a fresh transaction id the buyer's ledger sum drops by exactly the price, the same change as the balance. Items are unchanged. |
| Server.Store.Charge | src/supabase/functions/server/index.tsx:475-490 | The buyer's record is written back with old balance - price, and one `purchase` transaction with amount -price, the item id and the item name is written. Under a fresh transaction id the buyer's ledger sum drops by the price. Items are unchanged and keys stay unique. |
| Server.Store.AddItem | src/supabase/functions/server/index.tsx:404-434 | Only admins may add items (401/403 otherwise). An item stored without `available` is available. Users and transactions are unchanged. |
| Catalog.NewItem | src/components/admin/AdminItems.jsx:27-35 | The new item carries the form's name, price, description and flag, the given id and time, and no sales. |
| Catalog.ItemCatalog.AddItem | src/components/admin/AdminItems.jsx:25-40 | The list becomes the old list plus exactly one new item at the end, with zero sales. |
| Catalog.Without | src/components/admin/AdminItems.jsx:42-44 | Keeps exactly the items with a different id, each as often as before. |
| Catalog.WithoutKeepsOrder | src/components/admin/AdminItems.jsx:42-44 | Deleting from a concatenation deletes from each part, so the kept items stay in their order. |
| Catalog.ItemCatalog.DeleteItem | src/components/admin/AdminItems.jsx:42-44 | The list becomes the old list without the items of that id. |
| Catalog.Toggled | src/components/admin/AdminItems.jsx:46-50 | Length is unchanged. Only `available` can change, and it flips exactly on items with a matching id. |
| Catalog.ToggleTwice | src/components/admin/AdminItems.jsx:46-50 | Toggling the same id twice restores the list. |
| Catalog.ToggleKeepsTotal | src/components/admin/AdminItems.jsx:46-50 | Toggling never changes the catalog's total value. |
| Catalog.ItemCatalog.ToggleAvailability | src/components/admin/AdminItems.jsx:46-50 | The list becomes the toggled list. |
| Catalog.Filtered | src/components/admin/AdminItems.jsx:52-55 | Keeps exactly the items whose name or description contains the term, ignoring case. |
| Catalog.EmptySearchKeepsAll | src/components/admin/AdminItems.jsx:52-55 | An empty term keeps every item, in order. |
| Catalog.TotalValue | src/components/admin/AdminItems.jsx:57 | 0 for an empty catalog. When no price is negative the total is non-negative and at least each item's price. |
| Catalog.AvailableCount | src/components/admin/AdminItems.jsx:58 | The count is at most the number of items, and positive when some item is available. |
| Catalog.AddMovesTotals | src/components/admin/AdminItems.jsx:57-58 | Adding an item raises the total value by its price, and raises the available count by one exactly when the item is available. |
| Catalog.AveragePrice | src/components/admin/AdminItems.jsx:173 | 0 for an empty catalog. Otherwise the total value divided by the count, rounded half up. |
| Catalog.Popular | src/components/admin/AdminItems.jsx:294-296 | At most three items, drawn from the filtered ones, sorted by non-increasing sales. A missing count is treated as 0. No item left out sold more than a chosen one. |
| StudentStats.FilteredStudents | src/components/admin/AdminStudents.jsx:14-18 | Keeps exactly the students whose name, student id or (when present) email contains the term, ignoring case. |
| StudentStats.EmptySearchKeepsAllStudents | src/components/admin/AdminStudents.jsx:14-18 | An empty term keeps every student, in order. |
| StudentStats.TotalCoins | src/components/admin/AdminStudents.jsx:20 | 0 without students. When no balance is negative the total is non-negative and at least each student's balance. |
| StudentStats.AverageCoins | src/components/admin/AdminStudents.jsx:21 | 0 without students. Otherwise the total balance divided by the count, rounded half up. |
| StudentStats.MaxBalance | src/components/admin/AdminStudents.jsx:22 | For a non-empty list, no student has a larger balance and some student has exactly that balance. |
| StudentStats.HighestBalance | src/components/admin/AdminStudents.jsx:22 | 0 without students. Otherwise the largest balance: no student has more, and some student has exactly that much. |
| StudentStats.TotalCoinsBound | src/components/admin/AdminStudents.jsx:20 | The total balance is at most the number of students times any bound on the balances. |
| StudentStats.AverageAtMostHighest | src/components/admin/AdminStudents.jsx:20-22 | The average balance shown never exceeds the highest balance shown. |
| StudentStats.TeacherName | src/components/admin/AdminStudents.jsx:24-27 | The name of the first teacher whose id matches, or `Unassigned` when none does or the student has no teacher. |
| StudentStats.BalanceColor | src/components/admin/AdminStudents.jsx:29-34 | Green exactly for 100 and up, blue for 50 to 99, yellow for 20 to 49, red below 20. |
| StudentStats.RangesPartition | src/components/admin/AdminStudents.jsx:29-41 | Every balance falls in exactly one of the four ranges, and each range matches its balance colour. |
| StudentStats.RangeCountsSum | src/components/admin/AdminStudents.jsx:36-41 | The four range counts add up to the number of students. |
| StudentStats.CoinRanges | src/components/admin/AdminStudents.jsx:36-41 | Four cards, lowest range first, each with its title, its colour classes and the number of students in its range. The counts add up to the number of students. |
| StudentStats.Status | src/components/admin/AdminStudents.jsx:192-193 | `Active` exactly when the balance is positive, otherwise `New`. |
| StudentStats.SinkLast | src/components/admin/AdminStudents.jsx:213 | One insertion pass: the first i + 1 entries become sorted by non-increasing balance, the entries after them are untouched, and the array keeps its multiset of students. |
| StudentStats.SortByBalance | src/components/admin/AdminStudents.jsx:213 | Sorts the array in place by non-increasing balance, as a permutation of its students. |
| StudentStats.TopStudents | src/components/admin/AdminStudents.jsx:212-214 | The array ends up sorted and permuted, and the panel shows its first five entries. No student left out has a higher balance than a shown one. |
| TeacherList.NewTeacher | src/components/admin/AdminTeachers.jsx:24-31 | The new teacher has the form's name and email, status `active` and no students. The password is not stored. |
| TeacherList.TeacherDirectory.AddTeacher | src/components/admin/AdminTeachers.jsx:22-36 | The list becomes the old list plus exactly one new teacher at the end. |
| TeacherList.WithoutTeacher | src/components/admin/AdminTeachers.jsx:38-40 | Keeps exactly the teachers with a different id, each as often as before. |
| TeacherList.DeleteCount | src/components/admin/AdminTeachers.jsx:38-40 | The kept teachers plus the teachers of that id make up the whole list. |
| TeacherList.TeacherDirectory.DeleteTeacher | src/components/admin/AdminTeachers.jsx:38-40 | The list becomes the old list without the teachers of that id. |
| TeacherList.FilteredTeachers | src/components/admin/AdminTeachers.jsx:42-45 | Keeps exactly the teachers whose name or email contains the term, ignoring case. |
| TeacherList.EmptySearchKeepsAllTeachers | src/components/admin/AdminTeachers.jsx:42-45 | An empty term keeps every teacher, in order. |
| TeacherList.StatusBadge | src/components/admin/AdminTeachers.jsx:177-178 | `Active` exactly for the status `active`, otherwise `Inactive`. |
| TeacherList.ActiveCount | src/components/admin/AdminTeachers.jsx:229-231 | At most the number of teachers. It equals that number when every teacher is active, and it is positive exactly when some teacher is active. |
| TeacherList.TotalStudents | src/components/admin/AdminTeachers.jsx:241 | 0 without teachers, a missing count adding 0. When no count is negative the total is non-negative and at least each teacher's count. |
| TeacherList.AverageStudents | src/components/admin/AdminTeachers.jsx:241 | 0 without teachers. Otherwise the total students divided by the count, rounded half up, with a missing count treated as 0. |
| TeacherList.AddMovesCounts | src/components/admin/AdminTeachers.jsx:22-36 | Adding a teacher raises the active count by one and leaves the student total unchanged. |
| Language.TableComplete | src/components/LanguageContext.jsx:3-126 | Every entry of the table has a non-empty Uzbek text and a non-empty English text. |
| Language.Translate | src/components/LanguageContext.jsx:133-135 | Returns the key itself when the key is absent or the language is neither `uz` nor `en`. Otherwise returns the entry's text in that language, or the key when that text is empty. |
| Language.KnownKeyTranslates | src/components/LanguageContext.jsx:133-135 | In a complete table, every key translates to its own non-empty text in both languages. |
| Language.LanguageProvider.constructor | src/components/LanguageContext.jsx:3-131 | The interface starts in Uzbek, with the shipped table, which is complete. |
| Language.LanguageProvider.SetLanguage | src/components/LanguageContext.jsx:131-138 | Changing the language changes every later lookup to the new language, and nothing else. |
| Language.LanguageProvider.T | src/components/LanguageContext.jsx:133-135 | An unknown key, or a language other than `uz` and `en`, reads as the key itself. A known key reads as its non-empty text in the current language. |
| Text.Includes | src/components/admin/AdminItems.jsx:53-54 | Substring search: true exactly when the term occurs at some position. |
| Text.MatchesIgnoresTermCase | src/components/admin/AdminItems.jsx:53-54 | The search gives the same answer for a term and its lower-cased form. |
| Text.DecimalRoundTrip | src/supabase/functions/server/index.tsx:26 | Reading back the decimal text of a number gives the number. |
| Text.DecimalLength | src/supabase/functions/server/index.tsx:26 | A number in [10^(k-1), 10^k) is written with exactly k digits. |
| Seqs.SortDesc | src/components/admin/AdminItems.jsx:295 | The sort is a permutation into non-increasing key order. |
| Seqs.TopOfSorted | src/components/admin/AdminItems.jsx:295-296 | After sorting, no element past the first n has a larger key than one of the first n. |
| Seqs.Top | src/components/admin/AdminItems.jsx:294-296 | At most n elements, the multiset of them contained in the input, sorted by non-increasing key, and no element left out has a larger key than one taken. |
| Seqs.SumByNonNegative | src/components/admin/AdminItems.jsx:57 | A sum of non-negative terms, as a reduce from 0 computes it, is non-negative and at least each term. |
| Seqs.RoundedMean | src/components/admin/AdminItems.jsx:173 | `Math.round(total / n)`: the integer nearest the mean, with halves rounded up. |
| Seqs.RoundedMeanAtMost | src/components/admin/AdminStudents.jsx:21-22 | The rounded mean of values bounded by b is at most b. |

## Left out

- The transport layer is not modelled. That covers routing, CORS, the logger and JSON parsing. A malformed body and the 500 answers of the `catch` blocks are not modelled either.
- The identity provider is a parameter. Token validation is the function `provider`, and account creation is the `created` argument, holding a new id or an error text. Environment variables and the client setup are not modelled.
- The randomness and the clocks are inputs. `Math.random` is the `draw` argument, the generated ids are arguments, and the timestamps are integers. ISO date strings and their parsing are not modelled.
- Server.GenerateStudentId: the model works in exact real arithmetic. It does not model floating-point rounding of the product.
- Student-id uniqueness is not proved, because the code never checks it. Lookups take the first matching record.
- The key-value store module is not part of this model. The model assumes that its prefix scan lists records in insertion order, that overwriting a key keeps the record's place, and that a new key goes at the end. Every first-match lookup, such as `StudentIndex` and `StudentLogin`, depends on that order.
- Roles: a role string is `Admin`, `Teacher` or `Student` when it is one of the three known names. By convention `OtherRole` never holds `admin`, `teacher` or `student`. The model does not enforce this, and `Authorize` rejects such a value as an unknown role.
- Concurrency is not modelled. Each handler is one atomic step. The source writes the balance and the transaction with two separate store calls, so concurrent requests can lose updates.
- Server.Store.GiveCoins: the amount is an integer. The JavaScript `+=` on a non-numeric amount is not modelled, and neither is a request with no student id, which would match the first record that has none.
- Server.Store.LoginStudent: the student id is a string. A request with no student id, which would match the first record that has none, is not modelled.
- Records without a coin balance (admins and teachers) hold 0 in the model.
- The `add-item` handler takes the request's price and name as they come. Their types are not checked.
- Several endpoints are not modelled, because each is a thin wrapper over the identity provider or a read of the store with no logic. These are `health`, `test-admin`, `signup`, `simple-login`, `user`, `get-user-by-token`, `items` and `add-teacher`.
- Catalog.NewItem: the form's price is the integer `parseInt` produced. A price that does not parse is not modelled.
- The averages use exact integer rounding of the mean. Floating-point division is not modelled.
- Text.Lower: case folding covers ASCII letters only.
- Seqs.SortDesc: the model never swaps equal keys, so it is stable as ECMAScript's sort is. Stability is not stated as a proved property.
- Language.Translate: a language named after a built-in object property (such as `toString`) would return that property in JavaScript. This is not modelled.
- Rendering, dialogs and form resets are not modelled, and neither are the other screens and the client dashboards.
