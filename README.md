# Invoice generator backend — a Dafny model

This project models the logic inside the Express/Mongoose server of an
invoicing application (`server.js`). The server has four parts:

- **Invoice numbering.** One counter per (company, day, warranty status).
  An allocation finds that counter or creates it at 1, otherwise adds 1, and
  returns `company/DDMMYYYY/NNN/bw|aw`.
- **The two invoice routes.** `POST /api/invoices/next-number` and
  `POST /api/invoices`: which requests are refused before a counter moves,
  and how a failed save becomes a reply. In the one-request-at-a-time model,
  a duplicate invoice number (Mongo error 11000) on the invoice's save is a
  400 of its own, and every other failure is a 500.
- **Chat history.** `POST /save-chat` stores one session per turn.
  `GET /chat-history/:mobile` concatenates the message lists of a number's
  sessions, oldest first.
- **Accounts.** `POST /signup`, `POST /login` and `GET /user`.

Each Mongo collection is an in-memory value:

- a `map` from counter key to counter (`InvoiceCounters.CounterStore`);
- a `seq` of invoices, chat sessions or users (`Invoices.InvoiceStore`,
  `Chats.ChatStore`, `Users.UserStore`).

How each route is written:

- The two invoice routes are pure functions over those values
  (`Invoices.CreateInvoice`, `Invoices.IssueNextNumber`). Each returns the
  new state and the reply. The route methods `Invoices.CreateInvoiceRoute`
  and `Invoices.NextNumberRoute` change the stores, and their `ensures`
  tie them to those functions.
- `/save-chat` and `/signup` change their store and exist only as methods
  (`Chats.ChatStore.SaveChat`, `Users.UserStore.Signup`). Their `ensures`
  state the whole new state and the reply.
- `/login` and `/user` change nothing. They are functions of the user
  store that read it (`Users.UserStore.Login`, `Users.UserStore.GetUser`).
- `/chat-history` is the loop method `Chats.ChatStore.ChatHistory`, proved
  equal to a recursive definition.

Inputs that are not part of the state are explicit parameters:

- The clock is `day`, a zero-based `monthIndex` (as `getMonth()`) and
  `year`, plus an `Instant` for stored timestamps.
- Whether a storage call fails is a `bool`.

The modules follow the server's structure:

- `JsStrings`: the JavaScript string operations used, namely `String(n)`,
  `padStart` and truthiness.
- `InvoiceFormat`: the date and number formats, plus a parser that inverts
  the number format.
- `InvoiceCounters`: the counter table and `getNextInvoiceNumber`.
- `Invoices`: the invoice collection, both invoice routes, and the theorem
  that, run one request at a time, the duplicate-number branch is never
  taken.
- `Chats`: the chat collection and its two routes.
- `Users`: the user collection and its three routes.

Two facts about the code shape the model:

- The counter is read with `findOne`, changed in memory and written back
  with `save`. It is not updated atomically.
- `/signup` and `/login` have no `try`/`catch`. The model takes Express 4,
  where the rejected promise is never answered, so a storage failure
  leaves the request without any reply (`SignupNoReply`, `LoginNoReply`).

## Model

| member | source | states |
|---|---|---|
| JsStrings.Truthy | server.js:70-320 | `!x` of a request field: an absent or null field and the empty string are falsy, every other string is truthy |
| JsStrings.NatToString | server.js:233-234 | `String(n)` of a non-negative integer: at least one digit, only digits, and it starts with '0' exactly when n is 0 |
| JsStrings.IntToString | server.js:235-236 | `String(year)`: a non-negative year is all digits and reads back as the year; a negative one is '-' followed by digits that read back as its magnitude; no leading zero except in "0" itself, so the numeral is the shortest one |
| JsStrings.NatToStringValue | server.js:273 | reading the numeral of n back as decimal digits gives n |
| JsStrings.NatToStringLength | server.js:273 | the numeral of n has at most k digits exactly when n < 10^k |
| JsStrings.PadStart | server.js:233-234 | `padStart` reaches the target length when shorter and never truncates a longer string |
| JsStrings.PadStartShape | server.js:273 | the padded string ends with the original string, and only pad characters stand in front of it |
| JsStrings.LeadingZerosValue | server.js:273 | zeros in front of a numeral do not change the number it denotes |
| JsStrings.PaddedNumeralValue | server.js:233-234 | `String(n).padStart(w, '0')` is all digits, still denotes n, and is exactly w long when n < 10^w |
| InvoiceFormat.FormatDateToDDMMYYYY | server.js:232-237 | the formatted date never contains '/', so it cannot blur the fields of an invoice number |
| InvoiceFormat.DateLayout | server.js:232-237 | for 1 ≤ day ≤ 31, month index ≤ 11 and a four-digit year the date is 8 digits; positions 0-1, 2-3 and 4-7 read back as the day, the month index + 1 and the year |
| InvoiceFormat.DateExample | server.js:232-237 | 1 May 2024 (month index 4) is written "01052024" |
| InvoiceFormat.WarrantySuffix | server.js:239-242 | "bw" exactly for the status "Before"; "aw" for every other string, invalid statuses included |
| InvoiceFormat.PadCounter | server.js:273 | the padded counter is 3 characters below 1000, otherwise the full numeral; all digits; it denotes the counter |
| InvoiceFormat.PadCounterExamples | server.js:273 | counters 1 and 2 become "001" and "002"; counter 1000 stays "1000" |
| InvoiceFormat.InvoiceNumber | server.js:272-275 | the number is the company, the date, the padded counter and the suffix, joined by '/'; `InvoiceNumberRoundTrip` proves that the parts can be read back |
| InvoiceFormat.InvoiceNumberRoundTrip | server.js:272-275 | parsing `company/date/counter/suffix` from the right gives back the company, date, counter and suffix it was built from |
| InvoiceFormat.ParseAssembled | server.js:275 | the parser splits `company/date/digits/suffix` at its last three '/', even when the company name contains '/' |
| InvoiceFormat.InvoiceNumberInjective | server.js:272-275 | two numbers built from slash-free dates are equal only if company, date, counter and suffix agree |
| InvoiceFormat.FirstBeforeNumberExample | server.js:275 | the first "Before" number of the day for Acme is "Acme/01052024/001/bw" |
| InvoiceFormat.SecondBeforeNumberExample | server.js:275 | the second is "Acme/01052024/002/bw" |
| InvoiceFormat.FirstAfterNumberExample | server.js:275 | the first "After" number is "Acme/01052024/001/aw" |
| InvoiceCounters.TodayKey | server.js:246-254 | the lookup key carries the caller's company and status unchanged and a slash-free date |
| InvoiceCounters.NextCounter | server.js:256-268 | the counter an allocation stores is one more than the value the key has reached, which is 0 for a key with no record |
| InvoiceCounters.Allocate | server.js:256-270 | one allocation adds the key if it was absent, sets it to its previous value + 1 (1 for a new record), and leaves every other entry as it was |
| InvoiceCounters.RunCurrent | server.js:250-270 | after any run of allocations each key has moved on by the number of allocations made for it |
| InvoiceCounters.ReturnedAt | server.js:250-275 | the i-th allocation of a run returns the key's starting value plus the number of allocations for that key up to and including the i-th; allocations for other keys in between do not matter |
| InvoiceCounters.AllocationsNeverRepeat | server.js:250-275 | two allocations for the same key never return the same counter; the later one is larger |
| InvoiceCounters.FreshKeyCountsFromOne | server.js:256-263 | n allocations for a key with no record return exactly 1, 2, …, n, with no gap or repeat |
| InvoiceCounters.WarrantyStatusesNumberSeparately | server.js:160 | "Before" and "After" on one company and day each start at 1, in either order |
| InvoiceCounters.CounterStore.NextInvoiceNumber | server.js:245-281 | find-or-create-then-increment on the table; a failed lookup or save leaves the table unchanged; otherwise the table is `Allocate` of the old one and the result is the formatted number carrying the stored counter |
| Invoices.StoredProducts | server.js:187-201 | each stored product line is the request's line in the same position, an undefined quantity defaulting to 1 and a null one kept null |
| Invoices.StoredProduct | server.js:187-201 | name and price are stored as given; an undefined quantity becomes 1, an explicit null stays null, a number is kept |
| Invoices.BuildInvoice | server.js:328-340 | the new document carries the allocated number and the creation time; queryId, customer name and address, company, status, subtotal, tax, total and generated date are the request's; the product lines are `StoredProducts` of the request's lines |
| Invoices.SchemaAccepts | server.js:164-227 | the invoice schema's validators: required strings non-empty, every product with a name, a price and a quantity, the status one of "Before" and "After", totals present, a valid generated date |
| Invoices.HasRequiredInvoiceFields | server.js:319-322 | the route's own check: queryId, customerName, customerAddress, companyName and warrantyStatus truthy, and products present |
| Invoices.EmptyProductListPasses | server.js:320 | an empty products list passes the route's check and an absent one does not |
| Invoices.SaveInvoice | server.js:165-227 | a save succeeds exactly when the schema accepts the document, storage works and the number is not yet stored; it is refused as a duplicate exactly when the number is already stored; a new document's id is its position |
| Invoices.InvoiceStore.Save | server.js:342 | the collection grows by the document exactly when the save succeeds |
| Invoices.CreateInvoice | server.js:304-367 | the reply is "missing fields" exactly when a required field is falsy; a failed allocation is the 500 with both collections unchanged; otherwise the outcome is `RecordInvoice` of one allocation and the document built with the counter + 1; a reply of 201 is given exactly when the invoice collection changed |
| Invoices.ViewOf | server.js:344-356 | the 201 reply shows the document's id, number, queryId, customer name, company, status, total and creation time |
| Invoices.RecordInvoice | server.js:342-366 | a duplicate number becomes the 400 "already exists"; a validation or storage failure becomes the 500; a success appends the document, which passes the schema, and shows it as the reply; the counters are not touched |
| Invoices.NullQuantityIsServerError | server.js:196-365 | a product with a null quantity fails validation after the counter has moved on: the 500, no invoice written, the counter advanced |
| Invoices.RejectedInvoiceChangesNothing | server.js:320-322 | a request refused with 400 before allocation changes neither the counters nor the invoices |
| Invoices.CounterAdvancesBeforeSave | server.js:325-342 | once validation passes and allocation succeeds, the counter has moved on whatever the save then does |
| Invoices.CreatedInvoiceIsAppended | server.js:328-356 | a created invoice is appended as the last document, passes the schema, carries the number for the key's counter + 1, and the reply shows it |
| Invoices.DuplicateNumberIsRefused | server.js:361-363 | if the allocated number is already stored, the reply is the 400 "already exists", no invoice is written, and the counter has still moved on |
| Invoices.CreateInvoiceAdvances | server.js:320-325 | a request that passes validation moves the day's counter on by one, and a created invoice shows the new value |
| Invoices.IssueNextNumber | server.js:286-301 | "missing fields" exactly when company or status is falsy (any status string otherwise passes); a failed allocation is the 500 with the table unchanged; a 200 exactly when the table changed; on success the table is one allocation on and the shown number carries the counter + 1 |
| Invoices.IssueFor | server.js:294-296 | a successful allocation changes the table and shows the number with the key's counter + 1 |
| Invoices.NextNumberAdvances | server.js:294 | a successful /next-number moves the day's counter on by one and shows the new value |
| Invoices.NextNumberRoute | server.js:286-301 | the route over the counter collection leaves the table and returns the reply that `IssueNextNumber` gives |
| Invoices.CreateInvoiceRoute | server.js:304-367 | the route over both collections leaves them and returns the reply that `CreateInvoice` gives |
| Invoices.AllIssuedMonotone | server.js:250-270 | a table whose counters have only grown still accounts for every stored invoice |
| Invoices.AllIssuedAppend | server.js:342 | appending an invoice whose number the table accounts for keeps every stored invoice accounted for |
| Invoices.SuffixSeparatesStatuses | server.js:240-242 | the two enum statuses get different suffixes |
| Invoices.FreshNumberNotTaken | server.js:273-275 | when the table accounts for every stored invoice, the next number for a key is not the number of any stored invoice |
| Invoices.CreateInvoiceNeverDuplicates | server.js:361-363 | run one request at a time from a table that accounts for every stored invoice, POST /api/invoices never replies "already exists", and the table still accounts for every invoice afterwards |
| Invoices.ValidInvoiceIsCreated | server.js:320-356 | run one request at a time, a request that passes the route's check, whose document passes the schema and whose storage works is answered with the 201; the invoice is appended and shown with the number for the key's counter + 1 |
| Invoices.NextNumberKeepsInvoicesIssued | server.js:294 | /next-number keeps the table accounting for every stored invoice |
| Invoices.PreviewedNumberIsSkipped | server.js:294 | the number /next-number shows is used up: an invoice created next for the same company, status and day carries the following counter, and a different number |
| Invoices.CountersGiveDistinctNumbers | server.js:272-275 | two counters of one company, day and status give two different numbers |
| Users.FindOne | server.js:39 | `findOne` returns the first stored user the filter matches, and nothing exactly when no user matches |
| Users.LaterUsersDoNotChangeFindOne | server.js:51-53 | users stored later never change which user a successful lookup returns |
| Users.UserStore.Signup | server.js:31-35 | the body is appended as a new user with no duplicate check; afterwards logging in with its mobile and password succeeds; a failed write leaves no reply |
| Users.UserStore.Login | server.js:37-45 | success exactly when some stored user has exactly this mobile number and password; a failed lookup gives no reply |
| Users.UserStore.GetUser | server.js:48-60 | the first user with this mobile number; 404 exactly when there is none; 500 exactly when the lookup fails |
| Chats.HasRequiredChatFields | server.js:70-75 | the route's check: a truthy mobile number and both messages present |
| Chats.MessagesOf | server.js:117-118 | a session contributes its messages array, or nothing when it has none |
| Chats.Flatten | server.js:115-120 | the message lists of the sessions joined in their order |
| Chats.SessionsOf | server.js:110 | `find({ mobile })` keeps exactly the sessions of that number, each as often as it is stored, and nothing else |
| Chats.Insert | server.js:110-111 | inserting into a sorted list keeps it sorted by createdAt and adds exactly the one session |
| Chats.SortByCreatedAt | server.js:110-111 | `.sort({ createdAt: 1 })` yields a permutation of its input, sorted oldest first |
| Chats.FindSorted | server.js:110-111 | the query result is sorted, holds exactly the number's sessions, and is empty exactly when the number has no session |
| Chats.FindSortedCounts | server.js:111-112 | the query result holds each stored session of the number exactly as often as it is stored, and no session of another number |
| Chats.FlattenAppend | server.js:115-120 | flattening a concatenation concatenates the flattened parts |
| Chats.FlattenStep | server.js:115-120 | one more session adds its messages at the end, none for a session without a messages array |
| Chats.ChatHistoryOf | server.js:110-120 | the history is the flattened message lists of the number's sessions, oldest first |
| Chats.NoSessionsEmptyHistory | server.js:111-125 | a number with no sessions has an empty history, not an error |
| Chats.SessionsOfAppend | server.js:77-86 | a stored session joins the end of its own number's sessions and no other number's |
| Chats.SortAppendLatest | server.js:110-111 | sorting a list whose last session is the newest keeps that session last |
| Chats.FindSortedAppendLatest | server.js:77-111 | storing the newest session adds it at the end of its own number's query result |
| Chats.SaveExtendsHistory | server.js:77-120 | saving a turn created no earlier than every stored session extends that number's history by the turn's messages and leaves every other number's history unchanged |
| Chats.ChatStore.SaveChat | server.js:63-102 | a request with a falsy mobile or a missing message writes nothing (400); a failed write writes nothing (500); otherwise exactly one new session holding the two messages in order, created now |
| Chats.ChatStore.ChatHistory | server.js:105-133 | the loop that pushes each session's messages returns the recursive `Flatten` of the sorted sessions; an empty history for a number with no sessions; 500 on a failed lookup |

## Left out

- Concurrency. Requests are modelled one at a time. Two races between the
  counter's `findOne` and its `save` are not modelled:
  - The lost update on an existing counter, where two requests get the same
    number. `DuplicateNumberIsRefused` shows what the code then does with
    the second invoice.
  - Two first allocations for one key, where both lookups find nothing and
    the second counter's `save` breaks the compound unique index with error
    11000. `/api/invoices` then answers with the 400 "already exists",
    although no such invoice exists, and `/next-number` answers with a 500.
    In the model a counter's save fails only as a plain storage failure,
    which gives the 500 on both routes.
- The clock. `new Date()` becomes the `day`/`monthIndex`/`year` parameters
  and an `Instant`.
  - The model does not check that these form a calendar date.
  - `lastUpdated` and the timestamp inside each message are stored values
    only.
  - `new Date(generatedDate)` becomes an `Option<Instant>`, with `None` for
    an invalid date.
- Numbers.
  - Subtotal, tax, total, price and quantity are JavaScript floats that are
    stored and never computed on; they are an opaque `real`.
  - Counters are unbounded `nat`s. JavaScript's loss of integer precision
    above 2^53, and `String(n)` switching to exponent notation at 10^21, are
    not modelled.
- Storage. Mongo becomes maps and sequences, and every storage error is one
  `bool`.
  - Cast errors, connection loss and write errors all count as that single
    failure.
  - `_id` is the document's position in its collection.
- Query order. `Chats.SortByCreatedAt` keeps storage order among sessions
  created at the same instant. Mongo promises no order for such ties.
- `Users.FindOne`: returns the first match in storage order. MongoDB's
  `findOne` without a sort promises no particular match when several users
  share a mobile number (and a password). Which user `/user` returns is then
  this model's choice.
- Unhandled rejections. Under Express 5, a failed `/signup` or `/login`
  would be answered with a 500 by the default error handler. Under
  Express 4 on Node 15 or later, the unhandled rejection would stop the
  whole process. Neither is modelled; the model gives no reply.
- `Chats.SaveExtendsHistory`: requires the new session to be created no
  earlier than every stored one, because it is stated for a clock that does
  not go backwards.
- Request bodies.
  - `/signup` and `/login` take all their fields as present strings. A body
    missing a field, which Mongoose would store as absent or match as
    `undefined`, is not modelled.
  - `/api/invoices` and `/api/invoices/next-number` take each string field
    as an optional string, and `/save-chat` takes an optional string for
    the mobile number and an optional message object for each message.
    JSON values of other types are not modelled. `0` and `false` are falsy
    and would be refused with a 400. Non-zero numbers, `true` and objects
    are truthy and would then be cast by Mongoose, which may store them or
    fail with a 500.
  - `Invoices.SchemaAccepts`: only the product quantity tells an undefined
    value (which takes the default 1) from an explicit null (which fails
    `required`). Every other field treats null like absent.
  - `Users.UserStore.GetUser` takes the `/user` query's `mobile` as one
    present string. An absent `mobile` (the filter `{ mobile: undefined }`)
    and a repeated one (`?mobile=a&mobile=b`, which Express parses into an
    array and Mongoose matches as `$in`) are not modelled.
- The schema's optional fields. `SchemaAccepts` checks what the invoice
  schema requires. A first-level field of the wrong type other than the date
  is not modelled.
- Plumbing and the response body. Express setup, CORS, JSON parsing, the
  listen call and console logging are not modelled. Of each response, only
  the status and the fields the routes compute are kept.
