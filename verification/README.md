# Node Todo API: reminder scheduler, todo routes and schemas

A Dafny model of the core of a small Express/Mongoose todo service:

- **the reminder scheduler** (`server/scheduler/scheduler.js`), a class
  `Scheduler.ReminderScheduler` over the shared collections, a multiset of
  pending timers and a log of sent reminders and cleared reminders. `Sweep`
  is a loop that arms one timer per selected todo whose owner is found, and
  `Fire` sends a reminder and clears that todo's `reminder`;
- **the todo and user routes** (`server/server.js`): POST, GET, DELETE and
  PATCH on `/todos`, and POST `/users`. Each is a method over the store
  (`Database.Store`, the `todos` and `users` collections as maps keyed by
  id) that returns a status and the document it sends back. The PATCH body
  normalisation is a pure function;
- **the Todo and User schemas** (`server/models/todo.js`,
  `server/models/user.js`): required, trimmed and `minlength` paths,
  defaults, token entries, and the `unique` email index checked on insert.
  Mongoose's String cast, Date cast and `trim` setter are in `SchemaTypes`.

Time is integer milliseconds. `new Date(n).getTime()` is the identity on
timestamps a JavaScript Date can hold.

Three behaviours of the source are modelled as written:

- The sweep has no "already armed" guard (`Scheduler.TwoSweepsArmTwice`).
- A timer does not re-read its todo when it fires. It sends the title,
  description and recipient captured at sweep time.
- GET `/todos/:id` answers 404 when the todo exists and 200 with a null todo
  when it does not (`Routes.GetTodo`).

The scheduler reads the owner from `todo._creator`, which the Todo schema
does not declare. The model's `Todo` has an optional `creator`. POST
`/todos` never sets it, so a todo created that way is never armed
(`Scheduler.PostedTodoNeverArmed`).

## Model

| member | source | states |
|---|---|---|
| `SchemaTypes.Trim` | server/models/todo.js:7 | the trimmed text has no whitespace at either end and is no longer than the input |
| `SchemaTypes.TrimKeepsCore` | server/models/todo.js:7 | trimming returns exactly the part of the string that has only whitespace around it and none at its own ends |
| `SchemaTypes.TrimFixedPoints` | server/models/todo.js:13 | trimming leaves a string unchanged if and only if it has no surrounding whitespace |
| `SchemaTypes.TrimIdempotent` | server/models/user.js:8 | trimming twice is the same as trimming once |
| `SchemaTypes.Pick` | server/server.js:86 | the picked body has exactly the listed keys the body has, with the body's values |
| `SchemaTypes.IntToString` | server/models/todo.js:5 | a number's text starts with a minus sign exactly when the number is negative, and is otherwise digits, non-empty and untrimmable |
| `SchemaTypes.NatToStringValue` | server/models/todo.js:5 | the digits written for a non-negative number read back as that number |
| `SchemaTypes.IntToStringValue` | server/models/todo.js:5 | the text written for any integer reads back as that integer, sign included |
| `SchemaTypes.Utf16Length` | server/models/todo.js:8 | the length `minlength` checks counts UTF-16 code units: between one and two per character, and zero only for the empty string |
| `SchemaTypes.Utf16LengthConcat` | server/models/todo.js:8 | the length of a concatenation is the sum of the lengths |
| `SchemaTypes.Utf16LengthBmp` | server/models/user.js:9 | the length equals the number of characters if and only if every character is in the Basic Multilingual Plane |
| `SchemaTypes.CastString` | server/models/todo.js:5 | a String path holds nothing for null, `"true"` or `"false"` for a boolean, the decimal text of a number, and the string itself (trimmed, when the path trims) |
| `SchemaTypes.CastDate` | server/models/todo.js:24-27 | a Date path holds no date for null or "", holds a number exactly when it is in the Date range, and rejects everything else |
| `TodoModel.TodoErrors` | server/models/todo.js:3-28 | a path is reported as failing if and only if its own validation fails: title and description as required trimmed text of their minimum length, reminder when the Date cast fails |
| `TodoModel.NewTodo` | server/models/todo.js:3-28 | creation fails exactly on the invalid paths; a created todo has a trimmed title of at least 4 and description of at least 8 UTF-16 code units, `completed` false, `completedAt` and (when not given) `reminder` null, and no owner |
| `TodoModel.TitleValidIff` | server/models/todo.js:4-9 | a string title is valid if and only if its trimmed length in UTF-16 code units is at least 4 |
| `TodoModel.DescriptionValidIff` | server/models/todo.js:10-15 | a string description is valid if and only if its trimmed length in UTF-16 code units is at least 8 |
| `TodoModel.TwoEmojiTitleAccepted` | server/models/todo.js:8 | a title of two emoji passes, since each counts two UTF-16 code units |
| `TodoModel.RequiredTextMissing` | server/models/todo.js:6 | a missing or null title or description is rejected |
| `UserModel.NewUser` | server/models/user.js:4-41 | creation fails exactly on the invalid paths; a created user has a trimmed username of at least 5 UTF-16 code units, a trimmed non-empty email the email predicate accepts, a password of at least 6 UTF-16 code units, `emailVarified` false unless given, and only complete token entries |
| `UserModel.UserErrors` | server/models/user.js:4-41 | a path is reported as failing if and only if its own validation fails: username, email, password, and a token entry missing `access` or `token` |
| `UserModel.UsernameValidIff` | server/models/user.js:5-10 | a string username is valid if and only if its trimmed length in UTF-16 code units is at least 5 |
| `UserModel.PasswordValidIff` | server/models/user.js:22-26 | a string password is valid if and only if its length in UTF-16 code units is at least 6, with no trimming |
| `UserModel.EmailValidIff` | server/models/user.js:11-21 | a string email is valid if and only if, once trimmed, it is non-empty and the email predicate accepts it |
| `UserModel.EmailWithoutAtRejected` | server/models/user.js:11-21 | under any email predicate that demands an `@`, the email `testUser` is rejected |
| `UserModel.RequiredUserFieldsMissing` | server/models/user.js:5-26 | a missing or null username, email or password is rejected |
| `UserModel.InsertUser` | server/models/user.js:16 | an insert is refused if and only if a stored user has the same email; otherwise exactly the new user is added |
| `UserModel.InsertUserKeepsEmailsUnique` | server/models/user.js:16 | inserting preserves "no two users share an email" |
| `Routes.PostTodo` | server/server.js:16-30 | a valid body stores the new todo under a fresh id and answers 200 with it; an invalid one answers 400 and stores nothing |
| `Routes.GetTodo` | server/server.js:43-60 | 200 if and only if the id is valid and absent; 404 if and only if it is invalid or present; the todo is never returned |
| `Routes.DeleteTodo` | server/server.js:62-79 | a valid stored id is removed and its todo returned with 200; otherwise 404 with the store unchanged |
| `Routes.NormalizePatch` | server/server.js:86-99 | only the four picked keys matter; `completed` is true exactly for a boolean `true` and then `completedAt` is the current time, otherwise both are reset; `reminder` is kept exactly when it is a number, otherwise cleared |
| `Routes.NormalizePatchIgnoresOtherKeys` | server/server.js:86 | bodies that agree on `title`, `description`, `completed` and `reminder` normalise identically |
| `Routes.ApplySet` | server/server.js:101-105 | `$set` replaces the fields the patch carries and keeps the owner and any title or description it omits |
| `Routes.PatchCastOk` | server/server.js:101-113 | the update's casts succeed if and only if every date it sets is one a JavaScript Date can hold |
| `Routes.PatchTodo` | server/server.js:81-115 | an invalid id gives 404; an uncastable date gives 400; a missing todo gives 404; otherwise the stored todo becomes the patched one and is returned with 200; the store changes only on 200 |
| `Routes.PatchWithoutCompletedResets` | server/server.js:88-93 | a PATCH without a boolean `true` for `completed` leaves the todo not completed and without a completion time |
| `Routes.PatchWithoutNumericReminderClears` | server/server.js:95-99 | a PATCH whose `reminder` is absent or not a number leaves the todo without a reminder |
| `Routes.PatchKeepsUnmentionedFields` | server/server.js:101-105 | a PATCH keeps the owner and any title or description the body does not mention |
| `Routes.PostUser` | server/server.js:117-126 | a valid body whose email is not taken stores the new user and answers 200; otherwise 400 and the collection is unchanged; unique emails stay unique |
| `Routes.PostedUserDefaults` | server/server.js:118-119 | a user created through POST `/users` has `emailVarified` false and no tokens |
| `Scheduler.Selected` | server/scheduler/scheduler.js:6-13 | the query returns exactly the todos with `now < reminder < now + 300000`, so null reminders never match |
| `Scheduler.OwnerOf` | server/scheduler/scheduler.js:16 | the owner is found if and only if the todo has a creator that is a stored user |
| `Scheduler.TimerFor` | server/scheduler/scheduler.js:16-21 | the timer captures the todo's id, title and description, the owner's email, and the delay `reminder - at` |
| `Scheduler.SweepTimers` | server/scheduler/scheduler.js:9-29 | every timer a sweep arms belongs to a selected todo whose owner is found |
| `Scheduler.SweepArmsExactly` | server/scheduler/scheduler.js:6-28 | a sweep arms a timer if and only if the todo is in the window and its owner is found, and it is that todo's timer |
| `Scheduler.SweepArmsOncePerTodo` | server/scheduler/scheduler.js:15-28 | one sweep arms at most one timer per todo |
| `Scheduler.SweepDelays` | server/scheduler/scheduler.js:21 | an armed timer's delay is the reminder minus the time of arming, which is at least the sweep time, so the delay is below the lookahead |
| `Scheduler.NoOwnerNoTimer` | server/scheduler/scheduler.js:16-19 | a todo whose owner lookup yields no user gets no timer |
| `Scheduler.TwoSweepsArmTwice` | server/scheduler/scheduler.js:15-28 | a todo in the windows of two sweeps gets a timer from each |
| `Scheduler.ClearReminder` | server/scheduler/scheduler.js:26-27 | only the fired todo's `reminder` becomes null; every other todo and field is unchanged, and a deleted todo stays deleted |
| `Scheduler.FireEffect` | server/scheduler/scheduler.js:23-28 | firing sends one reminder with the data captured at sweep time, then clears the todo's reminder; a todo deleted before the fire has nothing cleared and no clear is logged |
| `Scheduler.FireEffectAsWritten` | server/scheduler/scheduler.js:24 | as written, firing sends nothing and changes nothing in the store |
| `Scheduler.AsWrittenFireDeliversNothing` | server/scheduler/scheduler.js:3 | as written, a fire emits no event and the reminder stays set; as intended, exactly one reminder is sent and the reminder is gone |
| `Scheduler.FiredTodoNeverRearmed` | server/scheduler/scheduler.js:26-27 | after a fire, no later sweep arms that todo again |
| `Scheduler.PostedTodoNeverArmed` | server/scheduler/scheduler.js:16 | a todo created through POST `/todos` has no owner and is never armed |
| `Scheduler.PatchWithoutReminderDisarms` | server/server.js:95-99 | after a PATCH without a numeric reminder, no sweep arms that todo |
| `Scheduler.ReminderScheduler.Sweep` | server/scheduler/scheduler.js:5-32 | the pending timers grow by exactly the timers of this sweep; the collections and the log are unchanged |
| `Scheduler.ReminderScheduler.Fire` | server/scheduler/scheduler.js:23-28 | the timer leaves the pending set; the log gains the send and then, when the todo is still stored, the clear; the store becomes the one after the clear |
| `Scheduler.ReminderScheduler.FireAsWritten` | server/scheduler/scheduler.js:23-28 | the timer leaves the pending set and nothing else changes |

## Findings

| source | as written | input that shows it | evidently intended | confidence | as-written member | corrected member |
|---|---|---|---|---|---|---|
| server/scheduler/scheduler.js:3 | imports `sendReminderMail`, but `server/mailer_service/mailer_service.js:31` exports only `mySendMail`. The call at line 24 throws a TypeError before lines 26-27 run, so nothing is sent and the reminder is never cleared | any armed timer firing, for example for a todo with an owner and `reminder = now + 2000` | send the reminder to the owner, then clear the todo's reminder | high (the two files as shown); not executed | `Scheduler.FireEffectAsWritten` | `Scheduler.FireEffect` |

`ReminderScheduler.Fire` uses the corrected effect and `FireAsWritten` uses
the effect as written. The lemmas `AsWrittenFireDeliversNothing` and
`FiredTodoNeverRearmed` state the difference between them.

## Left out

- Express wiring, body parsing, `app.listen`, logging, and response bodies other than the returned document.
- Database failures: the 400 a rejected query promise gives in every handler. The database is an in-memory map.
- GET `/todos`, which sends the whole collection with 200. It is a plain read with no decision to model.
- `ObjectID.isValid` is taken as given (`Store.isValidId`). The different spellings of one ObjectID are not identified.
- `validator.isEmail` is a parameter of the user validation. The only assumption is in `EmailWithoutAtRejected`: an accepted email contains `@`.
- JSON request values are null, booleans, integers and strings. Fractional numbers, arrays and objects are not modelled.
- SchemaTypes.IntToString: writes every integer in plain decimal. JavaScript writes magnitudes of 10^21 and above in exponent form (`1e+21`), and integers beyond 2^53 are not exact as JavaScript numbers. Neither is modelled.
- SchemaTypes.Utf16Length: strings are sequences of Unicode scalar values, so a JavaScript string holding a lone surrogate cannot be represented.
- SchemaTypes.CastDate: rejects every non-empty string. Mongoose also parses date strings, and that parsing is not modelled.
- Routes.PatchTodo: assumes Mongoose 5 casting, where the `trim` setter runs on update values and validators do not run. Other versions differ.
- Mongoose's strict mode would drop the undeclared `_creator` path. The model keeps it as an optional owner because the scheduler reads it.
- Scheduler.ReminderScheduler.Sweep: the clock is a parameter (`clock(id)` is when that todo's owner lookup finished). The order of the promise callbacks and the real timers are not modelled.
- In the source, a missing owner and the missing mail function both raise uncaught errors. The model records only their effect on the state. It does not model the unhandled rejection, or the uncaught exception that ends the Node process.
- The periodic trigger that calls the sweep is not in these files. The model has no notion of sweeps arriving on a schedule.
- Password hashing (which the test at `server/tests/server.spec.js:33` expects, but no hook in `server/models/user.js` provides), JWT authentication, `findByToken`, configuration, and the nodemailer transport and its HTML body.
- Timers are not durable: a restart loses the pending set. The model has no restart.
