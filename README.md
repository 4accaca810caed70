# pigeon uptime monitor: a Dafny model

This project models the core of pigeon, a small Node.js uptime monitor. Users sign up and log in with a phone number and password. They register "checks": a URL, an HTTP method, the status codes that count as success, and a timeout. A background worker probes every check once a minute, logs each outcome, and texts the owner when a check flips between "up" and "down". A second cycle rotates the logs into compressed archives once a day.

The model has seven modules, one per file:

- `Json` (json.dfy): JSON values and the JavaScript behaviour the code relies on: `typeof`, truthiness, own-property reads and writes, string `length` in UTF-16 code units, `trim`, `indexOf`, `replace` of the first occurrence, ASCII case mapping, and decimal rendering of a time stamp.
- `Fields` (fields.dfy): the field coercions the handlers and the worker share. Each has the shape `typeof(v) == … && test ? value : false`, with `false` written as `None`.
- `Config` (config.dfy): lib/config.js. It holds the two environments and the choice between them by `NODE_ENV`.
- `LogStore` (logs.dfy): lib/logs.js. It models a class `Logs` whose field `files` maps file names to contents. Each method is proved against a function of the old files.
- `RecordStore` (records.dfy): the JSON record store the other files call into. lib/data.js is not part of this model. The store is a class `Store` over a map from (collection, id) to a JSON value. `create` fails on an existing record. `read`, `update` and `delete` fail on a missing one. The environment may also make any record unreadable or unwritable, through a `Faults` value.
- `Workers` (workers.dfy): lib/workers.js. It covers validation of a stored check, the probe and its outcome guard, outcome processing, gathering, and log rotation. A class `Worker` holds the log store, the record store and the alerts sent. Each of its methods is proved against a function of the old state.
- `Handlers` (handlers.dfy): lib/handlers.js. Each REST handler is a function from the request, the records, the faults and the environment to the response and the records afterwards. A response of `None` stands for a `TypeError` thrown inside a callback, after which nothing answers. `users.delete`, whose callbacks count down a loop, is also a method over a `Store`, proved equal to its function.

What is outside the program becomes a parameter:

- the clock (`Date.now()`);
- the random ids;
- the password hash;
- `JSON.stringify`;
- the gzip and base64 codec, known only through its round trip;
- the events a probe's request emits;
- whether a directory listing fails.

The asynchronous callbacks are run to completion one after another: one check at a time in gathering, one log at a time in rotation, and each request's callbacks in order.

## Model

| member | source | states |
|---|---|---|
| Config.Select | lib/config.js:35-38 | The selected environment is always one of the two declared ones. It is production exactly when the lower-cased `NODE_ENV` is "production", and staging otherwise (intended behaviour; see Findings). |
| Config.ProtoNameEscapesFallback | lib/config.js:38 | With `NODE_ENV` set to `__proto__` or `__PROTO__`, the code as written exports `Object.prototype`, not the staging environment. |
| Config.SelectAgreesExceptProto | lib/config.js:35-38 | The intended selection agrees with the code as written on every name except `__proto__`, which it maps to staging. |
| Config.UnknownSelectsStaging | lib/config.js:35-38 | An unset `NODE_ENV`, or one naming no environment, selects staging. |
| Config.SelectIgnoresCase | lib/config.js:35 | `NODE_ENV` is matched without regard to letter case. |
| Config.PortsAndCap | lib/config.js:7-32 | Production uses ports 5000/5001 and staging 4000/4001. Both cap a user at five checks. |
| Json.Utf16LengthExceeds | lib/handlers.js:43 | A string's JavaScript `length` exceeds its number of characters exactly when one of them lies outside the Basic Multilingual Plane. |
| Fields.TrimmedOfLength | lib/handlers.js:43 | The field passes exactly when it is a string whose trimmed form has the required JavaScript `length`. That length counts UTF-16 code units, so a character outside the Basic Multilingual Plane counts twice. The result is that trimmed form. |
| Fields.CharCountPassesIffBmp | lib/handlers.js:43 | A string whose trimmed form has `n` characters passes the length-`n` test exactly when none of them lies outside the Basic Multilingual Plane. |
| Fields.AstralPhoneRejected | lib/handlers.js:43 | Ten characters whose last is an emoji have a JavaScript length of 11, so they are rejected as a phone number. |
| Fields.NonBlank | lib/handlers.js:41-42 | The field passes exactly when it is a string that is not blank once trimmed. The result is the trimmed, non-empty form. |
| Fields.OneOf | lib/handlers.js:412 | The field passes exactly when it is a string equal to one of the allowed values. It is kept untrimmed. |
| Fields.NonEmptyArray | lib/handlers.js:415 | The field passes exactly when it is a non-empty array, whatever its elements, and it is kept as it is. |
| Fields.TimeoutSeconds | lib/handlers.js:416 | The field passes exactly when it is a whole number from 1 to 5. The result is that number. |
| Fields.ArrayOrEmpty | lib/handlers.js:195 | An array property gives its elements; anything else gives the empty list. |
| LogStore.Logs.constructor | lib/logs.js:11-14 | The store starts with the given files and a codec that round-trips. |
| LogStore.Logs.Append | lib/logs.js:17-35 | `append` leaves the files as `Appended` of the old ones: `<file>.log` gets the string and a newline. |
| LogStore.AppendExtends | lib/logs.js:17-35 | After `append`, `<file>.log` holds its old contents (none if it was new), then the string and a newline. No other file changes. |
| LogStore.PushNames | lib/logs.js:41-50 | One pass of the listing loop pushes the entry's names: the `.log` name with `.log` removed and, when archives are included, the `.gz.b64` name with that removed. |
| LogStore.Logs.List | lib/logs.js:37-57 | If the directory cannot be read, the result is an error and no names. Otherwise it is the entry-by-entry listing of some order of all the files. |
| LogStore.ListedMembers | lib/logs.js:41-50 | A name is in a listing exactly when some directory entry lists as that name. |
| LogStore.AppendedLogIsListed | lib/logs.js:17-57 | A log written by `append(id, …)` is listed by `list(false)` under `id`, whatever the directory order, provided `id` has no `.log` in it. |
| LogStore.ArchivesOnlyWhenIncluded | lib/logs.js:43-49 | Without `includeCompressedLogs`, every listed name comes from an entry containing `.log`. |
| LogStore.Logs.Compress | lib/logs.js:60-99 | `compress` reports an error and leaves the files as `Compressed` of the old ones. The outcome is one of four: a missing source, an empty source, an existing archive, or a new archive holding the encoded text. |
| LogStore.CompressRefusesExistingArchive | lib/logs.js:71-89 | An existing archive is never overwritten. Nothing changes, and an error is reported unless the source exists and is empty. |
| LogStore.CompressOfEmptySource | lib/logs.js:65-97 | A missing or empty source creates no archive. Only a missing one is reported as an error. |
| LogStore.CompressAddsOneArchive | lib/logs.js:60-99 | `compress` changes no existing file and adds at most the one archive. It adds exactly that archive when it succeeds with a non-empty source. |
| LogStore.Logs.Decompress | lib/logs.js:102-121 | `decompress` gives an error, no text (for an empty archive), or the decoded text, as `Decompressed` states. |
| LogStore.DecompressInvertsCompress | lib/logs.js:60-121 | Decompressing the archive that `compress` wrote gives back the source log's text. |
| LogStore.Logs.Truncate | lib/logs.js:124-132 | `truncate` leaves the files as `Truncated` of the old ones. |
| LogStore.TruncateEmpties | lib/logs.js:124-132 | `truncate` empties exactly `<id>.log`, keeps every name, and fails only when the file is missing. |
| Workers.ValidateCheckData | lib/workers.js:69-95 | A stored check goes on to be probed exactly when its seven required fields hold. The record is then valid and related to the raw one field by field: id, phone and url trimmed, other required fields kept, `state` defaulted to "down", `lastChecked` to `false`, and every other property untouched. |
| Workers.AdmittedIffAcceptable | lib/workers.js:84-90 | The truthiness test on the coerced fields admits a record exactly when the raw record meets the seven requirements. |
| Workers.CoercedFromAcceptable | lib/workers.js:70-81 | For an acceptable record, the in-place coercions give a valid record related to the raw one field by field. |
| Workers.ValidIsAcceptable | lib/workers.js:69-95 | A valid record meets the seven requirements. |
| Workers.RevalidationIsIdentity | lib/workers.js:69-95 | A validated record passes validation again unchanged, so the record the worker saves is probed as it is next cycle. |
| Workers.DefaultsNeverReject | lib/workers.js:79-81 | Whatever `state` and `lastChecked` hold, they never decide whether a record is probed. |
| Workers.CoercedId | lib/workers.js:71 | The id is truthy exactly when it is a string whose trimmed form has a JavaScript length of 20, and it is then that trimmed string. |
| Workers.CoercedPhone | lib/workers.js:72 | The phone is truthy exactly when it is a string whose trimmed form has a JavaScript length of 10, and it is then that trimmed string. |
| Workers.CoercedProtocol | lib/workers.js:73 | The protocol is truthy exactly when it is "https" or "http", and it is kept as it is. |
| Workers.CoercedUrl | lib/workers.js:74 | The url is truthy exactly when it is a string that is not blank once trimmed, and it is then trimmed. |
| Workers.CoercedMethod | lib/workers.js:75 | The method is truthy exactly when it is one of get, put, post and delete. |
| Workers.CoercedCodes | lib/workers.js:76 | The success codes are truthy exactly when they are a non-empty array. |
| Workers.CoercedTimeout | lib/workers.js:77 | The timeout is truthy exactly when it is a whole number from 1 to 5. |
| Workers.CoercedState | lib/workers.js:80 | `state` keeps "up" or "down" and becomes "down" otherwise. |
| Workers.CoercedLastChecked | lib/workers.js:81 | `lastChecked` keeps a positive number and becomes `false` otherwise. |
| Workers.DeriveState | lib/workers.js:172 | The new state is "up" exactly when the probe had no error and answered with a non-zero status listed among the success codes. Otherwise it is "down". |
| Workers.AlertWarranted | lib/workers.js:175 | An alert is warranted exactly when the check has been probed before and its state differs from the new one. |
| Workers.TouchedStaysValid | lib/workers.js:182-184 | The record with the new state and the time of the check is still valid. |
| Workers.RequestDetailsShape | lib/workers.js:114-123 | The request gives the scheme with a colon and uses the http module exactly for "http". Its method is the check's method in upper case. Its timeout is the whole seconds times 1000, from 1000 to 5000 ms. |
| Workers.DeliversAtMostOnce | lib/workers.js:105-162 | With the guard set on every path (the corrected probe), a probe hands on exactly one outcome once any event has happened: that of the first event. |
| Workers.ResponseThenTimeoutDeliversTwice | lib/workers.js:106-162 | As written, a response followed by a timeout hands on two outcomes. The second carries both the status and the timeout error, and then the timeout listener throws. |
| Workers.DoubleDeliveryAlertsOnFirstProbe | lib/workers.js:170-190 | On a check's first probe, the second outcome delivered as written sees the record the first call updated. It finds an alert warranted for a spurious up-to-down flip. The throw that follows ends the process before that call's save completes, so no SMS goes out. |
| Workers.ErrorFirstThrowsAfterOneDelivery | lib/workers.js:137-162 | As written, a probe whose first event is an error or a timeout hands on exactly that event's outcome and then throws. Nothing later is handed on. |
| Workers.ResponsesNeverThrow | lib/workers.js:126-134 | As written, response events never throw, and each one is handed on. |
| Workers.LogIndependentOfSave | lib/workers.js:177-179 | The log entry is written whether or not the save succeeds. It holds the check as it was before the update and is appended, with a newline, to its own log. |
| Workers.SaveTouchesOnlyTheCheck | lib/workers.js:181-187 | Processing replaces the check's record with the new state and time when it can be written, and leaves every record as it was otherwise. |
| Workers.AlertOnlyAfterSave | lib/workers.js:187-213 | At most one alert is added. One is added exactly when the save succeeded and an alert was warranted. It goes to the owner's phone and names the upper-cased method, the URL and the new state. |
| Workers.FirstProbeNeverAlerts | lib/workers.js:175 | A check never probed before raises no alert, whatever the outcome. |
| Workers.SkippedRecordsChangeNothing | lib/workers.js:53-59 | A record that cannot be read, is falsy, or fails validation is skipped without any effect. |
| Workers.FlipAlertsOnce | lib/workers.js:170-197 | A probed check whose state flips after an earlier probe, and whose record can be saved, alerts exactly once. |
| Workers.RotationKeepsContent | lib/workers.js:234-250 | Rotating one log changes no other file. A non-empty log is emptied only once a fresh archive has been written that decodes to its text. |
| Workers.RotationArchivesAndEmpties | lib/workers.js:234-250 | A non-empty log with no archive of its name yet gets exactly one new archive holding its encoding, and is left empty. |
| Workers.RotationNamesForPlainIds | lib/workers.js:235-236 | For an id without ".log" in it, rotation reads `<id>.log` and archives it as `<id>-<now>`. |
| Workers.Worker.constructor | lib/workers.js:260 | The worker starts with the given stores and serialiser, and no alerts. |
| Workers.Worker.Log | lib/workers.js:22-44 | `log` appends the serialised entry to the check's log and changes nothing else. |
| Workers.Worker.AlertUserToStatusChange | lib/workers.js:201-213 | The alert added is the message built from the updated record, sent to its owner's phone. |
| Workers.Worker.ProcessCheckOutcome | lib/workers.js:170-198 | The logs, records and alerts afterwards are `Processed` of the old ones. |
| Workers.Worker.PerformCheck | lib/workers.js:98-166 | The request details it builds are `RequestFor` of the check, whose shape `RequestDetailsShape` states. Over any sequence of probe events, the state afterwards is that of processing the first event's outcome once, or unchanged when there is no event (corrected guard). |
| Workers.Worker.GatherOne | lib/workers.js:53-59 | One listed id is read, validated and probed as `Gathered` states. |
| Workers.Worker.GatherAllChecks | lib/workers.js:47-66 | A failed listing changes nothing. Otherwise the state is that of gathering every stored check, one at a time, in some listing order. |
| Workers.Worker.RotateOne | lib/workers.js:235-250 | One log is compressed, then truncated only if compressing reported no error. |
| Workers.Worker.RotateLogs | lib/workers.js:230-256 | A failed listing changes nothing. Otherwise every listed uncompressed log is rotated in turn. |
| Handlers.Dispatch | lib/handlers.js:24-31 | For each of the three services (users here; tokens at lines 239-246 and checks at 395-402 alike), a method other than post, get, put and delete gets 405 and changes nothing. An accepted one never gets 405. |
| Handlers.UsersHandler | lib/handlers.js:24-31 | With `users.get` corrected (see Findings), the users service always answers, and only with 200, 400, 403, 404 or 500. |
| Handlers.TokensHandler | lib/handlers.js:239-246 | The tokens service answers only 200, 400, 404 or 500. |
| Handlers.ChecksHandler | lib/handlers.js:395-402 | The checks service answers only 200, 400, 403, 404 or 500, or not at all. |
| Handlers.UsersPost | lib/handlers.js:39-83 | Sign-up gives 200 exactly when the four required fields hold, no user is stored under that phone, the new record can be written, and the hash is truthy. The user is then stored with the hashed password. A readable existing user gives 400, and every failure changes nothing. |
| Handlers.SignUpThenLogIn | lib/handlers.js:254-291 | A user who has just signed up with a password can log in with it. |
| Handlers.UsersGet | lib/handlers.js:88-115 | With the record tested (as intended), get gives 200 exactly when the phone is valid, a token of that user verifies, and the user is found. The body is then the user without its password hash, and nothing changes. |
| Handlers.UsersGetAsWritten | lib/handlers.js:88-115 | As written, no response is sent exactly when the phone and token are valid and the stored user is `null`. |
| Handlers.UsersGetTestsTheRequest | lib/handlers.js:100 | A stored `false` user gets 200 as written but 404 as intended. A stored `null` gets no response as written. |
| Handlers.WithoutPassword | lib/handlers.js:102 | The user returned has every property except `hashedPassword`. |
| Handlers.UserUpdatedFields | lib/handlers.js:141-150 | `users.put` assigns exactly the provided fields, stores a new password as its hash, and keeps every other property. |
| Handlers.UsersPut | lib/handlers.js:120-175 | Update gives 200 exactly when the phone is valid, some field is provided, the token verifies, the user is found, and it can be written. The user is then replaced by its updated form. Every failure changes nothing. |
| Handlers.ChecksDeletedRecords | lib/handlers.js:195-219 | The deletes of a user's checks remove exactly the stored, writable checks the list names, whatever fails. |
| Handlers.ChecksDeletedSucceeds | lib/handlers.js:195-219 | No delete fails exactly when every listed id is a distinct string naming a stored, writable check. |
| Handlers.UserDeleted | lib/handlers.js:180-235 | User delete always answers, with 200, 400, 403 or 500. A missing phone gives 400 and a token that does not verify gives 403. Unless the phone is valid, the token verifies and the user is found and can be deleted, the answer is not 200 and no record changes. |
| Handlers.UserDeletedOutcome | lib/handlers.js:180-235 | For a verified, found and writable user, delete gives 200 exactly when all its listed checks are deletable. It removes the user and every deletable listed check even when some check delete fails. |
| Handlers.VerifyTokenIn | lib/handlers.js:379-392 | Verifying a token against a store agrees with `VerifyToken`: found, belonging to the phone, and not expired. |
| Handlers.DeleteCheckIn | lib/handlers.js:202-205 | One check delete of the loop leaves the store as `DeleteCheck` of the old records. |
| Handlers.UsersDelete | lib/handlers.js:180-235 | The method over a store answers and leaves the records exactly as the function `UserDeleted` does. |
| Handlers.DeleteUserChecks | lib/handlers.js:195-219 | The counting loop issues every check delete and answers once, when the count reaches the number of checks: 200 if none failed, 500 otherwise. |
| Handlers.TokensPost | lib/handlers.js:254-291 | Login gives 200 exactly when phone and password are valid, the user is found, the password hash matches, and the new token id is free and writable. The token, expiring an hour from now, is then stored and returned. Every failure changes nothing. |
| Handlers.IssuedTokenLastsAnHour | lib/handlers.js:265-270 | A token issued at `now` verifies for its user exactly until an hour has passed. |
| Handlers.TokensGet | lib/handlers.js:296-312 | Token get gives 200 exactly when the id is valid and the token is found. The body is then the token, and nothing changes. |
| Handlers.TokensPut | lib/handlers.js:317-348 | Extend gives 200 exactly when the id is valid, `extend` is true, the token is found and not expired, and it can be written. Its expiry is then one hour from now. An expired token gives 400. Every failure changes nothing. |
| Handlers.ExtendedTokenLastsAnHour | lib/handlers.js:326-327 | An extended token stays valid exactly until an hour after the extension and keeps its other properties. |
| Handlers.TokensDelete | lib/handlers.js:353-374 | Logout gives 200 exactly when the id is valid, the token is found, and it can be written. The token is then removed. Every failure changes nothing. |
| Handlers.StoreCheck | lib/handlers.js:449-468 | Creating the check and linking it gives 200 exactly when the check id is free and writable and the owner is an object or array that can be written. On 200 both records are written. On failure the check may stay stored, but nothing else changes. |
| Handlers.ChecksPost | lib/handlers.js:410-484 | Check create gives 200 exactly when the five fields hold, the token and its user are found, the user lists fewer than `maxChecks` checks, and both writes can happen. The check is then stored and its id appended to the owner. Invalid inputs give 400. A found user already holding `maxChecks` checks gets 400 with the too-many-checks message. 400 and 403 change nothing. |
| Handlers.PostIsNoCheckMethod | lib/handlers.js:414 | A check with method "post" is refused as invalid input, with nothing changed. |
| Handlers.WithCheckAppends | lib/handlers.js:452-455 | Linking a check appends exactly its id to the user's list and keeps every other property. |
| Handlers.ChecksGet | lib/handlers.js:489-515 | Check get gives 200 exactly when the id is valid, the check can be read and is not `null`, and a token of its owner verifies. The body is then the check, and nothing changes. |
| Handlers.CheckUpdatedFields | lib/handlers.js:543-558 | `checks.put` assigns exactly the provided fields and keeps every other property, the owner among them. |
| Handlers.ChecksPut | lib/handlers.js:520-582 | Check update gives 200 exactly when the id is valid, some field is provided, the check is found, a token of its owner verifies, and it can be written. The check is then updated. Every failure changes nothing. |
| Handlers.ChecksDelete | lib/handlers.js:585-641 | Check delete gives 200 only for a valid id, a found check, a verifying owner token and a check that can be deleted. A missing id gives 400, and 400 and 403 change nothing. A check that cannot be deleted gives 500 with "Could not delete the check data." and no change. |
| Handlers.ChecksDeleteOutcome | lib/handlers.js:599-631 | Once the check is deleted, the result is 200 exactly when the owner can be read, is not `null`, lists the id, and can be written. A `null` owner leaves no response. On failure the check is gone but its id stays on the owner. |
| Handlers.WithoutCheckRemovesOne | lib/handlers.js:607-611 | Unlinking removes one copy of the id (its first occurrence), keeps the order of the other ids, and keeps every other property. |
| Handlers.RemoveFirstOccurrence | lib/handlers.js:607-609 | `splice` at the `indexOf` position removes one copy of the element and keeps the rest in order. |
| Handlers.ChecksPostKeepsCap | lib/handlers.js:430-432 | Check create never takes a user past `maxChecks`. |
| Handlers.ChecksDeleteKeepsCap | lib/handlers.js:607-611 | Check delete only shortens the owner's list. |
| Handlers.UsersPostKeepsCap | lib/handlers.js:56-64 | A new user lists no checks. |
| Handlers.UsersPutKeepsCap | lib/handlers.js:141-150 | A user update leaves the user's checks alone. |
| Handlers.UserDeletedKeepsCap | lib/handlers.js:180-235 | User delete only removes records. |
| Handlers.ChecksPutKeepsCap | lib/handlers.js:520-582 | A check update touches no user. |
| Handlers.DispatchKeepsCap | lib/handlers.js:430-432 | Every request to any of the three services keeps every stored user within the cap on checks. |

## Left out

- Network I/O: the probe's HTTP(S) request, `url.parse` of the check's URL, the hostname and path, and `req.end()`. A probe is the sequence of events its request emits.
- The timers `workers.loop`, `workers.logRotationLoop` and `workers.init`. They only schedule `gatherAllChecks` and `rotateLogs`, which are modelled.
- Console output. It carries no state.
- The SMS gateway (`helpers.sendTwilioSms`). An alert is recorded as the phone and message handed to it, and its success or failure changes nothing in the model.
- The configuration's Twilio credentials, which only the SMS gateway uses.
- gzip, base64 and the file descriptors of lib/logs.js. The archive codec is a pair of functions assumed to round-trip and never to encode as the empty text. Write, close and truncate failures other than a missing file are not modelled.
- The `.logs` directory path. A file is named by its base name.
- lib/data.js, lib/helpers.js, the HTTP server and router, and the `notFound` and `ping` handlers are not part of this model. The record store's behaviour is assumed as `RecordStore` states.
- `JSON.stringify` is a function the worker is given. The number formatting of a log line is not modelled.
- Concurrency. Callbacks that Node.js may interleave run one after another, to completion, in issue order.
- Workers.Worker.PerformCheck: models the guard as intended (the first event is processed once). The code as written is `Workers.RunAsWritten`; see Findings. As written, every probe that ends in an error or a timeout throws an uncaught `TypeError` right after its outcome is handed on. That ends the worker process before the append and save it started complete. The model gives this only as the event sequence and the throw, not as its effect on the logs and records.
- Handlers.UsersHandler: sends GET to the corrected `Handlers.UsersGet`, which tests the record read. As written (`Handlers.UsersGetAsWritten`), a stored `null` user throws and gets no response, and a stored `false` user gets 200 with body `false`; so "always answers" holds only for the corrected dispatcher.
- Handlers.LooselyEqual: compares values of different types as unequal. JavaScript's string-to-number coercion in `==` is not modelled.
- Handlers.ExpiresAfter: treats a string, array or object `expires` as never after now. JavaScript's numeric coercion of these is not modelled.
- Handlers: a phone, id or check id that is not a string names no stored record. A lookup or delete with one fails.
- Handlers: each request reads the clock once. `env.hash` stands for both `helpers.hash` and `helpers._hash`, and the request payload is taken to be an object.
- Handlers.CheckObject: writes an `undefined` owner phone as `null`. Only a string phone reaches a stored check, since the owner lookup fails otherwise.
- Workers.AlertOnlyAfterSave: an alert is sent only from the callback of a successful save of the updated check, as the code does.

## Findings

| source | as written | input that shows it | evidently intended | confidence | as-written member | corrected member |
|---|---|---|---|---|---|---|
| lib/workers.js:106-162 | `outcomeSent` is a `const` that the response listener never sets. The error and timeout listeners' assignment to it throws a `TypeError`. | A response of 200 followed by a timeout: two outcomes are processed, the second with both the status and the error. On a first probe the second one finds an alert warranted for a spurious flip to "down". Worse, any error or timeout makes the listener throw, which ends the worker process before that probe's log append and save complete. | Every listener sets the flag, so that exactly the first event's outcome is processed. | not executed | Workers.ResponseThenTimeoutDeliversTwice | Workers.DeliversAtMostOnce |
| lib/config.js:38 | `environments[currentEnvironment]` also sees the properties inherited from `Object.prototype`. | `NODE_ENV=__proto__`: `typeof` is "object", so `Object.prototype`, with no ports and no `maxChecks`, is exported. | Only "staging" and "production" are selectable, and anything else falls back to staging. | not executed | Config.ProtoNameEscapesFallback | Config.Select |
| lib/handlers.js:100 | `users.get` tests `data`, the always-truthy request, instead of the record read. | A stored user `false` is answered with 200 and body `false`. A stored `null` throws on `delete record.hashedPassword`, and no response is sent. | Test the record, and answer 404 when it is falsy. | not executed | Handlers.UsersGetTestsTheRequest | Handlers.UsersGet |
