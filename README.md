# WhatsApp broadcaster — a Dafny model of its core

The broadcaster is a small HTTP service. It drives one logged-in WhatsApp Web session through
a browser automation library, and sends one message to a list of phone numbers. Each
`POST /send-messages` request does the following:

- picks the recipient list out of its JSON body and rejects an empty list;
- logs in once (`initWhatsApp`);
- for each entry of the list, in order:
  - normalises the entry to a phone number with the country code `91`;
  - opens a tab on that number's chat (`sendToNumber`);
  - skips the number if WhatsApp shows its invalid-number alert;
  - in manual mode, leaves the chat open for the operator;
  - otherwise polls up to ten times for the message box, then clicks it, inserts the
    message, presses Enter and closes the tab.

Everything the browser does is replaced by a scripted automation surface:

- a `LoginScript` for the login;
- a `TabScript` per tab. It says which calls throw, whether the alert is shown, and what
  each query for editable elements finds.

The model records the calls issued, in order: a `log` of session calls and a trace of
`TabAction`s per tab.

The model consists of these modules:

- `Text`: ASCII digits, `startsWith`, `includes`, lower-casing.
- `JsValues`: the JSON values of a request body, JavaScript truthiness, `toString()` of a
  list entry, the `length === 0` test and `for ... of` over the list.
- `Recipient`: normalisation of one entry (index.js:199-200).
- `Intake`: choosing the list, the `autoSend` default and the empty-list rejection
  (index.js:183-191).
- `Session`: the class `WhatsAppSession`, holding the globals `browser`, `page` and
  `isLoggedIn`, and its method `InitWhatsApp` (index.js:9-11, 19-47).
- `Delivery`: `sendToNumber` (index.js:52-176). It is built from methods over the tab
  script: the input poll, the typing steps and the delivery as a whole. Each method is proved
  equal to a specification function (`PollFrom`, `TypingRun`, `AutoSendRun`,
  `SendToNumber`), and the lemmas state what those functions promise. The straight-line
  methods `TypeAndSend`, `AutoSendPath` and `Deliver` (and `Batch.DeliverEntry`) only restate
  their functions as code; the loops `PollForComposer` and `Batch.DeliverAll` carry the
  invariants.
- `Batch`: the request handler (index.js:181-210). `DeliverAll` is the loop over the
  entries, proved equal to the specification `RunBatch`. `RunBatch` is `Stop`, the loop's
  stopping rule, applied to `Plan`, the attempt each entry makes if the loop reaches it.

The intended design isolates recipients: one recipient's failure never stops the batch. The
code does this for every error raised inside the `try` of `sendToNumber`. It does not do it
in two places, and the model follows the code in both:

- `browser.newPage()` (index.js:58) is called before that `try`. If it throws, the error
  leaves `sendToNumber` and ends the whole batch with a failed response (`DeliveryResult.Threw`,
  `Batch.EntryThrowsIffTabFails`).
- `num.toString()` (index.js:199) throws for a `null` entry, which ends the batch the same
  way.

`Batch.CompletesIffEveryEntryProceeds` states exactly when a batch completes.

## Model

| member | source | states |
|---|---|---|
| Text.Lower | index.js:117-118 | `toLowerCase()` keeps the length and lower-cases each ASCII letter in place |
| Text.ContainsAt | index.js:117-118 | `includes` holds whenever the substring sits at some position of the string |
| Text.ContainsWitness | index.js:117-118 | conversely, whenever `includes` holds the substring sits at some position |
| JsValues.Decimal | index.js:199 | `toString()` of a non-negative integer is a non-empty digit string without a leading zero |
| JsValues.DecimalRoundTrip | index.js:199 | reading the model's numeral back gives the number: `Decimal` loses no digit |
| JsValues.ToString | index.js:199 | `num.toString()` throws exactly for `null` and `undefined`; a string entry is kept as is, a non-negative number becomes its numeral and a negative one "-" followed by the numeral of its absolute value |
| JsValues.Iterate | index.js:198 | `for ... of` visits the elements of an array and each character of a string as a one-character string, in order; anything else throws "not iterable" |
| Recipient.DigitsOnly | index.js:199 | `replace(/\D/g, "")` never lengthens the string |
| Recipient.DigitsOnlyAllDigits | index.js:199 | after stripping only digits remain |
| Recipient.DigitsOnlyKeepsDigits | index.js:199 | a digit string is left unchanged |
| Recipient.DigitsOnlyAppend | index.js:199 | stripping distributes over concatenation |
| Recipient.DigitsOnlyNoDigits | index.js:199 | a string with no digit strips to the empty string |
| Recipient.Normalize | index.js:199-200 | the number written to `mobile` is all digits and starts with "91" |
| Recipient.NormalizeCases | index.js:200 | "91" is prefixed exactly when the digits lack it; otherwise the digits are kept; either way the digits form the tail of the result |
| Recipient.NormalizeIdempotent | index.js:199-200 | normalising a normalised number changes nothing |
| Recipient.NormalizeNoDigits | index.js:199-200 | an entry without digits becomes "91"; nothing rejects it |
| Recipient.NormalizeIgnoresSeparators | index.js:199 | non-digit characters around the digits do not change the recipient |
| Recipient.NormalizeNumberIgnoresSign | index.js:199 | a numeric entry and its negation reach the same recipient, namely the one written as the absolute value's numeral |
| Recipient.NumeralDigits | index.js:199 | stripping the numeral of any integer leaves the numeral of its absolute value |
| Intake.SelectNumbers | index.js:183 | the list is `numbersList` or `numbers` or `[]`, and it is truthy unless it is `[]` |
| Intake.Accept | index.js:183-191 | a rejected body gets `{failed, "No numbers"}`; an accepted batch has a truthy list whose length is not 0, the body's message and the `autoSend` default |
| Intake.NumbersListTakesPrecedence | index.js:183 | a truthy `numbersList` is the list chosen whatever `numbers` holds, and it is accepted exactly when its length is not 0, so `numbersList: []` is rejected even beside a non-empty `numbers` |
| Intake.LegacyNumbersFallback | index.js:183-189 | a falsy `numbersList` falls back to `numbers`, which is accepted exactly when its length is not 0 |
| Intake.RejectedExactlyWhenEmpty | index.js:183-191 | the body is rejected if and only if the chosen list is `[]` |
| Intake.AutoSendDefaultsToTrue | index.js:187 | `autoSend` is true when absent, and false exactly for `false`, `null`, `0` and `""` |
| Intake.AcceptedBatchIsNonEmpty | index.js:189-198 | an accepted list that can be iterated has at least one entry |
| Session.Attempted | index.js:27-43 | one initialisation issues the five login calls in order; a failure at call `k` issues exactly the first `k + 1` of them, up to and including the one that throws |
| Session.WhatsAppSession.constructor | index.js:9-11 | the globals start out null, null and false: no session |
| Session.WhatsAppSession.InitWhatsApp | index.js:19-47 | nothing is issued or changed when already logged in; otherwise the login calls are issued in order and the call succeeds exactly when none throws; `isLoggedIn` is set only after both waits succeed, together with the new browser and page; a failure leaves it false, and `browser`/`page` hold what was assigned before the failing call |
| Session.LoginRetry | index.js:19-47 | after a failed login the next call starts over from the launch and, if every step succeeds, logs in with the new browser and page |
| Delivery.PollForComposer | index.js:103-125 | the poll loop ends with the verdict `PollFrom` and issues exactly as many queries as that verdict counts |
| Delivery.PollVerdictMeaning | index.js:103-125 | the poll stops at the first query that throws or whose last editable element has a "message"/"type" label; it is exhausted only when all ten queries are quiet |
| Delivery.ComposerFoundIff | index.js:104-122 | the input is found if and only if some poll among the ten finds the composer and every earlier poll was quiet |
| Delivery.PollTraceShape | index.js:103-125 | the poll issues at most ten queries (all ten when it is exhausted), and it never types or closes |
| Delivery.TypeAndSend | index.js:133-164 | locate, click, insert, Enter and close are issued in order; each step that throws ends the run with its error, and clicking a missing element throws |
| Delivery.AutoSendPath | index.js:93-164 | the auto-send path is the poll, followed by a close when the input was not found or by typing when it was |
| Delivery.Deliver | index.js:52-176 | `sendToNumber` is the specification `SendToNumber`: open, navigate, wait, alert check, manual or auto path, and the catch that closes once more |
| Delivery.OnlyOpeningThrows | index.js:55-59 | only a failing `newPage` escapes `sendToNumber`, having issued nothing; otherwise the call returns, and the first thing it does is navigate to the recipient's chat URL |
| Delivery.ClosesOnEveryExitButManual | index.js:52-176 | every exit that returns closes the tab last, except the manual-send exit |
| Delivery.ManualSendLeavesTabOpen | index.js:165-169 | the manual exit is taken exactly when the chat opened with no alert and `autoSend` is off; the tab is then never closed and nothing is clicked, typed or pressed |
| Delivery.AlertPreemptsTyping | index.js:76-91 | with the alert shown there is no poll, click, insertion or Enter, even if an editable element is present; the skip happens exactly when the close succeeds, and then the tab is closed exactly once |
| Delivery.AutoSendRunPolls | index.js:93-131 | the auto-send path issues exactly the poll's queries for the message input |
| Delivery.TryRunPolls | index.js:59-131 | the `try` block polls only when the chat opened with no alert and `autoSend` is on |
| Delivery.PollIsBounded | index.js:104 | one delivery issues at most ten queries for the message input |
| Delivery.InputNotFoundCloses | index.js:127-131 | the input is given up exactly when all ten polls were quiet (and the close succeeds); the tab is then closed and nothing is typed |
| Delivery.SendsInOrder | index.js:133-164 | a message is sent exactly when every step succeeds; the trace then ends with click, the message, Enter and close, with no interaction and no close before them |
| Delivery.InsertsOnlyTheMessage | index.js:141-149 | the only text ever inserted is the message |
| Delivery.FailureCarriesScriptError | index.js:170-171 | a `Failed` outcome carries the message of an error the automation surface raised |
| Batch.DeliverEntry | index.js:199-202 | one turn of the loop converts the entry, normalises it and delivers to it, or fails with the conversion's error |
| Batch.DeliverAll | index.js:198-205 | the loop's response and attempts are those of `RunBatch` |
| Batch.StopStep | index.js:198-205 | one turn of the loop: a conversion error or a thrown delivery ends the run, any returned outcome goes on to the next entry, and the end of the list completes it |
| Batch.AttemptsFollowPlan | index.js:198-205 | the attempts are the planned entries in input order, one per entry and without gaps |
| Batch.CompletesIffEveryEntryReturns | index.js:198-206 | the run completes, with one attempt per entry, exactly when every entry converts and its delivery returns; no returned outcome stops it |
| Batch.FailureNamesTheStoppingError | index.js:198-209 | every attempt but the last returned; a failed run reports the error of the thrown delivery or of the unconvertible entry that stopped it |
| Batch.EntryThrowsIffTabFails | index.js:58-59 | a convertible entry's delivery throws exactly when its tab cannot be opened |
| Batch.CompletesIffEveryEntryProceeds | index.js:195-206 | the batch answers "Broadcast Completed!", having attempted every entry, exactly when every entry converts and every tab opens; sent, skipped, manual and failed outcomes never stop it |
| Batch.AttemptsFollowInput | index.js:198-202 | there are never more attempts than entries, and attempt `j` is the delivery of entry `j`: to the entry's normalised number, starting (when it returns) at that number's chat |
| Batch.AttemptIsPlanned | index.js:198-205 | attempt `j` of a whole run is the plan's entry `j`, and a run never has more attempts than entries |
| Batch.PlannedAttempt | index.js:199-202 | an attempt planned for an entry is the delivery of that entry |
| Batch.HandleSendMessages | index.js:181-210 | an empty list answers "No numbers" without touching the session; otherwise login runs once (not at all when already logged in), and a session that was or becomes logged in stays Ready with its browser and page; a login failure answers with its error, attempts nobody and leaves `browser`/`page` as `InitWhatsApp` left them; recipients are attempted only with the session ready; a non-iterable list fails with "not iterable"; otherwise the response and attempts are those of `RunBatch` |

## Left out

- Express, CORS, the JSON middleware and `app.listen` (index.js:1-7, 213) are HTTP plumbing. The handler is a method from a request record to a response record.
- `console.log` diagnostics are left out, including the alert text read at index.js:79-88. Reading that text is kept only as a call that may throw (`AlertProbeThrew`).
- The delays and timeouts are wall-clock timing and are left out. These are `delay`, `setDefaultNavigationTimeout` and the 60 s, 30 s, 3 s, 500 ms, 700 ms and 2500 ms values. A timeout is one more error the script may raise at that call, and only the order of the calls is kept.
- The browser, pages and DOM are not modelled. Every automation call is an answer of the scripted surface (`LoginScript`, `TabScript`). The handles of the browser and page are numbers chosen by the script.
- The tabs for successive entries come from a sequence of scripts; `Batch.TabFor` gives entry `k` the `k`-th one. Past the end of that sequence, opening a tab fails with a fixed error (`NoTab`). This is a convention of the model, not of the program.
- The caller supplies the session object, rather than it being a module global. Interleaving of overlapping requests on the shared globals is unsynchronised async concurrency and is left out.
- When a login is retried, the browser launched by the earlier attempt is never closed. The model only replaces the handle and does not track open browsers.
- The tab opened for manual sending is left open; later entries do not depend on it, so the model does not track open tabs.
- broadcast.js is commented out in full and has no code to model.
- JsValues.ToString: numbers are exact integers; integers beyond 2^53 are rounded and printed with at most 17 significant digits by JavaScript, which is not modelled. Fractions, exponent notation (from 1e21 up), `NaN` and `Infinity` are not modelled.
- Text.Lower: only ASCII letters are lower-cased. JavaScript's full Unicode case mapping is not modelled.
- Only arrays and strings have a `length`. An object body with its own `length` field is treated like any other object.
- The request's `message` is a string. A non-string, non-array message would make `message.slice` at index.js:154 throw after the text was inserted, and that is not modelled.
- Objects inside the list convert with the default `toString()` ("[object Object]"); custom `toString` methods are not modelled.
