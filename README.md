# Bucks2Bar core, modelled in Dafny

Bucks2Bar is a small budgeting page with a mail relay behind it. The user
enters an income and an expense for each of the twelve months, and the page
draws them as a bar chart and as a pie chart of the two totals. A username
field is checked against a password-like policy. The relay accepts the two
rendered charts as `data:` URLs and mails them on.

This project models the deterministic logic of those pieces. The browser and
Express are replaced by explicit inputs and state.

- `MonthlyForm` (`monthly_form.dfy`): the fixed month order and the chart labels. It holds `clamp` and the loop of `readFormValues`, which turns each field into a number in [0, 50000]. The document is a map from element id to what `parseFloat`/`isFinite` make of the field: `Some(v)` or `None`. A missing form is `None` and a missing element is absent from the map; an empty field reads as `'0'`, that is `Some(0)`.
- `Charts` (`charts.dfy`): the bar and pie upserts. Each one is a no-op without a canvas or the chart library, constructs the chart once, and afterwards overwrites only the dataset arrays. The `ChartPresenter` class owns the two chart handles. Its `instances` counter shows that a chart is never constructed twice.
- `Scheduler` (`scheduler.dfy`): the single-flight animation-frame flag (`rafId`). The `FrameScheduler` class is proved against a pure transition function `Step`. Lemmas about `Step` runs show coalescing: a burst of requests gives one refresh, and the flag is clear again afterwards.
- `Username` (`username.dfy`): the fail-fast policy `ValidateUsername`, and the field as a class. The class fields are the input's classes, the feedback text and classes, `submitBtn.disabled`, the alerts shown, and the queued deferred reset steps (`setTimeout(…, 0)`).
- `MailRelay` (`mail_relay.dfy`): recipient resolution, `parseDataUrl` and the attachment list. It also holds the handler's mapping to 400/200/500 and the CORS middleware. The handler accepts `data:`, then any text without a line terminator up to the first `;base64,`, then any text without a line terminator. This is the `;base64` shape of section 3 of RFC 2397, without its mediatype or character restrictions.
- `JsText` (`js_text.dfy`): the ECMAScript string primitives used above. These are `trim`, line terminators, and `length` in UTF-16 code units.
- `Wrappers` (`wrappers.dfy`): `Option`.

Behaviour of the source worth noting:
- The submit handler re-validates the input's current value. It does not consult the presented state (js/app.js:309).
- A missing email falls back to `MAIL_TO` before the relay answers 400 (server.js:76).
- The deferred reset leaves the feedback element's `text-success`/`text-danger` classes as they were (js/app.js:313-317).
- The submit button's initial `disabled` state and the initial classes of the input and the feedback element come from the markup, so the constructor takes them as parameters.

## Model

| member | source | states |
|---|---|---|
| `JsText.Trim` | server.js:76 | the result has no trimmable character at either end and is no longer than the input |
| `JsText.SkipBlanks` | server.js:76 | the leading scan of `trim`: every character it skips is whitespace or a line terminator, and it stops at the first one that is not |
| `JsText.BackBlanks` | server.js:76 | the trailing scan of `trim`: every character it skips from the end is whitespace or a line terminator, and it stops after the last one that is not |
| `JsText.TrimUnique` | server.js:76 | any infix with only blanks before and after it, and a non-blank first and last character (or empty when everything is blank), is exactly what `trim` returns |
| `JsText.TrimEmptyIff` | server.js:76-77 | trimming gives "" exactly when every character is whitespace or a line terminator |
| `JsText.TrimIdempotent` | server.js:76 | trimming twice is trimming once |
| `JsText.Utf16Length` | js/app.js:273 | JavaScript's `length` lies between the character count and twice that |
| `JsText.Utf16LengthBmp` | js/app.js:273 | without astral characters, `length` is the character count |
| `MonthlyForm.Clamp` | js/app.js:7 | the result never exceeds `max`; for `min <= max` it lies in [min, max], equals `v` inside the range and the nearer bound outside it |
| `MonthlyForm.Capitalize` | js/app.js:69 | keeps the length and the tail; a lower-case ASCII initial becomes its upper-case letter |
| `MonthlyForm.MonthLabels` | js/app.js:65-69 | twelve labels, the i-th being the i-th month key capitalised |
| `MonthlyForm.MonthLabelsSpelled` | js/app.js:65-69 | the labels are exactly "January" … "December", in calendar order |
| `MonthlyForm.Lookup` | js/app.js:72-79 | what `form?.querySelector` and `parseFloat` give for one id: nothing without a form or element; it is specified by `Sanitize` and `ReadFormValues`, which state what each outcome becomes |
| `MonthlyForm.Sanitize` | js/app.js:78-81 | a missing, unparsable or non-finite field gives 0; an in-range number is kept, a negative one becomes 0 and one above 50000 becomes 50000; every result lies in [0, 50000] |
| `MonthlyForm.Series` | js/app.js:71-84 | twelve elements, the i-th being the sanitised field `prefix + monthKeys[i]` |
| `MonthlyForm.SeriesInRange` | js/app.js:80-81 | every element of a read series lies in [0, 50000] |
| `MonthlyForm.ReadFormValues` | js/app.js:71-84 | returns income and expense of length 12 in month order, each element the sanitised value of its field |
| `Charts.Sum` | js/app.js:124-125 | the left fold `reduce((a, b) => a + b, 0)`; its bounds are stated by `SumBounds`, its two-element value by `SumPair` |
| `Charts.SumBounds` | js/app.js:124-125 | a sum of n amounts each in [0, b] lies in [0, n·b] |
| `Charts.Totals` | js/app.js:124-126 | the pie dataset is `[sum income, sum expense]`, each total in [0, 600000] |
| `Charts.NewBarChart` | js/app.js:96-104 | the constructed bar chart holds the two series as its datasets; it is well formed (month labels, "Income"/"Expense", twelve in-range amounts each) when the series are |
| `Charts.NewPieChart` | js/app.js:133-143 | the constructed pie chart holds the totals as its one dataset; it is well formed when there are two totals in [0, 600000] |
| `Charts.WithData` | js/app.js:91-92 | assigning `datasets[i].data` changes only that array: type, labels, dataset label and the other datasets are kept |
| `Charts.BarAfter` | js/app.js:85-95 | `ensureBarChart`'s effect on the handle: a well-formed chart stays well formed, and there is a chart afterwards exactly when there was one or the canvas and library are present |
| `Charts.PieAfter` | js/app.js:120-132 | `ensureTotalsPieChart`'s effect on the handle: a well-formed pie stays well formed, and there is a pie afterwards exactly when there was one or the canvas and library are present |
| `Charts.BarUpsert` | js/app.js:86-118 | no-op without canvas or library; otherwise the chart exists, has the month labels and the freshly read series; an existing chart keeps its type, labels and dataset labels; shape preserved |
| `Charts.PieUpsert` | js/app.js:120-132 | no-op without canvas or library; otherwise the one dataset is `[sum income, sum expense]`, labels "Income"/"Expense", and an existing chart keeps its labels |
| `Charts.UpsertIdempotent` | js/app.js:86-132 | a second refresh against the same page changes neither chart |
| `Charts.TooltipPercentAsWritten` | js/app.js:151-154 | (as written) a slice's tooltip percentage is computed against the totals the pie was constructed with |
| `Charts.LoadedTotals` | js/app.js:122-126 | an empty form gives pie totals [0, 0] |
| `Charts.IncomeEnteredTotals` | js/app.js:122-126 | a form holding only January's income of 1000 gives pie totals [1000, 0] |
| `Charts.StaleTooltipPercent` | js/app.js:151-154 | the pie upserted against the loaded page with an empty form holds [0, 0]; upserted again once January's income is 1000 it holds [1000, 0], and its income tooltip shows 100000 % as written and 100 % corrected |
| `Charts.TooltipPercent` | js/app.js:151-154 | (corrected) a slice's share of the current totals, always in [0, 100] |
| `Charts.TooltipSharesSum` | js/app.js:151-154 | with a positive total, the two corrected percentages add up to 100 |
| `Charts.ChartPresenter.constructor` | js/app.js:62-63 | both handles start empty and nothing has been constructed |
| `Charts.ChartPresenter.EnsureBarChart` | js/app.js:86-118 | the bar handle becomes `BarAfter(old, page)`, the pie is untouched, and one instance is added only when the bar chart is first created |
| `Charts.ChartPresenter.EnsureTotalsPieChart` | js/app.js:120-162 | the pie handle becomes `PieAfter(old, page)`, the bar is untouched, and one instance is added only on first creation; the totals the tooltip closure captured are recorded on first creation and kept afterwards |
| `Charts.ChartPresenter.Refresh` | js/app.js:170-171 | bar then pie, both against the page at refresh time; invariant kept: each existing chart was constructed exactly once |
| `Scheduler.Step` | js/app.js:165-172 | a request leaves a callback queued and runs nothing; a frame clears the flag; a refresh is counted exactly when a frame finds a callback queued, and never more than one |
| `Scheduler.RequestsWhilePending` | js/app.js:167 | while a refresh is pending, any number of requests change nothing |
| `Scheduler.Coalesce` | js/app.js:165-173 | from idle, n ≥ 1 requests and one frame give exactly one refresh and a clear flag, and the next request schedules again |
| `Scheduler.RefreshesBounded` | js/app.js:165-173 | refreshes never outnumber frames, nor requests (plus one already queued callback) |
| `Scheduler.RunAppend` | js/app.js:165-173 | running two event sequences one after the other is running their concatenation |
| `Scheduler.FrameScheduler.constructor` | js/app.js:165 | the flag starts clear, with no refresh run |
| `Scheduler.FrameScheduler.RequestUpdate` | js/app.js:166-173 | the state moves by one `Request` step: the flag is set, and nothing changes if it was already set |
| `Scheduler.FrameScheduler.OnFormInput` | js/app.js:178-181 | only an event from an input element issues a request |
| `Scheduler.FrameScheduler.Fire` | js/app.js:168-172 | the flag is cleared and one refresh counted, and both charts become their upsert against the page at fire time; the pie's captured construction totals change only when the pie is first created |
| `Username.Message` | js/app.js:273-276 | the four reasons, one per rule; `ValidateUsername` and `FirstViolatedRule` state which one is reported |
| `Username.ValidateUsername` | js/app.js:272-278 | accepts exactly when the length is ≥ 8 and there is an A-Z, an a-z and a character outside `[A-Za-z0-9]`; length < 8 is always reported as "Minimum 8 characters" |
| `Username.FirstViolatedRule` | js/app.js:272-277 | rule k is reported exactly when it is broken and every earlier rule in length → upper → lower → special order holds; accepted exactly when none is broken |
| `Username.TestedCases` | tests/username.test.js:42-80 | "Valid_user1!" accepted, "valid_user1!" needs an uppercase letter, "Abc123" and "" are too short |
| `Username.Expected` | js/app.js:280-300 | the presentation is Valid exactly when the value is accepted, and Empty exactly when the value is "" |
| `Username.UsernameField.constructor` | js/app.js:261-266 | value, input classes, feedback classes and button state as in the markup; no feedback text and nothing queued; markup without validity classes and with a disabled button starts in the consistent empty state |
| `Username.UsernameField.ApplyState` | js/app.js:280-300 | replaces the four validity classes with the valid pair, the invalid pair or nothing. Feedback becomes "Username looks good.", "" or the reason. `disabled` becomes `!ok`. Afterwards the field is consistent |
| `Username.UsernameField.OnInput` | js/app.js:302-305 | the shown presentation is the expected one for the new value, submit disabled iff not accepted, feedback text by presentation; the input's other classes are kept and the feedback element gains `text-success`/`text-danger` (dropping the other) for a valid/invalid value, unchanged when empty |
| `Username.UsernameField.OnSubmit` | js/app.js:307-310 | the default submission is always prevented; one "Username accepted." alert is added iff the current value validates |
| `Username.UsernameField.OnReset` | js/app.js:312-318 | queues one deferred step; the input returns to its default value |
| `Username.UsernameField.RunDeferredReset` | js/app.js:313-317 | whatever the prior state: the validity classes are removed, the feedback is empty and submit disabled, so the presentation is Empty |
| `MailRelay.GivenText` | server.js:76 | `String(email || '')`: a falsy value gives "" with no conversion, and it throws exactly when a truthy non-string's conversion throws, passing on what was thrown |
| `MailRelay.Recipient` | server.js:76 | `String(email || '').trim() || MAIL_TO`; what it returns in every case is stated by `RecipientSpec` |
| `MailRelay.RecipientSpec` | server.js:74-77 | there is no recipient exactly when `String(email)` throws (a truthy non-string whose conversion fails); otherwise the recipient is the trimmed `email` (non-empty, no blank at either end) when it has a non-blank character, and `MAIL_TO` otherwise; it is "" exactly when `email` is blank and `MAIL_TO` is "" |
| `MailRelay.FindFrom` | server.js:82 | returns the first occurrence at or after `from`, or none when there is no occurrence |
| `MailRelay.MatchDataUrl` | server.js:82 | the match of `/^data:(.*?);base64,(.*)$/` and its two groups; `MatchSound` and `MatchComplete` show it agrees with the expression's meaning `DataUrlMatch` |
| `MailRelay.MatchSound` | server.js:82 | every match found is a match of `/^data:(.*?);base64,(.*)$/` (lazy mime, no line terminators) |
| `MailRelay.MatchComplete` | server.js:82 | every match of the regular expression is found, with the same two groups (so the groups are unique) |
| `MailRelay.DataUrlRoundTrip` | server.js:82 | `data:<mime>;base64,<payload>` is read back as written when the mime has no `;` and neither part has a line terminator |
| `MailRelay.ParseDataUrl` | server.js:80-87 | no result for a non-string or empty value; the filename is always `name + ".png"`, and the content type is never empty |
| `MailRelay.ParseDataUrlIff` | server.js:80-87 | parses exactly the regex matches: content = payload group, content type = mime group or `image/png` when empty |
| `MailRelay.ChartAttachments` | server.js:89-93 | the pushed attachment list; its shape is stated by `AttachmentsShape` |
| `MailRelay.AttachmentsShape` | server.js:89-94 | one attachment per chart that parsed and none for a chart that did not (so at most two), monthly always first; none exactly when neither parsed |
| `MailRelay.ErrorText` | server.js:110 | `err?.message || String(err)`; `DeliveryReply` and `HandleSendCharts` state where it is used |
| `MailRelay.DeliveryReply` | server.js:106-111 | 200 with `messageId`/`previewUrl` on delivery; 500 with the error's message, or `String(err)` when it has none, on a throw |
| `MailRelay.HandleSendCharts` | server.js:73-112 | a throwing `String(email)` gives 500 with what it threw (`err?.message || String(err)`) and sends nothing; an empty recipient gives 400 "Email is required" before attachments are looked at. No parsed chart gives 400 "No chart images provided". Otherwise one mail goes to the recipient with the attachments and the transport's outcome is mapped. Status ∈ {200, 400, 500}, and 200 iff the body is a success |
| `MailRelay.Cors` | server.js:55-61 | every request gets the three CORS headers; `OPTIONS` ends with 204, any other method continues down the chain with the status untouched |

## Findings

| source | as written | input that shows it | evidently intended | confidence | as-written member | corrected member |
|---|---|---|---|---|---|---|
| js/app.js:151-154 | the pie tooltip divides by the `dataset` array captured when the chart was constructed; later updates assign new arrays, so the total stays that of the first refresh | page loads with an empty form (pie built with totals [0, 0], total read as 1); the user enters an income of 1000; the income tooltip shows 100000 % | the percentage of the chart's current totals (100 % here) | high (not executed) | `Charts.TooltipPercentAsWritten` (with `Charts.StaleTooltipPercent`) | `Charts.TooltipPercent` (with `Charts.TooltipSharesSum`) |

## Left out

- The fragment loader `includeInto` and the include batching (js/app.js:11-59, 184): fetch, `innerHTML` and script re-execution are I/O and DOM side effects.
- Chart rendering (js/app.js:93, 96-117, 133-161, 190-194). This covers `update()` redraw requests, `resize()`, colours, axis options, and the tooltip text with `Intl.NumberFormat` and `toFixed`. It is the library's rendering. Only the tooltip percentage, as a real number, is modelled for the finding.
- Chart object identity: charts are values held by the presenter. "Updated in place, never rebuilt" is shown by the `instances` counter and by labels that stay unchanged, not by reference equality.
- IEEE semantics of `parseFloat`/`isFinite` and floating-point sums: field values and totals are mathematical reals, and the parse is an abstract `Option<real>` per field.
- The email-charts form handler (js/app.js:197-254): `checkValidity`, canvas `toDataURL`, `fetch` and the JSON response are browser and network code.
- Timing of `requestAnimationFrame` and `setTimeout`. Only the pending flag, the frame step (`Fire`) and the deferred reset step are modelled. `Fire` requires a queued callback, since a frame runs only callbacks that were requested.
- `getTransporter` (server.js:24-51), `sendMail`, and Ethereal preview URLs: foreign library calls. They are one `transport` parameter from the mail to its delivery or to what was thrown.
- `Buffer.from(…, 'base64')` (server.js:85): the payload stays the still-encoded text.
- Express body parsing and payload limits, static serving, `listen`, the `/health` timestamp (server.js:63-69, 114-119): framework and clock.
- Non-string request fields are abstracted to their truthiness and to how `String(x)` completes: with a text or with what it throws (`JsValue.Other`), such as a `TypeError` for a non-callable `toString` or a `RangeError` for very deep nesting. How a given JSON value converts is an input, not computed.
- Strings are sequences of Unicode scalar values. JavaScript's UTF-16 length is modelled (`Utf16Length`). Lone surrogates cannot be written.
- The `undefined` argument that `!value` in `validateUsername` guards against: both callers pass a string (js/app.js:303, 309), so the validator takes a string.
- scripts/test-email.js is a network smoke test, and tests/username.test.js a jsdom driver. Neither is part of this model; the test file's cases appear only as `Username.TestedCases`.
