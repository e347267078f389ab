# compliance-scan, modelled in Dafny

compliance-scan is a landing site that sells a California compliance package. Its funnel runs as follows:

- A visitor types a website address.
- The page runs a simulated one-minute scan.
- A gated three-step flow follows: a results preview, then a lead-capture form, then a cleanup offer.
- The offer posts the lead to a payment endpoint, which opens a hosted checkout session for the $197 package.
- The payment provider later calls a webhook.
- On the server side, a generator fills an HTML report template and renders it to `<scanId>.pdf`.
- A retention sweep deletes reports older than seven days.

This project models that core and proves what the code promises about it.

| file | module | models |
|---|---|---|
| `text.dfy` | `Text` | JavaScript string helpers the core relies on: `startsWith`, `endsWith`, `includes`, `trim`, `toString()` of an integer, ASCII `toUpperCase` |
| `wrappers.dfy` | `Wrappers` | `Option` and `Result` |
| `json.dfy` | `JsValue` | JSON values as parsed request bodies, JavaScript falsiness, `a \|\| b`, property access, `String(v)` |
| `sampling.dfy` | `Sampling` | the two violation pickers' "random sort, then `slice(0, Math.min(count, length))`", with the random order as an input permutation |
| `content.dfy` | `Content` | `app/config/content.js`: the violation catalogue, risk styles, scarcity numbers, testimonials, `getRandomViolations`, `getRiskLevelStyle` |
| `replace.dfy` | `Replace` | `String.prototype.replace` with a global pattern, including the `$`-patterns of the replacement text |
| `report_template.dfy` | `ReportTemplate` | `app/utils/pdfGenerator.ts` |
| `retention.dfy` | `Retention` | `app/utils/cleanup.ts` |
| `checkout_route.dfy` | `CheckoutRoute` | `POST` of `app/api/stripe/checkout/route.ts` |
| `webhook_route.dfy` | `WebhookRoute` | `app/api/stripe/webhook/route.ts` |
| `checkout_client.dfy` | `CheckoutClient` | `app/components/CheckoutPage.tsx`: the testimonial carousel, the `CCFP-` scan id, the submit handler |
| `funnel.dfy` | `Funnel` | `app/page.tsx`, covering: URL validation; the page state and its handlers (class `Home`, specified by `Next` on a `State` value); the risk badge; the penalty calculator; the FAQ accordion; the scarcity counter; the scan status ticker |

React state that a component updates becomes a class whose methods change its fields. Each method is specified by a pure function of the old state. Pure computations are functions, with lemmas about them.

Clocks, random draws, the network, the payment provider, the URL parser, the template file and the PDF renderer are all parameters:

- The random sort is an arbitrary permutation.
- `Date.now()` and `Math.random()` are a number and a string of base-36 digits.
- `fetch` is a function from the request body to a reply.
- The provider's `checkout.sessions.create` and `webhooks.constructEvent` are opaque functions.

Four results go beyond restating the code:

- **Report placeholders.** The chain of seven global replaces in `generateComplianceReport` equals a simultaneous substitution of all placeholders (`ReportTemplate.ChainIsSimultaneous`). This needs three conditions:
  - no field value contains `$` (which `replace` would expand, see `ReportTemplate.DollarAmpersandKeepsPlaceholder`);
  - no field value can start a placeholder;
  - the template's own text opens no placeholder outside its placeholders, and no placeholder name holds a brace (`ReportTemplate.WellFormed`). In the template `{{ema{{scanId}}il}}`, an empty scan id glues the surrounding text into a new `{{email}}`, which the next replace then fills.

  Excluding `{{` alone is not enough. A value ending in `{` followed by the template text `{email}}` forms a new `{{email}}`.
- **Late scan completions.** The scan's completion callback is queued by timers that are never cancelled, so a completion can arrive after the results are already shown. The model lets it arrive at any time after a scan has started; the invariants still hold, and `Funnel.StepAdvancesInOrder` shows that such a late completion sends the step back to 1.
- **Configuration-error alert.** The client shows its "Stripe is not configured yet" alert only when the error message contains `Stripe configuration required`. But the message the client uses is the route's `details` field, and `details` never contains that phrase. A configuration error therefore always shows the generic `Payment error: …` alert (`CheckoutClient.ConfigErrorShowsGenericAlert`).
- **Unreachable overlays.** The page wires none of `handleProceedToCheckout`, `handleBackToHome` or `handleCheckoutComplete` to anything that can fire, and nothing sets `showDashboard`. From a fresh page the checkout and dashboard overlays never open (`Funnel.ReachableFromInit`). `handleProceedToCleanupOffer` posts to the payment endpoint itself.

## Model

| member | source | states |
|---|---|---|
| Text.TrimStart | app/page.tsx:171 | the result is a suffix of the input; every character removed is JavaScript whitespace; the result does not start with whitespace |
| Text.TrimEnd | app/page.tsx:1052 | the result is a prefix of the input; every character removed is whitespace; the result does not end with whitespace |
| Text.TrimEmptyIffBlank | app/page.tsx:1052 | `trim()` (`Text.Trim`): `url.trim()` is empty exactly when every character of the input is whitespace |
| Text.NatToDecimal | app/utils/pdfGenerator.ts:34 | `toString()` of a count is a non-empty string of decimal digits without a leading zero |
| Text.DecimalRoundTrip | app/utils/pdfGenerator.ts:34 | reading the decimal text of `n` back gives `n` |
| Text.DecimalInjective | app/components/CheckoutPage.tsx:94 | different timestamps have different decimal texts |
| Text.IntToDecimal | app/api/stripe/checkout/route.ts:70 | `toString()` of an integer is non-empty, starts with `-` exactly when the integer is negative, and is digits otherwise (`Funnel.ParseIntOfDecimal` reads it back) |
| Text.UpperAsciiString | app/components/CheckoutPage.tsx:94 | `toUpperCase()` keeps the length, leaves no lower-case ASCII letter, and keeps every character that is not one |
| Text.UpperAsciiIdempotent | app/components/CheckoutPage.tsx:94 | upper-casing an upper-cased string changes nothing |
| Replace.ExpandPlain | app/utils/pdfGenerator.ts:28-35 | a replacement text without `$` is inserted literally |
| Replace.ReplaceIsSubstitute | app/utils/pdfGenerator.ts:28-35 | `replace` with a global pattern (`Replace.ReplaceAll`, with `Replace.Expand` for the replacement): without `$` in the replacement, the global replace equals plain left-to-right substitution of non-overlapping matches |
| Replace.ReplaceWithoutMatch | app/utils/pdfGenerator.ts:28-35 | scanning a string that does not contain the pattern returns it as it is |
| Replace.ReplaceAbsent | app/utils/pdfGenerator.ts:28-35 | a global replace of a pattern that does not occur changes nothing, whatever the replacement |
| Sampling.Permute | app/config/content.js:110 | the reordered list is a rearrangement of the original: the same elements with the same multiplicities |
| Sampling.SliceEnd | app/config/content.js:111 | the end index `slice` uses is within the list; it is `min(count, length)` for a non-negative count, and it counts back from the end for a negative one |
| Sampling.SampleDrawsDistinctPositions | app/config/content.js:109-111 | shuffle-then-slice (`Sampling.Sample`): a sample has `min(count, length)` entries; each is the source entry at its own position, and no position is drawn twice |
| Sampling.SampleFromSource | app/utils/pdfGenerator.ts:72-79 | every sampled entry comes from the source list |
| Sampling.SampleDistinct | app/utils/pdfGenerator.ts:72-79 | a list without repeats yields a sample without repeats |
| Content.GetRandomViolations | app/config/content.js:109-111 | `min(count, 6)` catalogue violations, all from the catalogue, no id twice |
| Content.SampleKeepsIdsDistinct | app/config/content.js:109-111 | a sample of a list whose ids are distinct has `min(count, length)` entries, all from the list, no id twice |
| Content.GetRiskLevelStyle | app/config/content.js:115-117 | the style is always one of the three configured ones: `high` gets the red High Risk style and `low` the yellow Low Risk style, colours and border included; every other key gets the orange Moderate Risk style |
| Content.CatalogueIdsDistinct | app/config/content.js:4-47 | no two catalogue violations share an id |
| Content.CatalogueSeverities | app/config/content.js:4-47 | every catalogue violation is rated high or moderate |
| ReportTemplate.FillWithoutPlaceholders | app/utils/pdfGenerator.ts:28-35 | a template without any of the seven placeholders is returned unchanged |
| ReportTemplate.DollarAmpersandKeepsPlaceholder | app/utils/pdfGenerator.ts:33 | a field value `$&` puts the placeholder back instead of filling it, whatever the placeholder's name |
| ReportTemplate.Fill | app/utils/pdfGenerator.ts:29 | filling one placeholder name keeps the template's segment count |
| ReportTemplate.Resolve | app/utils/pdfGenerator.ts:28-35 | simultaneous substitution keeps the template's segment count |
| ReportTemplate.SubstituteSkips | app/utils/pdfGenerator.ts:29-35 | a literal that cannot open a placeholder passes through a replace untouched |
| ReportTemplate.SubstituteSkipsOtherToken | app/utils/pdfGenerator.ts:29-35 | a placeholder with another name passes through a replace untouched |
| ReportTemplate.SubstituteToken | app/utils/pdfGenerator.ts:29 | a placeholder with the replaced name becomes the value |
| ReportTemplate.SubstituteFills | app/utils/pdfGenerator.ts:29-35 | on a well-formed template, one global replace fills exactly the placeholders with its name |
| ReportTemplate.FillWellFormed | app/utils/pdfGenerator.ts:29-35 | filling with a value that opens no placeholder keeps the template well formed |
| ReportTemplate.DecimalIsPlain | app/utils/pdfGenerator.ts:34 | the violation count's text never holds `$` or opens a placeholder |
| ReportTemplate.ChainStep | app/utils/pdfGenerator.ts:29-35 | each replace of the chain is a fill that keeps the template well formed |
| ReportTemplate.FillAllResolves | app/utils/pdfGenerator.ts:28-35 | filling the seven names one after another fills each placeholder with its own field |
| ReportTemplate.ChainIsSimultaneous | app/utils/pdfGenerator.ts:28-35 | the replace chain (`ReportTemplate.FillPlaceholders`): for a template whose own text opens no placeholder outside its placeholders (`ReportTemplate.WellFormed`) and field values without `$` that open no placeholder, the replace chain equals substituting all seven placeholders at once |
| ReportTemplate.ReportFileName | app/utils/pdfGenerator.ts:49 | the file name is a `.pdf` whose stem is exactly the scan id |
| ReportTemplate.ReportFileNameInjective | app/utils/pdfGenerator.ts:49 | distinct scan ids name distinct report files |
| ReportTemplate.GenerateComplianceReport | app/utils/pdfGenerator.ts:15-70 | the directory exists afterwards; the HTML is the filled template; `<scanId>.pdf` is written exactly when the template was read and rendered; success, with that path returned, happens exactly when in addition the browser closed; any failure gives `Failed to generate compliance report`, and a close that throws after rendering leaves the written file in place |
| ReportTemplate.GetRandomViolations | app/utils/pdfGenerator.ts:72-79 | the loaded array is reordered in place by the permutation, and the result is the first `min(count, length)` entries of it |
| ReportTemplate.FormatAppend | app/utils/pdfGenerator.ts:81-83 | `formatViolationsList` (`ReportTemplate.FormatViolationsList`): one more violation adds one separator and one `<li>` item at the end, so items keep input order |
| ReportTemplate.FormatLength | app/utils/pdfGenerator.ts:81-83 | the list's length is the violations' total length plus 9 per item and 13 per separator |
| Retention.ReportsDir.constructor | app/utils/cleanup.ts:8 | a directory that does not exist holds no entries |
| Retention.Retained | app/utils/cleanup.ts:18-29 | a complete sweep keeps exactly the entries that are not `.pdf` files older than the cutoff, with their times |
| Retention.RetainedIdempotent | app/utils/cleanup.ts:18-29 | a second sweep at the same instant deletes nothing |
| Retention.RetainedMonotone | app/utils/cleanup.ts:13-14 | sweeping at `now` and then at a later time is the same as sweeping only at the later time |
| Retention.DeletedCountMatches | app/utils/cleanup.ts:22-26 | the deletion count equals the number of entries that disappear |
| Retention.SweepRetains | app/utils/cleanup.ts:18-29 | removing exactly the expired reports, and nothing else, leaves the entries `Retained` keeps |
| Retention.SweepOutcome | app/utils/cleanup.ts:18-34 | a sweep that ran to the end or stopped at a failing report has removed only expired reports, counted them, kept every failing entry, and, if it ran to the end, left exactly what `Retained` keeps |
| Retention.Sweep | app/utils/cleanup.ts:18-34 | over the listed entries: only expired `.pdf` entries are removed, and the others keep their times; `deletedCount` is the number removed; the loop completes exactly when visiting no `.pdf` entry throws (its stat throws, or it is expired and its unlink throws), and then leaves exactly the retained entries; an entry whose visit throws is never removed |
| Retention.CleanupOldReports | app/utils/cleanup.ts:4-35 | a missing directory is left alone; a directory whose listing throws is left alone and the run does not complete; otherwise only expired `.pdf` entries are removed, and the others keep their times; `deletedCount` is the number removed; the run completes exactly when visiting no `.pdf` entry throws (its stat throws, or it is expired and its unlink throws), and then leaves exactly the retained entries; an entry whose visit throws is never removed |
| JsValue.Or | app/api/stripe/checkout/route.ts:33 | JavaScript's logical or of `a` and `b`: the result is one of the operands, `a` itself whenever `a` is truthy, and falsy only when both are |
| JsValue.Get | app/api/stripe/checkout/route.ts:22 | reading a member of a parsed body yields that member when the body is an object holding it, and `undefined` otherwise |
| JsValue.ToJsString | app/api/stripe/checkout/route.ts:70 | template interpolation: a string is inserted as is, and only the empty string or an array interpolates to nothing |
| CheckoutRoute.Params | app/api/stripe/checkout/route.ts:52-84 | a one-off payment of 19700 cents in usd; the success URL is the domain's confirmation path, then the scan id, then the session-id placeholder; the cancel URL is on the domain; the metadata holds the scan id, and the receipt goes to the metadata's email |
| CheckoutRoute.Post | app/api/stripe/checkout/route.ts:18-107 | every answer is a JSON object with status 200, 400 or 500; it carries `sessionId` exactly on 200 and `error` exactly otherwise; a 400 never reaches the provider; every 500 is `Failed to create checkout session` with type `STRIPE_CHECKOUT_ERROR`; a body that does not parse, or parses to `null`, gets a 500 without reaching the provider |
| CheckoutRoute.MissingDataFirst | app/api/stripe/checkout/route.ts:25-31 | a body without truthy `leadData` and `scanId` gets 400 `Lead data and scan ID are required` whatever the configuration, and no session is created |
| CheckoutRoute.PlaceholderKeyCreatesNoSession | app/api/stripe/checkout/route.ts:39-49 | with the data present, a missing or placeholder key gives 400 `STRIPE_CONFIG_ERROR` with the setup details, and no session |
| CheckoutRoute.ProviderCalledOnlyPastGuards | app/api/stripe/checkout/route.ts:18-84 | the provider is called exactly when the body parsed to a non-null value with the required data and the key is real; then the request carries 19700 cents in usd, the quantity, the success and cancel URLs on the domain, the metadata and the lead's email |
| CheckoutRoute.StatusCodes | app/api/stripe/checkout/route.ts:18-107 | every answer is 200, 400 or 500, and 200 happens exactly when the provider created a session |
| CheckoutRoute.SuccessEchoesSession | app/api/stripe/checkout/route.ts:89-92 | a 200 body holds exactly `sessionId` and `url` of the created session; a session without a URL gives `url: null` |
| CheckoutRoute.BodyErrorIs500 | app/api/stripe/checkout/route.ts:22-105 | an unparsable body gets 500 `STRIPE_CHECKOUT_ERROR` with the parse error as details, a `null` body the same with the destructuring `TypeError`'s message; neither reaches the provider |
| CheckoutRoute.ProviderFailureIs500 | app/api/stripe/checkout/route.ts:94-105 | a provider error gives 500 `STRIPE_CHECKOUT_ERROR` with the error's message as details |
| WebhookRoute.NoSignatureRefused | app/api/stripe/webhook/route.ts:18-23 | a missing or empty signature gets 400 `No signature provided` before verification |
| WebhookRoute.NoteFor | app/api/stripe/webhook/route.ts:38-69 | nothing is logged only for a completed checkout without metadata; an event is noted as unhandled, with its type, exactly when its type is none of the three handled ones; intent notes carry the intent's id |
| WebhookRoute.Post | app/api/stripe/webhook/route.ts:13-79 | every answer is 200, 400 or 500; a 200 always has body `{received: true}`; every other answer is an `error` message alone and logs nothing; a body that cannot be read gets 500 `Webhook handler failed`; a signature the verifier rejects gets 400 `Invalid signature`; an accepted event logs the note its type calls for |
| WebhookRoute.NoteOnlyForVerifiedEvents | app/api/stripe/webhook/route.ts:13-79 | 200 is answered, and so something may be logged, exactly for a readable body with a non-empty signature the verifier accepts under the configured secret (`STRIPE_WEBHOOK_SECRET`, or the placeholder when it is unset or empty) |
| WebhookRoute.PaymentRecordOnlyForCompletedCheckout | app/api/stripe/webhook/route.ts:38-69 | a payment record is logged exactly for a completed checkout session with metadata, carrying its scan id and email; every other event type logs a note |
| CheckoutClient.ScanId | app/components/CheckoutPage.tsx:94 | a scan id starts with `CCFP-` and has 6 characters plus the timestamp's digits plus at most nine random characters |
| CheckoutClient.ScanIdSuffix | app/components/CheckoutPage.tsx:94 | the id holds the timestamp's digits after the prefix, then `-`, then at most nine characters with no lower-case letter |
| CheckoutClient.ScanIdDeterminesTime | app/components/CheckoutPage.tsx:94 | two equal scan ids were made at the same millisecond |
| CheckoutClient.ScanReportIsSwept | app/utils/pdfGenerator.ts:49 | the report named after a scan id is a `.pdf` the sweep considers, and it expires exactly when its time is before the seven-day cutoff |
| CheckoutClient.Classify | app/components/CheckoutPage.tsx:96-121 | a network failure or an unparsable body fails with its own message, and a `null` body fails; a non-ok reply fails with its `details` or the default message; an ok reply fails with `No checkout URL received` exactly when its `url` is falsy, and otherwise yields that url as a string; a URL results only from an ok, parsed reply |
| CheckoutClient.Submit | app/components/CheckoutPage.tsx:108-133 | the page redirects only for an ok, parsed reply with a truthy `url`, and then to that url; every alert is the setup notice or starts with `Payment error: ` |
| CheckoutClient.DetailsLackSetupPhrase | app/api/stripe/checkout/route.ts:44 | the route's configuration details do not contain the phrase the client looks for |
| CheckoutClient.ConfigReplyAlert | app/components/CheckoutPage.tsx:108-133 | the route's configuration-error reply makes the client alert `Payment error: ` plus the setup details, not the setup notice |
| CheckoutClient.ConfigErrorShowsGenericAlert | app/components/CheckoutPage.tsx:108-133 | a placeholder key yields a 400 whose error is the setup phrase, but the client alerts `Payment error: ` plus the details, never the setup notice |
| CheckoutClient.ClientRequestHasRequiredData | app/components/CheckoutPage.tsx:102-105 | the body the client sends always passes the route's data check |
| CheckoutClient.LeadReachesWebhook | app/api/stripe/webhook/route.ts:40-52 | when the route creates a session for the client's request, a completed-checkout event carrying that session's metadata is logged with the scan id, business name, owner name and email the client sent |
| CheckoutClient.MetadataCarriesLead | app/api/stripe/checkout/route.ts:73-79 | the session metadata for a client request carries the lead's fields and scan id as typed |
| CheckoutClient.SessionReplyRedirects | app/components/CheckoutPage.tsx:114-118 | a 200 reply whose `url` is a non-empty string sends the browser to that url |
| CheckoutClient.SuccessfulCheckoutRedirects | app/components/CheckoutPage.tsx:114-118 | with a real key and a created session that has a URL, the client navigates to exactly that URL |
| CheckoutClient.NextIndex | app/components/CheckoutPage.tsx:33 | the next testimonial index stays in range, advances by one, and wraps to 0 after the last |
| CheckoutClient.TicksWithinCycle | app/components/CheckoutPage.tsx:31-37 | within one cycle, `n` ticks move `n` places, wrapping once |
| CheckoutClient.TicksCompose | app/components/CheckoutPage.tsx:31-37 | `a` ticks then `b` ticks equal `a + b` ticks |
| CheckoutClient.FullCycleReturns | app/components/CheckoutPage.tsx:31-37 | the carousel returns to its start after as many ticks as there are testimonials and not before, and then repeats |
| CheckoutClient.Carousel.constructor | app/components/CheckoutPage.tsx:28-29 | the carousel starts at the first of the three testimonials |
| CheckoutClient.Carousel.Tick | app/components/CheckoutPage.tsx:32-34 | a tick moves to the next index and stays in range |
| CheckoutClient.Carousel.SelectDot | app/components/CheckoutPage.tsx:74 | clicking a dot shows that testimonial |
| CheckoutClient.CheckoutForm.constructor | app/components/CheckoutPage.tsx:85-86 | the form starts not processing |
| CheckoutClient.CheckoutForm.HandleSubmit | app/components/CheckoutPage.tsx:88-137 | the request carries the lead and a fresh `CCFP-` id; the result is the redirect or alert the reply calls for; the processing flag stays up exactly when the page redirects |
| Funnel.Normalize | app/page.tsx:1040-1042 | the checked address always has a web scheme; it equals the input exactly when the input already had one; it ends with the input |
| Funnel.NormalizeIdempotent | app/page.tsx:1063-1065 | normalising a normalised address changes nothing |
| Funnel.ValidIffParses | app/page.tsx:1037-1049 | `validateUrl` (`Funnel.ValidateUrl`): for a parser that reports the scheme it sees, an address is valid exactly when its normalised form parses |
| Funnel.StartScan | app/page.tsx:1051-1070 | only the error, the scanned address and the scanning flag change; the error is empty, the blank-input message or the invalid-URL message; it is empty exactly for non-blank input that validates, and then a scan of an address with a web scheme is running |
| Funnel.CloseOverlays | app/page.tsx:1155-1162 | closing uncovers the page and clears both addresses; the step, the lead and the error are kept |
| Funnel.Next | app/page.tsx:1072-1166 | no event opens the dashboard; only proceeding to checkout opens the checkout; only editing the lead or a reload changes the lead; only a finished scan, the two step buttons and a reload move the step |
| Funnel.NextOnScanStart | app/page.tsx:1051-1070 | the scan-start event's transition is `StartScan` |
| Funnel.ScanStartOutcomes | app/page.tsx:1051-1070 | blank input sets `Please enter a website URL`; invalid input sets the valid-URL message; neither starts a scan; valid input clears the error and scans the normalised address; the step, lead and other overlays are kept |
| Funnel.NextPreservesInv | app/page.tsx:1173-1210 | every event the rendered page can deliver keeps the invariant: step in 1..3, a running scan has a normalised address, step 3 only with a complete lead (the one-second save taken as one step), checkout and dashboard closed |
| Funnel.StepAdvancesInOrder | app/page.tsx:1072-1092 | the step moves only 1→2 by unlocking and 2→3 by submitting the lead; only a finished scan (which may be a late completion at any step) or a reload resets it to 1 |
| Funnel.RunPreservesInv | app/page.tsx:1173-1210 | any sequence of deliverable events keeps the invariant |
| Funnel.ReachableFromInit | app/page.tsx:1018-1210 | from a fresh page the checkout and dashboard overlays never open, the step stays in 1..3, and the cleanup offer appears only with the required lead fields, for a save that is one step (the source's one-second wait lets the lead be edited before step 3) |
| Funnel.Home.constructor | app/page.tsx:1019-1035 | the page starts in the initial state with a five-digit scan number |
| Funnel.Home.EditUrl | app/page.tsx:1023-1024 | typing replaces the address and clears the error |
| Funnel.Home.HandleScanStart | app/page.tsx:1051-1070 | the page state becomes `StartScan` of the old state |
| Funnel.Home.HandleScanComplete | app/page.tsx:1072-1076 | the scan overlay closes and the results open at step 1 |
| Funnel.Home.HandleUnlockReport | app/page.tsx:1079-1081 | the step becomes 2 |
| Funnel.Home.SetLeadData | app/page.tsx:1029-1034 | the lead record is replaced |
| Funnel.Home.HandleLeadCapture | app/page.tsx:1083-1092 | submitting the complete lead moves the step to 3, with the simulated save and its wait taken as one step |
| Funnel.Home.HandleProceedToCleanupOffer | app/page.tsx:1094-1140 | the step screens close; the lead is posted with a fresh `CCFP-` id, and the result is the redirect or alert the reply calls for |
| Funnel.Home.HandleProceedToCheckout | app/page.tsx:1142-1145 | the results close and the checkout opens |
| Funnel.Home.HandleCheckoutComplete | app/page.tsx:1147-1153 | the checkout closes |
| Funnel.Home.HandleCloseAll | app/page.tsx:1155-1162 | every overlay closes and both addresses are cleared |
| Funnel.Home.HandleBackToHome | app/page.tsx:1164-1166 | the results close |
| Funnel.RiskLevel | app/page.tsx:485-486 | the badge level is one the style table knows, and it is `low` exactly when no violation is rated high or moderate |
| Funnel.RiskLevelIsMaxSeverity | app/page.tsx:485-486 | the badge level ranks at least every violation's severity, and for a non-empty list it equals one of them |
| Funnel.PreviewNeverLow | app/page.tsx:484-487 | a non-empty preview of catalogue violations is never rated low, so its badge reads High Risk or Moderate Risk |
| Funnel.DigitPrefix | app/page.tsx:171 | the longest prefix of decimal digits, stopping at the first non-digit |
| Funnel.ParseIntOfDigits | app/page.tsx:171 | `parseInt` (`Funnel.ParseInt`): `parseInt` of a non-empty string of digits is the number those digits spell |
| Funnel.ParseIntOfDecimal | app/page.tsx:171 | `parseInt` reads back the decimal text of any integer, negative ones included |
| Funnel.Cap | app/page.tsx:183-184 | a number is clamped into [15000, 250000] and kept if already inside; `NaN` stays `NaN` |
| Funnel.RoundTenthsMonotone | app/page.tsx:177-178 | for a non-negative count the low estimate is non-negative and at most the high one; for a negative count both are at most 0 |
| Funnel.ExposureOfCount | app/page.tsx:177-184 | for any count both ends of the estimate lie in [15000, 250000] with low ≤ high |
| Funnel.ExposureBounds | app/page.tsx:177-184 | the displayed range (`Funnel.Exposure`): empty input shows 15000 at both ends; numeric input gives both ends in [15000, 250000] with low ≤ high; unreadable input gives `NaN` at both ends |
| Funnel.RiskCalculator.constructor | app/page.tsx:167-168 | the calculator starts empty and not calculated |
| Funnel.RiskCalculator.SetTransactions | app/page.tsx:167 | typing replaces the count and keeps the calculated flag |
| Funnel.RiskCalculator.CalculateRisk | app/page.tsx:170-175 | the estimate becomes shown exactly when it already was or `parseInt` of the count is positive |
| Funnel.Remove | app/page.tsx:980 | filtering drops every copy of the index, keeps every other index, and never grows the list |
| Funnel.ToggleFlipsOnlyIndex | app/page.tsx:978-984 | `toggleItem` (`Funnel.Toggle`): toggling flips whether the index is open and leaves every other index as it was |
| Funnel.ToggleTwice | app/page.tsx:978-984 | toggling the same item twice restores which items are open |
| Funnel.RemoveKeepsDistinct | app/page.tsx:980 | filtering keeps a list free of repeats |
| Funnel.ToggleKeepsDistinct | app/page.tsx:978-984 | the open list never holds an index twice |
| Funnel.Faq.constructor | app/page.tsx:937 | no item starts open |
| Funnel.Faq.ToggleItem | app/page.tsx:978-984 | the open list becomes the toggle of the old one |
| Funnel.NextRemaining | app/page.tsx:459-462 | at or below 5 the counter holds; above 5 it drops by at most one and never below 5 |
| Funnel.RemainingStaysInRange | app/page.tsx:453-466 | from the configured 23, the counter stays between 5 and 23 whatever the draws |
| Funnel.ScarcityTimer.constructor | app/page.tsx:454 | the counter starts at the configured current count |
| Funnel.ScarcityTimer.Tick | app/page.tsx:458-462 | a tick applies one counter step |
| Funnel.StatusClimbsThenHolds | app/page.tsx:83-91 | after `n` ticks the status line is `min(n, 8)` |
| Funnel.ScanSimulation.constructor | app/page.tsx:34 | the status starts at the first line |
| Funnel.ScanSimulation.Tick | app/page.tsx:83-91 | a tick applies one status step |

## Left out

- Rendering (JSX markup, Tailwind classes, Framer Motion animation) and the static marketing sections of `app/page.tsx` hold no logic beyond what is modelled.
- The scan simulation's progress bar uses floating point; only its status ticker is modelled. The Enter key and the full progress bar each queue an `onComplete` call that is never cancelled; each call is a `ScanComplete` event, which may arrive at any time after a scan has started until the page reloads.
- The interval and timeout scheduling of the carousel, scarcity counter and status ticker is not modelled; each firing is one `Tick`.
- Puppeteer rendering, `fs` reads and writes, and `process.cwd()`: the template text, the renderer's success, whether the browser closes, whether the reports directory can be listed, and the directory itself are inputs, and the directory is a map from names to modification times.
- `path.join` normalisation: the report path is the directory, `/`, and the file name.
- The Stripe SDK is opaque: the session is created, or the event is verified, by functions passed in, so signature checking itself is not modelled.
- The checkout route's `GET` handler only returns a fixed status message and is not modelled.
- The routes outside the core (reports download, checkout-session lookup, the debug checkout) are not part of this model.
- JSON numbers are integers here. `Math.round(parseInt(x) * 0.1)` is modelled as exact tenths rounding half up, so binary floating-point error in `0.1` and `0.3` is not captured.
- `parseInt` is modelled in base 10 only; the `0x` hexadecimal prefix it also accepts is not.
- `toUpperCase` is modelled for ASCII letters only.
- Property access ignores keys inherited from the prototype (`getRiskLevelStyle('toString')` would return a function in JavaScript).
- The `URL` constructor is an opaque parser that reports a protocol or fails.
- The lead form's `required` fields are modelled as non-empty; the browser's e-mail format check is not.
- The exact wording of V8's `TypeError` messages for a `null` body is taken as given.
- The overlays are modelled as covering the page: while one is open, the address field and scan button cannot be used.
- `localStorage` and `window.location` changes are outcomes (`Redirect`), not state.
- Console logging is left out, except for the webhook's notes, which are its only effect.
- Concurrent or overlapping async handlers (a second click before `fetch` settles) are not modelled.
- Funnel.Home.HandleLeadCapture: the simulated save (`await` of a one-second timeout, app/page.tsx:1089) is taken as one step with the step change. In the source the lead form (app/page.tsx:690-757) stays editable during that second, so a lead cleared after submitting can still reach step 3 and be posted by the cleanup offer; the model's "step 3 only with a complete lead" (`Funnel.Inv`, `Funnel.ReachableFromInit`) holds only for a save that is not interleaved with edits. The same wait also admits a late scan completion, which sends the step to 1, after which the resumed handler (app/page.tsx:1091) sends it from 1 straight to 3; `Funnel.StepAdvancesInOrder` describes the one-step save only.
- The development-only sweep that runs on module load is not modelled.
- Funnel.Home.constructor: requires the random draw to lie in [0, 90000), as `Math.floor(Math.random() * 90000)` does.
- Funnel.Home.HandleScanStart: states its effect as `StartScan` rather than `Next` on the scan-start event; `Funnel.NextOnScanStart` proves the two are the same.
- Retention.CleanupOldReports: does not state which entries were visited before the one that threw, because the directory listing comes in an unspecified order; the contract holds for every order.
- ReportTemplate.GenerateComplianceReport: creating the reports directory is taken to succeed; a `mkdirSync` failure (app/utils/pdfGenerator.ts:20), which the catch would report as the generic failure, is not modelled.
- CheckoutRoute.Post: the provider fails with an `Error` and its message; a thrown non-`Error` value, which the route reports with details `Unknown error` (app/api/stripe/checkout/route.ts:101), is not modelled.
