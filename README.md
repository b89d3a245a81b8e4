# Crypto advisor: decision logic in Dafny

This project models the decision logic of a single-page crypto advisor. The advisor shows market data for a cryptocurrency and asks a language model for a buy / sell / hold recommendation. It also lets the user set price alerts. The model covers six parts:

- **Alert store and evaluator** (`Alerts.dfy`). This is the list of price alerts and the queue of triggered-alert notifications (`class AlertStore`):
  - evaluation fires the active alerts of an asset whose condition holds at the new price. It marks each one inactive with a trigger time and pushes it onto a queue of at most five entries, newest first, with no repeated ids;
  - adding, removing and dismissing are the handlers that edit the list and the queue.
- **Rate-limit cooldown** (`Cooldown.dfy`). A gate (`class CooldownGate`) closes for 90 000 ms after an HTTP 429 "Too Many Requests" answer (section 4 of RFC 6585):
  - while it is closed, a ticking countdown shows the whole seconds left, rounded up;
  - the gate reopens when none are left.
- **Market-data client** (`CryptoService.dfy`):
  - suggestions for a typed query: at most 7, with symbols upper-cased;
  - the best search hit: symbol match, then name match, then the first suggestion;
  - refreshing a record from a quote and a price history.
  - Each HTTP exchange is an input value (`Http`), so every answer the server could give is covered. A 429 on the suggestions or the main quote is an error; every other failure degrades silently.
- **Model-reply parser** (`GeminiService.dfy`). This is the classification of the model's reply:
  - a case-insensitive keyword `COMPRAR:` / `VENDER:` / `MANTENER:` selects the kind;
  - the reply is split at the first `---DETALLES_AVANZADOS---` into a summary and a detail;
  - fallbacks cover empty summaries, a missing client and a failed call.
- **Advice renewal rule** (`AdvicePolicy.dfy`). The periodic check asks for new advice when:
  - there is none for the asset;
  - or the price moved more than 10 % since the last advice;
  - or the last advice is more than four hours old.
  - It never does so while the asset lacks fresh data, advice is loading or the model is unavailable.
- **Alert form** (`AlertForm.dfy`). The dialog's submit check rejects, in this order:
  - a target that is not a positive number;
  - a "drops to" target not below the current price;
  - a "rises to" target not above it.
  - Opening the dialog resets it, and so does every change of the displayed asset's price while it is open, discarding what was typed; editing the target clears the error.

`App.dfy` puts these together in `class Dashboard`, the application's state with its handlers:

- the guarded data refresh and the periodic data tick;
- the periodic advice tick and the advice request;
- the suggestion lookup;
- the alert dialog.

Network answers, model replies, clock readings and generated ids are parameters. A timer firing is a call of the matching tick method. `Wrappers.dfy`, `Seqs.dfy`, `JsText.dfy` and `Types.dfy` hold Option/Result, the `Array.prototype.filter`/`find` counterparts, the JavaScript string operations the code relies on (`trim`, `toUpperCase`, `startsWith`, `indexOf`) and the records of `types.ts`.

Modelling choices that matter when reading the contracts:

- **Truthiness.** A timestamp counts as set when it is present and not zero (`Types.IsSet`).
- **Strings.** `trim` strips the full JavaScript whitespace set. Case mapping is ASCII only.
- **Numbers.** Prices are exact `real`s and times are `int` milliseconds. `Math.ceil` and `Math.floor` are written out over integer division.
- **Closure snapshots.** The two periodic ticks run on the state captured when the timer was set up:
  - the data tick tests the cooldown once and does not test it again between assets;
  - both ticks judge every asset on the records, loading flags and advice as they were when the tick started.
- **A failed refresh that counts as fresh.** A refresh of an already-fetched asset whose quote fails without a 429 gets the old record back. That record still carries its old `lastUpdated`, so `updateCryptoData` treats it as fresh. It stores it, evaluates the asset's alerts at the old price and returns it as the refreshed record. `App.Dashboard.Refreshed` states this case explicitly.

## Model

| member | source | states |
|---|---|---|
| Alerts.PushTriggered | App.tsx:187-191 | a notification whose id is already queued leaves the queue as it is; otherwise the alert comes first, followed by the old queue, cut to at most 5 entries; a queue of at most 5 entries without repeated ids stays so |
| Alerts.EnqueueAll | App.tsx:176-193 | pushing the fired alerts one after another keeps the queue bounded and free of repeated ids; with nothing fired the queue is unchanged |
| Alerts.EvaluationStep | App.tsx:176-193 | one step of the evaluation loop: a firing alert updates the marked list and the queue exactly as marking it and pushing it would; a non-firing alert leaves the fired set as it was |
| Alerts.EvaluationTouchesOnlyFiring | App.tsx:175-186 | evaluation keeps the list's length and order; alerts of other assets and inactive alerts are untouched; an active alert of the asset becomes inactive with its trigger time set, all else unchanged, exactly when "drops to" has price <= target or "rises to" has price >= target |
| Alerts.EvaluationKeepsIds | App.tsx:184-186 | evaluation keeps every alert's id at its position, so distinct ids stay distinct |
| Alerts.TriggeredAlertNeverFiresAgain | App.tsx:175-186 | an alert fired by one evaluation is never fired or changed by any later evaluation, whatever the asset, price or time |
| Alerts.InactiveAlertStaysFrozen | App.tsx:175-186 | over any series of price updates an inactive alert never changes, and ids keep their positions and stay distinct |
| Alerts.AlertStore.CheckAndTriggerAlerts | App.tsx:173-194 | the loop leaves the list as the evaluation of the asset at its price and the queue as the fired alerts pushed in list order; the queue stays bounded and free of repeated ids |
| Alerts.AlertStore.AddAlert | App.tsx:455 | the list gains exactly the new alert at its end, the queue is untouched, and a new id keeps the ids distinct |
| Alerts.AlertStore.RemoveAlert | App.tsx:458 | exactly the alerts with another id remain, in order; the queue is untouched |
| Alerts.AlertStore.DismissTriggeredAlert | App.tsx:459 | exactly the notifications with another id remain, in order; the alert list is untouched |
| Cooldown.CeilDiv | App.tsx:80 | `Math.ceil(n / d)`: the least integer r with n <= r * d |
| Cooldown.TimeLeft | App.tsx:80 | the countdown is 0 exactly when the end time has been reached, and otherwise the whole seconds left, rounded up |
| Cooldown.FreshCooldownShowsFullDuration | App.tsx:68-80 | right after activation the countdown shows 90 seconds |
| Cooldown.TimeLeftNeverIncreases | App.tsx:80 | the countdown never goes up as time passes |
| Cooldown.CooldownGate.Activate | App.tsx:68-71 | the gate closes with end time now + 90 000 ms, including when it was closed already |
| Cooldown.CooldownGate.Tick | App.tsx:76-92 | with a set end time the tick shows the seconds left and reopens the gate, clearing the end time and the text, exactly when now >= end; otherwise it only clears the text |
| CryptoService.FetchSuggestions | cryptoService.ts:21-48 | a trimmed query under 2 characters gives no suggestions; a 429 is the only error; any other failure gives none; a good answer gives its first (at most 7) coins in order with upper-cased symbols |
| CryptoService.BestMatch | cryptoService.ts:55-61 | the first case-insensitive symbol match, else the first name match, else the first suggestion; nothing only for no suggestions |
| CryptoService.SearchCoinGecko | cryptoService.ts:51-68 | a blank query finds nothing; the suggestions' rate-limit error is passed on; otherwise the hit is the `BestMatch` choice among the suggestions (symbol match, then name match, then the first), absent only when there are none |
| CryptoService.MsToSeconds | cryptoService.ts:113 | `Math.floor(ms / 1000)`: the whole seconds at or below the millisecond time |
| CryptoService.ToPriceHistory | cryptoService.ts:112-115 | one point per `[ms, price]` pair, in order, with the price kept and the time floored to seconds |
| CryptoService.HistoryKeepsOrder | cryptoService.ts:112-115 | converting to seconds keeps a chronological history chronological |
| CryptoService.Merged | cryptoService.ts:73-131 | the refreshed record: the new price; each optional figure replaced only when present, else kept; the history replaced (empty when it could not be fetched); stamped now; id, name, symbol and chart symbol kept |
| CryptoService.FetchCryptoDataWithDetails | cryptoService.ts:71-142 | a 429 on the quote is the rate-limit error naming the asset; any other failed quote returns the record unchanged; a good quote returns exactly `Merged` of the record |
| GeminiService.ErrorText | geminiService.ts:133-136 | the failure text starts with the fixed head, names the asset right after it, and ends with the failure's message when there is one |
| GeminiService.Classify | geminiService.ts:96-108 | BUY, SELL and HOLD exactly when the upper-cased reply starts with their keyword, tested in that order, the text after the keyword trimmed; INFO otherwise with the text kept whole |
| GeminiService.SplitAtSeparator | geminiService.ts:110-118 | with no separator the whole text is the summary and there is no detail; otherwise the trimmed text before the first separator and the trimmed text after it |
| GeminiService.ParsedAdvice | geminiService.ts:90-129 | a parsed reply keeps the raw reply and has the kind its keyword announces |
| GeminiService.ClassifyReply | geminiService.ts:92-108 | the keyword if-chain computes the classification above |
| GeminiService.SplitReply | geminiService.ts:110-118 | the separator split computes the split above |
| GeminiService.GetInvestmentAdvice | geminiService.ts:16-141 | without a client the fixed "not available" INFO result; a failed call gives the INFO failure text naming the asset; otherwise the parsed reply |
| GeminiService.BlankReplyClassified | geminiService.ts:92-118 | a blank reply is INFO with an empty body and no detail |
| GeminiService.BlankReplyNotInfoTagged | geminiService.ts:123 | a non-empty blank reply does not start with "INFO:" |
| GeminiService.SummaryEmptyOnlyForBlankReply | geminiService.ts:120-126 | the summary shown is empty exactly when the reply is empty or blank |
| GeminiService.UnrecognisedReplyShownWhole | geminiService.ts:105-118 | a reply without keyword and separator is INFO with the whole trimmed reply as summary and no detail |
| GeminiService.KeywordRecognised | geminiService.ts:96-104 | the keywords differ in their first letter, so a reply starting with one is classified by that one |
| GeminiService.FormattedClassified | geminiService.ts:96-104 | a reply written as keyword, summary, separator line and detail is classified by its keyword with the rest as body |
| GeminiService.FormattedSplit | geminiService.ts:110-114 | such a body splits back into its summary and its detail |
| GeminiService.FormattedReplyRoundTrip | geminiService.ts:90-129 | parsing a well-formed reply gives back exactly its kind, its summary and its detail, with the raw reply |
| GeminiService.FormatExample | geminiService.ts:90-129 | "COMPRAR: buy it", a separator line and "technical stuff" parse as BUY with summary "buy it" and detail "technical stuff" |
| AdvicePolicy.PriceChangeSinceAdvice | App.tsx:294-298 | the move is never negative, is 0 unless both prices are positive, and otherwise times the old price equals 100 times the absolute difference |
| AdvicePolicy.LastAdviceFor | App.tsx:291 | the first advice for the asset in list order (every earlier one is for another asset), absent exactly when there is none |
| AdvicePolicy.AdviceDueWithoutDivision | App.tsx:292-302 | with earlier advice, renewal is due exactly when both prices are positive and ten times the move exceeds the old price, or more than four hours have passed |
| AdvicePolicy.ThresholdsAreStrict | App.tsx:300 | a 10 % move at exactly four hours does not renew advice; one millisecond later it does |
| AdvicePolicy.FirstAdviceAlwaysRequested | App.tsx:290-292 | a fetched asset with no earlier advice always gets advice when the model is available and idle |
| AlertForm.RoundToScale | SetAlertModal.tsx:29-31 | the proposed target is a whole number of units of the last decimal (1/scale) and within half a unit of the current price, halves rounded up: the nearest such number, as `toFixed` gives it |
| AlertForm.ValidateAlert | SetAlertModal.tsx:38-54 | accepted exactly when the target is positive and below (drops to) or above (rises to) the current price, yielding exactly target and condition; each rejection has its error, the positivity check first |
| AlertForm.AcceptedAlertDoesNotFireYet | SetAlertModal.tsx:45-53 | an accepted alert does not fire at the price it was created at |
| AlertForm.UntouchedFormSubmission | SetAlertModal.tsx:26-53 | submitting the form as opened is accepted exactly when the rounded proposal is positive and below the current price |
| AlertForm.AlertFormState.Open | SetAlertModal.tsx:26-36 | the reset, on opening and on every change of the displayed price while open: proposes the rounded current price (nothing for a price not above 0), selects "drops to" and clears the error, discarding earlier input |
| AlertForm.AlertFormState.EditTarget | SetAlertModal.tsx:84-87 | editing replaces the target and clears the error |
| AlertForm.AlertFormState.ChooseCondition | SetAlertModal.tsx:105 | choosing a condition keeps the target and the error |
| AlertForm.AlertFormState.Submit | SetAlertModal.tsx:38-54 | a rejected target sets its error and emits nothing; an accepted one emits the pair; target and condition are kept |
| App.Placeholder | App.tsx:203-208 | the starting record of a new asset: the given name or the id, the given symbol or the upper-cased id, the chart symbol the upper-cased given symbol or id followed by "USD", zero figures, no history, no timestamp |
| App.Dashboard.Refresh | App.tsx:202-226 | a 429 closes the gate and stores nothing; a good quote stores exactly `Merged` of the starting record and evaluates its alerts at the new price; any other answer stores the record it started from, evaluating alerts and returning it only when it already had a timestamp |
| App.Dashboard.UpdateCryptoData | App.tsx:196-227 | while the cooldown is on, returns the stored record (if any) and changes nothing; otherwise refreshes, as `Refresh` states, from the stored record or the placeholder |
| App.Dashboard.DataTick | App.tsx:269-285 | while the cooldown is on nothing changes; otherwise every selected asset with a record and no load in progress whose quote succeeds is stored as exactly `Merged` of its starting record; every other record, including a loading asset's and one whose quote failed, stays as it was, as does the set of tracked assets; the gate closes until now + 90 000 ms exactly when some refreshed asset's quote got a 429, and is otherwise left open |
| App.Dashboard.DataTickStep | App.tsx:274-284 | one asset of the tick: skipped unless it had a record and was not loading; otherwise a good quote stores exactly `Merged` of its starting record and evaluates the asset's alerts at the new price, any other answer leaves the tick's starting record, a failed non-429 answer for a record that already has a timestamp evaluates the alerts at the stored price, and a 429 closes the gate; in every other case the alerts and the notification queue are unchanged; no other record changes |
| App.FetchedAdvice | App.tsx:229-262 | the advice has the given id, asset and time; it is the "disabled" notice without a model, the "no data" notice naming the asset without fresh data or history, otherwise the model's parsed reply or failure text |
| App.Dashboard.FetchAdviceForCrypto | App.tsx:229-263 | the advice list becomes exactly the one `FetchedAdvice` for the asset; the loading flag is cleared when the model was asked |
| App.Dashboard.AskModel | App.tsx:251-262 | the model's answer becomes the only advice, with the loading flag cleared afterwards |
| App.AdviceTickOutcome | App.tsx:287-308 | with no selected asset due under the renewal rule the advice is as it was; otherwise it is exactly one advice, made now, the `FetchedAdvice` of a due asset after which no asset is due |
| App.AdviceTickOutcomeSnoc | App.tsx:288-305 | checking one more asset: if it is due, its advice replaces what the earlier assets left, otherwise that stays |
| App.Dashboard.AdviceTick | App.tsx:287-308 | the loop leaves exactly `AdviceTickOutcome` of the state the tick started from, so a due asset always gets its advice requested and the last due asset's advice is what remains; no loading flag is left set |
| App.Dashboard.RefreshSuggestions | App.tsx:123-151 | outside the cooldown a query of 2 or more trimmed characters shows the suggestions (a 429 closes the gate, keeping its countdown text, and empties them); otherwise they are emptied and hidden with no request; no state other than the suggestions and the gate changes |
| App.Dashboard.OpenAlertModal | App.tsx:446 | the dialog is open for the asset; no other state changes |
| App.Dashboard.CloseAlertModal | App.tsx:447 | the dialog is closed; no other state changes |
| App.Dashboard.SetAlert | App.tsx:448-457 | with the dialog open for an asset, exactly one active, untriggered alert for that asset is appended and the dialog closes; with no dialog open nothing changes; no state other than the dialog and the alert store changes |
| App.Dashboard.ActiveAlertsForCurrentCrypto | App.tsx:461-465 | the listed alerts are exactly the active alerts of the first selected asset; none without a selection |

## Left out

- Network calls, `response.json()` and the language-model call. Their outcomes are parameters (`Http`, `GeminiReply`). A body that cannot be decoded is the same `NetworkError` as a failed request, as every call site treats both alike.
- Prompt construction. It is free text built with `toFixed` and `toLocaleString`.
- Display formatting: `formatPrice`, `formatDisplayPrice` and `formatLastUpdated`.
- The user-facing error and status strings: the global error, the search error, the countdown text and the rate-limit messages split out of the error text.
  - The rate-limit errors are the two `RateLimitError` kinds, and the countdown is its number of seconds.
  - Advice and model failure texts are kept verbatim.
- Timers, debouncing and the mouse-down listener. Each timer firing is a method call that takes `now`. The effect that sets up both periodic timers (App.tsx:265-315) is torn down and set up again whenever the records, the loading flags or the advice change, and every data refresh changes them. So in the running application the two-hour advice timer restarts after each seven-minute data tick and, while data keeps being refreshed, does not fire at all. `App.Dashboard.AdviceTick` models one firing should it happen. It does not claim that periodic renewal is observed.
- Asynchrony. Results that arrive late or overlap are not modelled: each handler runs to completion. So the loading flags a handler sets are clear again when it returns, and they remain only as the guards the ticks test.
- Suggestion re-runs. The suggestion effect depends on a function recreated on every render, so the source re-runs it after every render. The model runs it once per call.
- The alerts' `localStorage` persistence and the start-up check of the API key. The constructor takes whether a key is configured.
- Searching and manual advice: `performSearch`, `handleDirectSearch`, `handleSuggestionClick` and `getManualAdvice`. They are flows over the modelled operations and are not themselves modelled. The same holds for the memoised `currentDisplayAdvice` and `currentAnalyzedCrypto`.
- Floating point. Prices are exact reals. `toFixed` is modelled as exact decimal rounding, and `parseFloat` as the target field already holding a number (`None` for text that is not one). `NaN` and infinities do not arise.
- Unicode case mapping beyond ASCII.
- Id generation (`Date.now()` and `Math.random()`). Ids are parameters. One evaluation reads the clock once, where the source reads it separately for the alert list and for the queue.
- Repeated assets in one data tick. The source filters the active alerts from the list as it was when the tick's closure was made. The model filters from the current list, so the two differ only when one tick refreshes the same asset twice.
- A reply whose `text` is undefined, and a coin without a symbol. In the source these throw inside the call and take its generic failure path.
- The alert lemmas assume distinct alert ids. The source does not check this; its ids are random.
- App.Dashboard.DataTick: states the records the tick stores, not the alert evaluations each refresh performs. `App.Dashboard.Refresh` and `App.Dashboard.DataTickStep` state those for one asset.
- String lengths: JavaScript's `length` counts UTF-16 code units, while the model counts characters. The `.trim().length < 2` tests at cryptoService.ts:22 and App.tsx:124 therefore differ for characters outside the Basic Multilingual Plane: a query of one emoji has length 2 in the source and is sent, but has length 1 in the model and is not.
- App.Dashboard.AdviceTick: states that the loading flags are only ever cleared, not which ones. A request clears the flag of the asset record's own id, which differs from the asset's key only if a record is stored under another id.
- App.Dashboard.ActiveAlertsForCurrentCrypto: states which alerts are listed, not their order. The order is the list's order, through `Seqs.Filter`.
- GeminiService.ParsedAdvice: its own contract states the raw reply and the kind. The summary and detail are stated by `Classify`, `SplitAtSeparator` and the lemmas about them.
