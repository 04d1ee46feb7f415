# Stock watchdog: collateral-alert decision pipeline

This project is a Dafny model of the part of the stock watchdog service (`main.py`) that decides when to notify and whom to notify.
The service watches a few instruments that are pledged as loan collateral. For each instrument it computes a
*security cover*: the collateral value divided by the outstanding loan. It emails subscribed recipients when the
cover falls below the instrument's threshold.

The model covers the three stages of that pipeline:

- **Fetch** (`PriceMonitor`).
  - `get_stock_data` derives a price snapshot from one market-data reply. The reply has an info dictionary, daily
    closes and intraday bars.
  - On success the snapshot is written to an in-memory cache. On failure the cached snapshot is served in its place.
    With nothing cached, the error is raised.
  - `check_multiple_stocks` fetches every instrument and merges the outcomes into one symbol → snapshot map.
- **Decide** (`Coverage`, `Watchdog`).
  - The breach predicate is `cover < threshold`. A snapshot without a cover is read as 999.
  - The per-recipient planner of `_check_all_stocks` selects the recipient's snapshots and computes whether any is
    breached. It decides whether a scheduled report or a threat scan sends, and under which subject.
  - The manual alert of `trigger_manual_alert` and the two read-only query routes are modelled too.
- **Dispatch** (`EmailService`).
  - `format_grouped_alert` becomes a list of per-instrument blocks.
  - `send_alert` and `_send_smtp_email` become a pure description of the SMTP submission: the headers, and an
    envelope that holds the bcc addresses the headers leave out.

Everything is a pure function over immutable datatypes. The cache is an explicit `Monitor` value that each fetch
receives and returns. These outside inputs become parameters:

- the market-data provider: a `ProviderReply` per instrument;
- the mail transport: a `transportOk` flag per message;
- the clock: a `now` string.

A pipeline run returns the payloads to send rather than sending them. `DispatchAll` is the separate dispatcher.

Modules: `Wrappers` (Option/Result), `Numeric` (two-decimal rounding, guarded percentages), `Sequences` (first match,
filter-map), `Configs`, `PriceMonitor`, `Coverage`, `EmailService`, `Watchdog`.

### Behaviour worth knowing

- **Zero loan.** With no positive loan outstanding, the stored cover is `0.0` (main.py:184-186). Because the breach
  test is `cover < threshold`, such an instrument is *breached* for every positive threshold
  (`Coverage.ZeroLoanBreachesPositiveThreshold`).
- **Rounded cover.** The breach test reads the cover after it has been rounded to two decimals (main.py:203, 289). So
  a ratio of 1.696 against a threshold of 1.7 is not a breach (`Coverage.RoundedCoverCanHideBreach`). For this
  reason `round(x, 2)` is modelled (`Numeric.Round2`, round half to even) rather than abstracted away.
- **Previous close.** With two or more daily bars, "previous close" is the *last* daily bar and "yesterday close" is
  the one before it (main.py:168-170). The info dictionary's `previousClose` is used only with fewer bars.
- **Null previous close.** If `previousClose` is present but null and there are fewer than two daily bars, the
  subtraction at main.py:173 raises. The model reports this as the fetch error `MissingPreviousClose`, which then
  falls back to the cache like any other failure.
- **Fetch order.** `get_stock_data` never yields inside its body, so `asyncio.gather` runs the fetches one after the
  other in configuration order. For a repeated symbol, the later fetch sees the cache the earlier one left.
  `FetchInOrder` folds the fetches in exactly that order.

## Model

| member | source | states |
|---|---|---|
| Configs.NewSenderConfig | main.py:32-40 | TLS is on unless explicitly turned off; the other fields are kept as given |
| Configs.NewRecipientConfig | main.py:43-62 | given fields are kept; absent cc/bcc become empty lists and an absent name the empty string; a preference reads as enabled unless it is present and false, and with no preference map at all every preference is on |
| Configs.FindStock | main.py:283-287 | the first instrument whose symbol equals the given one exactly, and None exactly when no instrument carries it |
| Configs.FindStockIgnoringCase | main.py:370-372 | the first instrument whose upper-cased symbol equals the upper-cased query, and None exactly when none matches |
| Configs.ExactMatchFoundIgnoringCase | main.py:397-399 | if some instrument carries the queried symbol exactly, the case-insensitive lookup finds an instrument |
| Numeric.Round2 | main.py:189-203 | the result is a whole number of cents within half a cent of its argument |
| Numeric.Round2KeepsCents | main.py:189-203 | a value that is already a whole number of cents is unchanged by rounding |
| Numeric.Percent | main.py:174 | `delta / base * 100` when the base is non-zero (result × base = delta × 100), and 0 for a zero base |
| Numeric.Truncate | main.py:162 | `int()` truncates toward zero: a non-negative argument lies in [r, r + 1) and a negative one in (r - 1, r] |
| PriceMonitor.CoverRatio | main.py:184-186 | cover × loan = quantity factor × price when the loan is positive, and the cover is exactly 0 otherwise |
| PriceMonitor.InfoPrice | main.py:156-158 | `currentPrice or previousClose`: the current price when it is truthy, else a truthy previous close, else nothing |
| PriceMonitor.DeriveSnapshot | main.py:155-204 | no usable price (intraday close, else truthy `currentPrice`, else truthy `previousClose`) gives `NoPriceData`; a null previous close with fewer than 2 daily bars gives `MissingPreviousClose`; otherwise price and cover are the rounded quoted price and rounded ratio; with at least 2 daily bars previous/yesterday close are the last two bars, with fewer both are the info `previousClose` (the price when that key is absent); change and change percent are taken against that previous close; the prior-day change is 0 unless there are at least 3 bars; each percentage is guarded against a zero base; volume is the truncated intraday volume, else the info volume (0 when absent); the static fields are the info values |
| PriceMonitor.Attempt | main.py:146-204 | a provider failure is reported as `ProviderFailed` and only then; a derived snapshot carries the instrument's symbol and the fetch time |
| PriceMonitor.Settle | main.py:206-215 | success overwrites that symbol's cache entry and update time and returns the new snapshot; failure with a cached entry returns it and leaves the monitor unchanged; failure without one yields the error |
| PriceMonitor.GetStockData | main.py:144-215 | fresh exactly when the provider reply derives a snapshot, which is then cached under the instrument's symbol only; stale exactly when the fetch fails and the symbol is cached, returning the cached snapshot; failed otherwise with the derivation's error; a well-keyed cache stays well keyed |
| PriceMonitor.Attempts | main.py:218 | one attempt per instrument in order, each successful one carrying its instrument's symbol |
| PriceMonitor.FetchResultsFollowAttempts | main.py:218-219 | each result of a batch is fresh exactly when its own attempt succeeded, and then carries that attempt's snapshot |
| PriceMonitor.FetchSeesEarlierWrites | main.py:206-219 | the fetches of a batch run in configuration order: a failed fetch is served from the cache exactly when its symbol was cached before the batch or written by an earlier success in the same batch |
| PriceMonitor.FetchWritesOnlySuccesses | main.py:206-208 | after a batch the cache keys are the old keys plus the symbols of the successful attempts, and every entry no success wrote is unchanged |
| PriceMonitor.FetchResultsAgreeWithCache | main.py:217-219 | every result that carries a snapshot has its symbol cached afterwards, and the last such result per symbol equals the final cache entry |
| PriceMonitor.FetchKeepsCacheWellKeyed | main.py:206 | a batch of fetches keeps every cached snapshot filed under its own symbol |
| PriceMonitor.MergeKeys | main.py:221-231 | the merged map's keys are exactly the configured symbols that are in the cache |
| PriceMonitor.MergeValuesPrefix | main.py:221-231 | after merging a prefix, each merged entry is the cache entry or its symbol recurs later in the configuration |
| PriceMonitor.MergeIsCacheRestriction | main.py:221-232 | the merged map is the cache restricted to the configured symbols |
| PriceMonitor.SettleBatch | main.py:217-232 | a symbol is in the result exactly when it is configured and either its fetch succeeded or it was already cached; every result entry equals the final cache; one instrument's failure removes no other entry |
| PriceMonitor.CheckMultipleStocks | main.py:217-232 | the same stated over the provider replies: keys are configured symbols that succeeded or were cached, failed-and-uncached symbols are absent, and an entry whose fetch did not succeed is the previously cached snapshot |
| Coverage.BreachIsStrict | main.py:289 | a cover equal to the threshold is not a breach; a snapshot without a cover breaches only thresholds above 999 |
| Coverage.LowerCoverStaysBreached | main.py:289 | the one breach predicate used by the report, the manual alert and the planner (main.py:415, 492) is monotone: a breach persists when the cover falls or the threshold rises |
| Coverage.ZeroLoanBreachesPositiveThreshold | main.py:184-186 | with no positive loan the stored cover is 0.0 and every positive threshold is breached |
| Coverage.RoundedCoverCanHideBreach | main.py:203 | a ratio of 1.696 is stored as 1.7 and does not breach a threshold of 1.7 |
| Coverage.BreachExample | main.py:184-203 | 1,000,000 units against a 4,000,000 loan: price 5.50 stores cover 1.38 and breaches 1.5, price 7.00 stores 1.75 and does not |
| EmailService.BlockFor | main.py:283-289 | a block exists exactly when the snapshot's symbol is configured, and it carries that symbol, the strict breach flag, the required and current cover and both changes |
| EmailService.RenderBlock | main.py:289-312 | the breach flag is the strict breach test; red header style, bold red cover style and the "ATTENTION: " header exactly on a breach, "Update for " otherwise; sign `+` and colour green exactly when a change is ≥ 0; prices, changes and covers carried from the snapshot and the configuration, a missing cover shown as 0 |
| EmailService.MissingCoverShownAsZeroButNotFlagged | main.py:289-306 | a snapshot without a cover is printed with cover 0 yet tested as 999, so under any threshold up to 999 it is shown below the requirement but not flagged |
| EmailService.FormatGroupedAlert | main.py:280-312 | one block per snapshot at most, each rendered from a snapshot with a configured symbol; the sign is `+` exactly when the change is ≥ 0; the red header style exactly on a breach; no configured snapshot gives no blocks |
| EmailService.FormatKeepsInputOrder | main.py:283 | reporting a concatenation of snapshot lists concatenates the block lists, so blocks follow input order |
| EmailService.FormatKeepsConfigured | main.py:283-287 | when every snapshot is configured there is exactly one block per snapshot, in order, rendered from its instrument |
| EmailService.SingleInstrumentReport | main.py:419 | a report on one snapshot of its own instrument has exactly one block, rendered from that instrument |
| EmailService.JoinContainsEach | main.py:253-254 | every address of the cc list occurs in the joined Cc header |
| EmailService.ComposeMessage | main.py:247-259 | To is the recipient, the subject and body are as given, a Cc header exists exactly when the cc list is non-empty and contains every cc address |
| EmailService.EnvelopeHoldsExactlyTheAddresses | main.py:270-272 | the SMTP envelope holds exactly the recipient, the cc and the bcc addresses |
| EmailService.HeadersIgnoreBcc | main.py:247-256 | the composed headers are the same whatever the bcc list holds |
| EmailService.SendAlert | main.py:242-278 | nothing is attempted exactly when the password is empty; otherwise one submission of the composed message to the full envelope, with STARTTLS exactly when TLS is configured, delivered exactly when the transport succeeds |
| EmailService.DispatchAll | main.py:261-266 | every message gets its own delivery, which depends only on that message and its own transport outcome |
| Watchdog.SelectSnapshots | main.py:479-485 | the snapshots of the subscribed symbols present in the fetched map; every present subscription is included, nothing else is, and the list is empty exactly when no subscription was fetched |
| Watchdog.SelectKeepsSubscriptionOrder | main.py:480-482 | selection distributes over concatenated subscription lists, so it follows subscription order |
| Watchdog.AnyBreach | main.py:487-494 | true exactly when some snapshot of the list is breached under its (first exactly matching) instrument |
| Watchdog.SelectionBreachComesFromSubscription | main.py:479-494 | a breached snapshot in a recipient's selection comes from a breached fetched subscription |
| Watchdog.SubscriptionBreachReachesSelection | main.py:479-494 | a breached fetched subscription makes the recipient's selection breached |
| Watchdog.SelectionBreachedIffSubscriptionBreached | main.py:479-494 | the selection is breached exactly when one of the recipient's fetched subscriptions is |
| Watchdog.PlanRecipient | main.py:469-507 | a payload exists exactly when some subscription was fetched and either the run is scheduled, not threat-only and the recipient takes scheduled reports, or the run is threat-only, the recipient takes threat alerts and a subscription is breached; it carries the selection, the breach flag, the escalated or normal subject (prefixed on scheduled runs) and the grouped report |
| Watchdog.ScheduledRunAlwaysSends | main.py:472-502 | a scheduled run sends exactly to recipients with scheduled reports on and a fetched subscription, with or without a breach, under "Scheduled Report - BOT ALERT!" or "Scheduled Report - Stock Update" |
| Watchdog.ThreatScanSendsOnlyOnBreach | main.py:472-500 | a threat scan sends exactly to recipients with threat alerts on and a breached subscription, always under "BOT ALERT!" |
| Watchdog.ScheduledThreatRunSendsOnlyOnBreach | main.py:472-502 | a run that is both scheduled and threat-only sends only on a breach, under "Scheduled Report - BOT ALERT!" |
| Watchdog.PipelineSubjectShape | main.py:500-502 | a pipeline subject starts with "Scheduled Report - " exactly on a scheduled run and ends with "BOT ALERT!" exactly on a breach |
| Watchdog.Plan | main.py:469-507 | every payload is some recipient's plan, and every recipient whose plan sends has its payload in the list |
| Watchdog.PlanKeepsRecipientOrder | main.py:469 | planning distributes over concatenated recipient lists, so payloads follow recipient order |
| Watchdog.CheckAllStocks | main.py:456-519 | no instruments or no recipients: nothing is fetched or sent and the monitor is unchanged; otherwise the fetched map is `check_multiple_stocks`'s result: its keys are the configured symbols that succeeded or were cached, an entry whose fetch did not succeed is the previously cached snapshot, the last successful fetch of a symbol supplies its entry, the cache gains exactly the succeeded symbols, and every recipient is planned against that one map |
| Watchdog.ScheduledCheck | main.py:450-451 | the pipeline run with the scheduled flag: the fetched map's keys are the configured symbols that succeeded or were cached; every payload goes to a recipient with scheduled reports on and a fetched subscription, carries that recipient's selection, is flagged exactly when a subscription is breached and has the scheduled subject for that flag; every such recipient gets one; nothing is sent without instruments or recipients |
| Watchdog.ThreatCheck | main.py:453-454 | the pipeline run with the threat-only flag: the fetched map's keys are the configured symbols that succeeded or were cached; every payload goes to a recipient with threat alerts on and a breached subscription, carries that recipient's selection, under "BOT ALERT!"; every such recipient gets one; nothing is sent without instruments or recipients |
| Watchdog.DispatchPlan | main.py:504-507 | dispatching a planned run gives one delivery per payload, in order; every recipient the plan reaches gets the delivery of its own payload, and with a password every delivery is addressed to a planned recipient |
| Watchdog.ManualRecipients | main.py:408-411 | exactly the recipients whose subscription list contains the upper-cased symbol and who take manual alerts |
| Watchdog.TriggerManualAlert | main.py:395-427 | not in the watchlist exactly when the case-insensitive lookup fails, with the cache untouched; otherwise the fetch updates the cache even when nobody is notified; fetch failure, no recipients and sent are told apart; a sent alert goes to the manual recipients under "BOT ALERT!: SYM" on a breach and "Manual Stock Update: SYM" otherwise, with the one-instrument report |
| Watchdog.ManualReportHasOneBlock | main.py:419 | from a well-keyed cache a sent manual alert's report has exactly one block, for the looked-up instrument |
| Watchdog.DispatchManual | main.py:421-422 | a sent manual alert gives each notified recipient one delivery, addressed to them, with the alert's subject and report, delivered exactly when the transport succeeds; any other outcome sends nothing |
| Watchdog.GetStockPrice | main.py:368-381 | not found exactly when the case-insensitive lookup fails, with the monitor unchanged; otherwise the answer is the fetch's snapshot (fresh or cached) or its failure |
| Watchdog.GetAllMonitoredStocks | main.py:383-393 | no instruments gives an empty map and an unchanged monitor; otherwise the result and the updated monitor are those of `check_multiple_stocks`: keys are the configured symbols that succeeded or were cached, a non-succeeded entry is the cached one, the last successful fetch supplies a symbol's entry, and the cache gains exactly the succeeded symbols |

## Left out

- Configuration loading (`ConfigManager`, main.py:65-136): reading and writing `config.json` and the environment-variable password lookup are file and environment I/O. Configurations are inputs, built by `NewSenderConfig` and `NewRecipientConfig`.
- `validate_smtp.py`: it only loads JSON and opens SMTP connections; there is no decision logic in it.
- The market-data library, `smtplib` and the FastAPI framing: these are foreign libraries. Provider replies are a `ProviderReply` input. Transport outcomes are a boolean per message. The HTTP routes' 404/500 responses become the `NotFound`/`QueryFailed` and `NotInWatchlist`/`AlertFailed` outcomes, without status codes or message strings.
- `asyncio.gather`, `asyncio.to_thread` and the APScheduler cron and interval jobs (main.py:429-448): these are concurrency and scheduling plumbing. Fetches are folded in configuration order, and recipients are planned in list order. Which trigger fires when is not modelled; only what each trigger computes is.
- The clock: `datetime.now()` is the `now` parameter, used both as the snapshot timestamp and as the update time.
- Floating point: prices and ratios are exact `real`s, and NaN is not modelled. `Numeric.Round2` rounds half to even on the exact value, whereas Python rounds the nearest binary double. The two can differ on decimal ties that are not representable in binary.
- HTML and number formatting: the rendered body is a list of `Block`s with the fields the template interpolates. The `:,.2f` text, the CSS and the document timestamp are left out.
- Logging (main.py:530-541) and the log lines inside the pipeline, such as the CC/BCC summary at main.py:510-517.
- The root route (main.py:364-366), which returns a constant.
- `Configs.Upper`: `str.upper()` is modelled for ASCII letters only.
- Watchdog.DispatchPlan and Watchdog.DispatchManual: the transport outcome is a function of the recipient, so a recipient listed twice gets the same outcome both times; a transport whose failures vary between sends of one run is not modelled.
- Watchdog.CheckAllStocks: the `try`/`except` around the planning loop (main.py:466-519) can only catch an exception raised by the fetch. The fetch never raises out of `check_multiple_stocks`, and `send_alert` catches its own transport errors, so no abort part-way through the recipients is modelled.
