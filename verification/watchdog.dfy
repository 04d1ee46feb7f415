/**
 * The decision core: which recipients a scheduled report, a threat scan or a
 * manual alert reaches, with which snapshots and under which subject, plus the
 * two read-only queries.
 */
module Watchdog {
  import opened Wrappers
  import opened Sequences
  import opened Configs
  import opened PriceMonitor
  import opened Coverage
  import opened EmailService

  /** What one recipient is sent in a pipeline run. */
  datatype Payload = Payload(
    recipient: RecipientConfig,
    subject: string,
    snapshots: seq<Snapshot>,
    anyBreach: bool,
    report: Report)

  /** Looking a symbol up in the fetched map, as a function value. */
  function Lookup(data: map<string, Snapshot>): string -> Option<Snapshot> {
    (symbol: string) => if symbol in data then Some(data[symbol]) else None
  }

  /** The fetched snapshots of the subscribed symbols, in subscription order; unfetched symbols are skipped. */
  function SelectSnapshots(subscribed: seq<string>, data: map<string, Snapshot>): (r: seq<Snapshot>)
    ensures |r| <= |subscribed|
    ensures forall s | s in r :: exists i :: 0 <= i < |subscribed| && subscribed[i] in data && data[subscribed[i]] == s
    ensures forall i | 0 <= i < |subscribed| && subscribed[i] in data :: data[subscribed[i]] in r
    ensures |r| == 0 <==> forall i :: 0 <= i < |subscribed| ==> subscribed[i] !in data
  {
    var r := FilterMap(subscribed, Lookup(data));
    assert |r| > 0 ==> r[0] in r;
    r
  }

  /** Selecting from a concatenated subscription list concatenates the selections. */
  lemma SelectKeepsSubscriptionOrder(a: seq<string>, b: seq<string>, data: map<string, Snapshot>)
    ensures SelectSnapshots(a + b, data) == SelectSnapshots(a, data) + SelectSnapshots(b, data)
  {
    FilterMapAppend(a, b, Lookup(data));
  }

  /** The snapshot's instrument is configured (first exact match) and its cover is breached. */
  predicate BreachedUnder(s: Snapshot, configs: seq<StockConfig>) {
    FindStock(configs, s.symbol).Some? && IsBreached(s, FindStock(configs, s.symbol).value)
  }

  /** Whether any of the snapshots is breached under its instrument's configuration. */
  function AnyBreach(snapshots: seq<Snapshot>, configs: seq<StockConfig>): (b: bool)
    ensures b <==> exists i :: 0 <= i < |snapshots| && BreachedUnder(snapshots[i], configs)
    decreases |snapshots|
  {
    if |snapshots| == 0 then false
    else if BreachedUnder(snapshots[0], configs) then true
    else
      var rest := AnyBreach(snapshots[1..], configs);
      assert forall i :: 1 <= i < |snapshots| ==> snapshots[1..][i - 1] == snapshots[i];
      rest
  }

  /** At least one of the recipient's subscribed symbols was fetched. */
  predicate Resolvable(r: RecipientConfig, data: map<string, Snapshot>) {
    exists i :: 0 <= i < |r.subscribedSymbols| && r.subscribedSymbols[i] in data
  }

  /** At least one of the recipient's fetched subscriptions is breached. */
  predicate HasBreachedSubscription(r: RecipientConfig, data: map<string, Snapshot>, configs: seq<StockConfig>) {
    exists i :: 0 <= i < |r.subscribedSymbols| && r.subscribedSymbols[i] in data &&
      BreachedUnder(data[r.subscribedSymbols[i]], configs)
  }

  /** A breached snapshot in a recipient's selection comes from a breached fetched subscription. */
  lemma SelectionBreachComesFromSubscription(r: RecipientConfig, data: map<string, Snapshot>, configs: seq<StockConfig>)
    requires AnyBreach(SelectSnapshots(r.subscribedSymbols, data), configs)
    ensures HasBreachedSubscription(r, data, configs)
  {
    var selected := SelectSnapshots(r.subscribedSymbols, data);
    var j :| 0 <= j < |selected| && BreachedUnder(selected[j], configs);
    assert selected[j] in selected;
    var i :| 0 <= i < |r.subscribedSymbols| && r.subscribedSymbols[i] in data && data[r.subscribedSymbols[i]] == selected[j];
  }

  /** A breached fetched subscription shows up breached in the recipient's selection. */
  lemma SubscriptionBreachReachesSelection(r: RecipientConfig, data: map<string, Snapshot>, configs: seq<StockConfig>)
    requires HasBreachedSubscription(r, data, configs)
    ensures AnyBreach(SelectSnapshots(r.subscribedSymbols, data), configs)
  {
    var selected := SelectSnapshots(r.subscribedSymbols, data);
    var i :| 0 <= i < |r.subscribedSymbols| && r.subscribedSymbols[i] in data && BreachedUnder(data[r.subscribedSymbols[i]], configs);
    assert data[r.subscribedSymbols[i]] in selected;
    var j :| 0 <= j < |selected| && selected[j] == data[r.subscribedSymbols[i]];
  }

  /** A recipient's selection is breached exactly when one of their fetched subscriptions is. */
  lemma SelectionBreachedIffSubscriptionBreached(r: RecipientConfig, data: map<string, Snapshot>, configs: seq<StockConfig>)
    ensures AnyBreach(SelectSnapshots(r.subscribedSymbols, data), configs) <==> HasBreachedSubscription(r, data, configs)
  {
    if AnyBreach(SelectSnapshots(r.subscribedSymbols, data), configs) {
      SelectionBreachComesFromSubscription(r, data, configs);
    }
    if HasBreachedSubscription(r, data, configs) {
      SubscriptionBreachReachesSelection(r, data, configs);
    }
  }

  /** The subject of a pipeline message: escalated on a breach, prefixed for a scheduled run. */
  function PipelineSubject(isScheduled: bool, anyBreach: bool): string {
    match (isScheduled, anyBreach)
    case (true, true) => "Scheduled Report - BOT ALERT!"
    case (true, false) => "Scheduled Report - Stock Update"
    case (false, true) => "BOT ALERT!"
    case (false, false) => "Stock Update"
  }

  /** A subject carries the scheduled prefix exactly on a scheduled run and ends in the alert tag exactly on a breach. */
  lemma PipelineSubjectShape(isScheduled: bool, anyBreach: bool)
    ensures var subject := PipelineSubject(isScheduled, anyBreach);
      && (isScheduled <==> "Scheduled Report - " <= subject)
      && (anyBreach <==> |subject| >= 10 && subject[|subject| - 10..] == "BOT ALERT!")
  {
  }

  /**
   * The decision for one recipient in a pipeline run (`_check_all_stocks`): a
   * scheduled run sends whenever the recipient takes scheduled reports, a
   * threat-only run sends only when something they follow is breached.
   */
  function PlanRecipient(
    r: RecipientConfig, data: map<string, Snapshot>, configs: seq<StockConfig>, currencySymbol: string,
    isScheduled: bool, threatOnly: bool): (p: Option<Payload>)
    ensures p.Some? <==>
      Resolvable(r, data) &&
      ((isScheduled && !threatOnly && Preference(r, ScheduledReports)) ||
       (threatOnly && Preference(r, ThreatAlerts) && HasBreachedSubscription(r, data, configs)))
    ensures p.Some? ==>
      && p.value.recipient == r
      && p.value.snapshots == SelectSnapshots(r.subscribedSymbols, data)
      && (p.value.anyBreach <==> HasBreachedSubscription(r, data, configs))
      && p.value.subject == PipelineSubject(isScheduled, p.value.anyBreach)
      && p.value.report == FormatGroupedAlert(p.value.snapshots, configs, currencySymbol)
  {
    SelectionBreachedIffSubscriptionBreached(r, data, configs);
    var wantsScheduled := isScheduled && Preference(r, ScheduledReports);
    var wantsThreat := threatOnly && Preference(r, ThreatAlerts);
    if !(wantsScheduled || wantsThreat) then None
    else
      var snapshots := SelectSnapshots(r.subscribedSymbols, data);
      if |snapshots| == 0 then None
      else
        var anyBreach := AnyBreach(snapshots, configs);
        if (wantsScheduled && !threatOnly) || (wantsThreat && anyBreach) then
          Some(Payload(r, PipelineSubject(isScheduled, anyBreach), snapshots, anyBreach,
            FormatGroupedAlert(snapshots, configs, currencySymbol)))
        else None
  }

  /** A scheduled run sends to every recipient who takes scheduled reports and has a fetched subscription, breached or not. */
  lemma ScheduledRunAlwaysSends(r: RecipientConfig, data: map<string, Snapshot>, configs: seq<StockConfig>, currencySymbol: string)
    ensures var p := PlanRecipient(r, data, configs, currencySymbol, true, false);
      && (p.Some? <==> Preference(r, ScheduledReports) && Resolvable(r, data))
      && (p.Some? && HasBreachedSubscription(r, data, configs) ==> p.value.subject == "Scheduled Report - BOT ALERT!")
      && (p.Some? && !HasBreachedSubscription(r, data, configs) ==> p.value.subject == "Scheduled Report - Stock Update")
  {
  }

  /** A threat scan sends only to recipients who take threat alerts and follow a breached instrument: a clean pass is silent. */
  lemma ThreatScanSendsOnlyOnBreach(r: RecipientConfig, data: map<string, Snapshot>, configs: seq<StockConfig>, currencySymbol: string)
    ensures var p := PlanRecipient(r, data, configs, currencySymbol, false, true);
      && (p.Some? <==> Preference(r, ThreatAlerts) && HasBreachedSubscription(r, data, configs))
      && (p.Some? ==> p.value.subject == "BOT ALERT!" && p.value.anyBreach)
  {
    if HasBreachedSubscription(r, data, configs) {
      var i :| 0 <= i < |r.subscribedSymbols| && r.subscribedSymbols[i] in data &&
        BreachedUnder(data[r.subscribedSymbols[i]], configs);
      assert Resolvable(r, data);
    }
  }

  /** A run that is both scheduled and threat-only behaves like a threat scan, under the scheduled subject prefix. */
  lemma ScheduledThreatRunSendsOnlyOnBreach(r: RecipientConfig, data: map<string, Snapshot>, configs: seq<StockConfig>, currencySymbol: string)
    ensures var p := PlanRecipient(r, data, configs, currencySymbol, true, true);
      && (p.Some? <==> Preference(r, ThreatAlerts) && HasBreachedSubscription(r, data, configs))
      && (p.Some? ==> p.value.subject == "Scheduled Report - BOT ALERT!")
  {
    if HasBreachedSubscription(r, data, configs) {
      var i :| 0 <= i < |r.subscribedSymbols| && r.subscribedSymbols[i] in data &&
        BreachedUnder(data[r.subscribedSymbols[i]], configs);
      assert Resolvable(r, data);
    }
  }

  /** `PlanRecipient` as a function value over recipients. */
  function Planner(
    data: map<string, Snapshot>, configs: seq<StockConfig>, currencySymbol: string,
    isScheduled: bool, threatOnly: bool): RecipientConfig -> Option<Payload>
  {
    (r: RecipientConfig) => PlanRecipient(r, data, configs, currencySymbol, isScheduled, threatOnly)
  }

  /** The payloads of a pipeline run, one per recipient the run reaches, in recipient order. */
  function Plan(
    recipients: seq<RecipientConfig>, data: map<string, Snapshot>, configs: seq<StockConfig>,
    currencySymbol: string, isScheduled: bool, threatOnly: bool): (ps: seq<Payload>)
    ensures |ps| <= |recipients|
    ensures forall p | p in ps ::
      exists i :: 0 <= i < |recipients| && PlanRecipient(recipients[i], data, configs, currencySymbol, isScheduled, threatOnly) == Some(p)
    ensures forall i | 0 <= i < |recipients| && PlanRecipient(recipients[i], data, configs, currencySymbol, isScheduled, threatOnly).Some? ::
      PlanRecipient(recipients[i], data, configs, currencySymbol, isScheduled, threatOnly).value in ps
  {
    FilterMap(recipients, Planner(data, configs, currencySymbol, isScheduled, threatOnly))
  }

  /** Planning a concatenated recipient list concatenates the plans. */
  lemma PlanKeepsRecipientOrder(
    a: seq<RecipientConfig>, b: seq<RecipientConfig>, data: map<string, Snapshot>, configs: seq<StockConfig>,
    currencySymbol: string, isScheduled: bool, threatOnly: bool)
    ensures Plan(a + b, data, configs, currencySymbol, isScheduled, threatOnly) ==
      Plan(a, data, configs, currencySymbol, isScheduled, threatOnly) + Plan(b, data, configs, currencySymbol, isScheduled, threatOnly)
  {
    FilterMapAppend(a, b, Planner(data, configs, currencySymbol, isScheduled, threatOnly));
  }

  /** One pipeline run: the monitor after fetching, the fetched map, and the payloads to send. */
  datatype CheckRun = CheckRun(monitor: Monitor, data: map<string, Snapshot>, payloads: seq<Payload>)

  /**
   * `_check_all_stocks`: with no instruments or no recipients nothing is
   * fetched or sent; otherwise fetch every instrument once and plan every
   * recipient against that one map.
   */
  function CheckAllStocks(
    m: Monitor, configs: seq<StockConfig>, recipients: seq<RecipientConfig>, currencySymbol: string,
    isScheduled: bool, threatOnly: bool, replies: seq<ProviderReply>, now: string): (run: CheckRun)
    requires |replies| == |configs|
    ensures |configs| == 0 || |recipients| == 0 ==> run == CheckRun(m, map[], [])
    ensures |configs| > 0 && |recipients| > 0 ==>
      && run.data.Keys == Symbols(configs) * (m.cache.Keys + Succeeded(configs, replies, now))
      && (forall k | k in run.data :: k in run.monitor.cache && run.data[k] == run.monitor.cache[k])
      && (forall k | k in run.data && k !in Succeeded(configs, replies, now) :: run.data[k] == m.cache[k])
      && (forall i | 0 <= i < |configs| && LastOccurrence(configs, i) && Attempt(configs[i], replies[i], now).Ok? ::
            configs[i].symbol in run.data && run.data[configs[i].symbol] == Attempt(configs[i], replies[i], now).value)
      && run.monitor.cache.Keys == m.cache.Keys + Succeeded(configs, replies, now)
      && (forall k | k in m.cache && k !in Succeeded(configs, replies, now) :: run.monitor.cache[k] == m.cache[k])
      && (run.data, run.monitor) == CheckMultipleStocks(m, configs, replies, now)
      && run.payloads == Plan(recipients, run.data, configs, currencySymbol, isScheduled, threatOnly)
    ensures WellKeyed(m) ==> WellKeyed(run.monitor)
  {
    if |configs| == 0 || |recipients| == 0 then CheckRun(m, map[], [])
    else
      var fetched := CheckMultipleStocks(m, configs, replies, now);
      CheckRun(fetched.1, fetched.0, Plan(recipients, fetched.0, configs, currencySymbol, isScheduled, threatOnly))
  }

  /**
   * `_scheduled_check`: every recipient who takes scheduled reports and has a
   * fetched subscription is sent a report, escalated when something is breached.
   */
  function ScheduledCheck(
    m: Monitor, configs: seq<StockConfig>, recipients: seq<RecipientConfig>, currencySymbol: string,
    replies: seq<ProviderReply>, now: string): (run: CheckRun)
    requires |replies| == |configs|
    ensures run == CheckAllStocks(m, configs, recipients, currencySymbol, true, false, replies, now)
    ensures |configs| == 0 || |recipients| == 0 ==> run.payloads == [] && run.monitor == m
    ensures |configs| > 0 && |recipients| > 0 ==>
      run.data.Keys == Symbols(configs) * (m.cache.Keys + Succeeded(configs, replies, now))
    ensures forall p | p in run.payloads ::
      && Preference(p.recipient, ScheduledReports)
      && Resolvable(p.recipient, run.data)
      && p.snapshots == SelectSnapshots(p.recipient.subscribedSymbols, run.data)
      && (p.anyBreach <==> HasBreachedSubscription(p.recipient, run.data, configs))
      && p.subject == (if p.anyBreach then "Scheduled Report - BOT ALERT!" else "Scheduled Report - Stock Update")
    ensures forall i | 0 <= i < |recipients| && Preference(recipients[i], ScheduledReports) && Resolvable(recipients[i], run.data) ::
      exists p :: p in run.payloads && p.recipient == recipients[i]
  {
    var run := CheckAllStocks(m, configs, recipients, currencySymbol, true, false, replies, now);
    forall p | p in run.payloads
      ensures Preference(p.recipient, ScheduledReports) && Resolvable(p.recipient, run.data)
      ensures p.snapshots == SelectSnapshots(p.recipient.subscribedSymbols, run.data)
      ensures p.anyBreach <==> HasBreachedSubscription(p.recipient, run.data, configs)
      ensures p.subject == (if p.anyBreach then "Scheduled Report - BOT ALERT!" else "Scheduled Report - Stock Update")
    {
      var i :| 0 <= i < |recipients| && PlanRecipient(recipients[i], run.data, configs, currencySymbol, true, false) == Some(p);
      ScheduledRunAlwaysSends(recipients[i], run.data, configs, currencySymbol);
    }
    forall i | 0 <= i < |recipients| && Preference(recipients[i], ScheduledReports) && Resolvable(recipients[i], run.data)
      ensures exists p :: p in run.payloads && p.recipient == recipients[i]
    {
      ScheduledRunAlwaysSends(recipients[i], run.data, configs, currencySymbol);
      var p := PlanRecipient(recipients[i], run.data, configs, currencySymbol, true, false).value;
      assert p in run.payloads && p.recipient == recipients[i];
    }
    run
  }

  /**
   * `_continuous_threat_check`: only recipients who take threat alerts and
   * follow a breached instrument are sent anything, always under the alert subject.
   */
  function ThreatCheck(
    m: Monitor, configs: seq<StockConfig>, recipients: seq<RecipientConfig>, currencySymbol: string,
    replies: seq<ProviderReply>, now: string): (run: CheckRun)
    requires |replies| == |configs|
    ensures run == CheckAllStocks(m, configs, recipients, currencySymbol, false, true, replies, now)
    ensures |configs| == 0 || |recipients| == 0 ==> run.payloads == [] && run.monitor == m
    ensures |configs| > 0 && |recipients| > 0 ==>
      run.data.Keys == Symbols(configs) * (m.cache.Keys + Succeeded(configs, replies, now))
    ensures forall p | p in run.payloads ::
      && Preference(p.recipient, ThreatAlerts)
      && HasBreachedSubscription(p.recipient, run.data, configs)
      && p.snapshots == SelectSnapshots(p.recipient.subscribedSymbols, run.data)
      && p.anyBreach && p.subject == "BOT ALERT!"
    ensures forall i | 0 <= i < |recipients| && Preference(recipients[i], ThreatAlerts) &&
      HasBreachedSubscription(recipients[i], run.data, configs) ::
      exists p :: p in run.payloads && p.recipient == recipients[i]
  {
    var run := CheckAllStocks(m, configs, recipients, currencySymbol, false, true, replies, now);
    forall p | p in run.payloads
      ensures Preference(p.recipient, ThreatAlerts) && HasBreachedSubscription(p.recipient, run.data, configs)
      ensures p.snapshots == SelectSnapshots(p.recipient.subscribedSymbols, run.data)
      ensures p.anyBreach && p.subject == "BOT ALERT!"
    {
      var i :| 0 <= i < |recipients| && PlanRecipient(recipients[i], run.data, configs, currencySymbol, false, true) == Some(p);
      ThreatScanSendsOnlyOnBreach(recipients[i], run.data, configs, currencySymbol);
    }
    forall i | 0 <= i < |recipients| && Preference(recipients[i], ThreatAlerts) && HasBreachedSubscription(recipients[i], run.data, configs)
      ensures exists p :: p in run.payloads && p.recipient == recipients[i]
    {
      ThreatScanSendsOnlyOnBreach(recipients[i], run.data, configs, currencySymbol);
      var p := PlanRecipient(recipients[i], run.data, configs, currencySymbol, false, true).value;
      assert p in run.payloads && p.recipient == recipients[i];
    }
    run
  }

  /** The messages a run hands to the dispatcher, one per payload in the same order. */
  function Outgoings(payloads: seq<Payload>): (out: seq<Outgoing>)
    ensures |out| == |payloads|
    ensures forall i | 0 <= i < |payloads| ::
      out[i] == Outgoing(payloads[i].recipient, payloads[i].subject, payloads[i].report)
  {
    seq(|payloads|, i requires 0 <= i < |payloads| => Outgoing(payloads[i].recipient, payloads[i].subject, payloads[i].report))
  }

  /** Choosing a recipient for a manual alert on `upper`, as a function value. */
  function ManualFilter(upper: string): RecipientConfig -> Option<RecipientConfig> {
    (r: RecipientConfig) => if upper in r.subscribedSymbols && Preference(r, ManualAlerts) then Some(r) else None
  }

  /** The recipients a manual alert reaches: those whose list holds the upper-cased symbol exactly and who take manual alerts. */
  function ManualRecipients(recipients: seq<RecipientConfig>, upper: string): (rs: seq<RecipientConfig>)
    ensures |rs| <= |recipients|
    ensures forall x | x in rs :: x in recipients && upper in x.subscribedSymbols && Preference(x, ManualAlerts)
    ensures forall x | x in recipients && upper in x.subscribedSymbols && Preference(x, ManualAlerts) :: x in rs
  {
    var rs := FilterMap(recipients, ManualFilter(upper));
    assert forall x | x in recipients :: exists i :: 0 <= i < |recipients| && recipients[i] == x;
    rs
  }

  /** How a manual alert request ends. */
  datatype ManualOutcome =
    | NotInWatchlist(symbol: string)
    | AlertFailed(symbol: string, error: FetchError)
    | NoRecipients(symbol: string)
    | AlertSent(symbol: string, subject: string, report: Report, notified: seq<RecipientConfig>)

  /** A manual alert's outcome with the monitor state it leaves behind. */
  datatype ManualRun = ManualRun(outcome: ManualOutcome, monitor: Monitor)

  /**
   * `trigger_manual_alert`: look the symbol up ignoring case, fetch it (which
   * updates the cache even when nobody is notified), and send one single-block
   * report to every recipient who subscribes to the upper-cased symbol and takes
   * manual alerts.
   */
  function TriggerManualAlert(
    m: Monitor, configs: seq<StockConfig>, recipients: seq<RecipientConfig>, symbol: string,
    currencySymbol: string, reply: ProviderReply, now: string): (run: ManualRun)
    ensures run.outcome.symbol == Upper(symbol)
    ensures run.outcome.NotInWatchlist? <==> FindStockIgnoringCase(configs, symbol).None?
    ensures run.outcome.NotInWatchlist? ==> run.monitor == m
    ensures FindStockIgnoringCase(configs, symbol).Some? ==>
      var c := FindStockIgnoringCase(configs, symbol).value;
      var f := GetStockData(m, c, reply, now);
      && run.monitor == f.monitor
      && (run.outcome.AlertFailed? <==> f.result.Failed?)
      && (run.outcome.NoRecipients? <==> f.result.HasValue() && ManualRecipients(recipients, Upper(symbol)) == [])
      && (run.outcome.AlertSent? ==>
            && run.outcome.notified == ManualRecipients(recipients, Upper(symbol))
            && |run.outcome.notified| > 0
            && (IsBreached(f.result.snapshot, c) ==> run.outcome.subject == "BOT ALERT!: " + c.symbol)
            && (!IsBreached(f.result.snapshot, c) ==> run.outcome.subject == "Manual Stock Update: " + c.symbol)
            && run.outcome.report == FormatGroupedAlert([f.result.snapshot], [c], currencySymbol))
  {
    var upper := Upper(symbol);
    match FindStockIgnoringCase(configs, symbol)
    case None => ManualRun(NotInWatchlist(upper), m)
    case Some(c) =>
      var f := GetStockData(m, c, reply, now);
      if f.result.Failed? then ManualRun(AlertFailed(upper, f.result.error), f.monitor)
      else
        var notified := ManualRecipients(recipients, upper);
        if |notified| == 0 then ManualRun(NoRecipients(upper), f.monitor)
        else
          var subject := if IsBreached(f.result.snapshot, c) then "BOT ALERT!: " + c.symbol else "Manual Stock Update: " + c.symbol;
          ManualRun(
            AlertSent(upper, subject, FormatGroupedAlert([f.result.snapshot], [c], currencySymbol), notified),
            f.monitor)
  }

  /** The messages of a manual alert: the same subject and report for every notified recipient. */
  function ManualOutgoings(outcome: ManualOutcome): (out: seq<Outgoing>)
    ensures !outcome.AlertSent? ==> out == []
    ensures outcome.AlertSent? ==> |out| == |outcome.notified|
    ensures outcome.AlertSent? ==> forall i | 0 <= i < |out| :: out[i] == Outgoing(outcome.notified[i], outcome.subject, outcome.report)
  {
    if outcome.AlertSent? then
      seq(|outcome.notified|, i requires 0 <= i < |outcome.notified| => Outgoing(outcome.notified[i], outcome.subject, outcome.report))
    else []
  }

  /**
   * Dispatch the payloads of a planned run, the transport deciding each
   * recipient's outcome: every recipient the plan reaches gets exactly the
   * delivery of its own payload, and nobody else gets one.
   */
  method DispatchPlan(
    sender: SenderConfig, recipients: seq<RecipientConfig>, data: map<string, Snapshot>, configs: seq<StockConfig>,
    currencySymbol: string, isScheduled: bool, threatOnly: bool, transport: RecipientConfig -> bool)
    returns (deliveries: seq<Delivery>)
    ensures var ps := Plan(recipients, data, configs, currencySymbol, isScheduled, threatOnly);
      && |deliveries| == |ps|
      && forall i | 0 <= i < |ps| ::
           deliveries[i] == SendAlert(sender, ps[i].recipient, ps[i].subject, ps[i].report, transport(ps[i].recipient))
    ensures forall j | 0 <= j < |recipients| && PlanRecipient(recipients[j], data, configs, currencySymbol, isScheduled, threatOnly).Some? ::
      var p := PlanRecipient(recipients[j], data, configs, currencySymbol, isScheduled, threatOnly).value;
      SendAlert(sender, recipients[j], p.subject, p.report, transport(recipients[j])) in deliveries
    ensures sender.smtpPassword != "" ==> forall d | d in deliveries ::
      && !d.NotConfigured?
      && exists j ::
           0 <= j < |recipients| && d.submission.message.to == recipients[j].email &&
           PlanRecipient(recipients[j], data, configs, currencySymbol, isScheduled, threatOnly).Some?
  {
    var ps := Plan(recipients, data, configs, currencySymbol, isScheduled, threatOnly);
    var out := Outgoings(ps);
    var ok := seq(|out|, i requires 0 <= i < |out| => transport(out[i].recipient));
    deliveries := DispatchAll(sender, out, ok);
    forall j | 0 <= j < |recipients| && PlanRecipient(recipients[j], data, configs, currencySymbol, isScheduled, threatOnly).Some?
      ensures var p := PlanRecipient(recipients[j], data, configs, currencySymbol, isScheduled, threatOnly).value;
        SendAlert(sender, recipients[j], p.subject, p.report, transport(recipients[j])) in deliveries
    {
      var p := PlanRecipient(recipients[j], data, configs, currencySymbol, isScheduled, threatOnly).value;
      var i :| 0 <= i < |ps| && ps[i] == p;
      assert deliveries[i] == SendAlert(sender, recipients[j], p.subject, p.report, transport(recipients[j]));
    }
    if sender.smtpPassword != "" {
      forall d | d in deliveries
        ensures !d.NotConfigured?
        ensures exists j ::
          0 <= j < |recipients| && d.submission.message.to == recipients[j].email &&
          PlanRecipient(recipients[j], data, configs, currencySymbol, isScheduled, threatOnly).Some?
      {
        var i :| 0 <= i < |deliveries| && deliveries[i] == d;
        assert ps[i] in ps;
        var j :| 0 <= j < |recipients| && PlanRecipient(recipients[j], data, configs, currencySymbol, isScheduled, threatOnly) == Some(ps[i]);
      }
    }
  }

  /**
   * Dispatch a manual alert: a sent alert gives every notified recipient one
   * delivery, addressed to them, with the alert's subject and report; any other
   * outcome sends nothing.
   */
  method DispatchManual(sender: SenderConfig, outcome: ManualOutcome, transport: RecipientConfig -> bool)
    returns (deliveries: seq<Delivery>)
    ensures !outcome.AlertSent? ==> deliveries == []
    ensures outcome.AlertSent? ==> |deliveries| == |outcome.notified|
    ensures outcome.AlertSent? ==> forall i | 0 <= i < |deliveries| ::
      deliveries[i] == SendAlert(sender, outcome.notified[i], outcome.subject, outcome.report, transport(outcome.notified[i]))
    ensures outcome.AlertSent? && sender.smtpPassword != "" ==>
      forall i | 0 <= i < |deliveries| ::
        && deliveries[i].Delivered? == transport(outcome.notified[i])
        && !deliveries[i].NotConfigured?
        && deliveries[i].submission.message.to == outcome.notified[i].email
        && deliveries[i].submission.message.subject == outcome.subject
        && deliveries[i].submission.message.body == outcome.report
  {
    var out := ManualOutgoings(outcome);
    var ok := seq(|out|, i requires 0 <= i < |out| => transport(out[i].recipient));
    deliveries := DispatchAll(sender, out, ok);
  }

  /** From a well-keyed cache, a sent manual alert's report has exactly one block, for the looked-up instrument. */
  lemma ManualReportHasOneBlock(
    m: Monitor, configs: seq<StockConfig>, recipients: seq<RecipientConfig>, symbol: string,
    currencySymbol: string, reply: ProviderReply, now: string)
    requires WellKeyed(m)
    requires TriggerManualAlert(m, configs, recipients, symbol, currencySymbol, reply, now).outcome.AlertSent?
    ensures var run := TriggerManualAlert(m, configs, recipients, symbol, currencySymbol, reply, now);
      |run.outcome.report.blocks| == 1 &&
      run.outcome.report.blocks[0].symbol == FindStockIgnoringCase(configs, symbol).value.symbol
  {
    var c := FindStockIgnoringCase(configs, symbol).value;
    var f := GetStockData(m, c, reply, now);
    SingleInstrumentReport(f.result.snapshot, c, currencySymbol);
  }

  /** The answer of the single-instrument query. */
  datatype Query = NotFound(symbol: string) | QueryFailed(symbol: string, error: FetchError) | Found(snapshot: Snapshot)

  /** A query answer with the monitor state it leaves behind. */
  datatype QueryRun = QueryRun(result: Query, monitor: Monitor)

  /** `get_stock_price`: look the symbol up ignoring case and fetch it, serving the cache on failure. */
  function GetStockPrice(m: Monitor, configs: seq<StockConfig>, symbol: string, reply: ProviderReply, now: string): (q: QueryRun)
    ensures q.result.NotFound? <==> FindStockIgnoringCase(configs, symbol).None?
    ensures q.result.NotFound? ==> q.monitor == m && q.result.symbol == Upper(symbol)
    ensures q.result.QueryFailed? ==> q.result.symbol == Upper(symbol)
    ensures FindStockIgnoringCase(configs, symbol).Some? ==>
      var f := GetStockData(m, FindStockIgnoringCase(configs, symbol).value, reply, now);
      && q.monitor == f.monitor
      && (q.result.Found? <==> f.result.HasValue())
      && (q.result.Found? ==> q.result.snapshot == f.result.snapshot)
  {
    match FindStockIgnoringCase(configs, symbol)
    case None => QueryRun(NotFound(Upper(symbol)), m)
    case Some(c) =>
      var f := GetStockData(m, c, reply, now);
      if f.result.HasValue() then QueryRun(Found(f.result.snapshot), f.monitor)
      else QueryRun(QueryFailed(Upper(symbol), f.result.error), f.monitor)
  }

  /** `get_all_monitored_stocks`: nothing is fetched when no instrument is configured. */
  function GetAllMonitoredStocks(m: Monitor, configs: seq<StockConfig>, replies: seq<ProviderReply>, now: string): (r: (map<string, Snapshot>, Monitor))
    requires |replies| == |configs|
    ensures |configs| == 0 ==> r == (map[], m)
    ensures r.0.Keys == Symbols(configs) * (m.cache.Keys + Succeeded(configs, replies, now))
    ensures forall k | k in r.0 && k !in Succeeded(configs, replies, now) :: r.0[k] == m.cache[k]
    ensures forall i | 0 <= i < |configs| && LastOccurrence(configs, i) && Attempt(configs[i], replies[i], now).Ok? ::
      configs[i].symbol in r.0 && r.0[configs[i].symbol] == Attempt(configs[i], replies[i], now).value
    ensures r.1.cache.Keys == m.cache.Keys + Succeeded(configs, replies, now)
    ensures forall k | k in r.0 :: k in r.1.cache && r.0[k] == r.1.cache[k]
    ensures |configs| > 0 ==> r == CheckMultipleStocks(m, configs, replies, now)
  {
    if |configs| == 0 then (map[], m) else CheckMultipleStocks(m, configs, replies, now)
  }
}
