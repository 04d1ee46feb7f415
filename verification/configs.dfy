/**
 * The configuration records the watchdog reads: monitored instruments, the
 * mail sender and the recipients, with the defaults their constructors apply,
 * and the two ways an instrument is looked up by symbol.
 */
module Configs {
  import opened Wrappers
  import opened Sequences

  /** One monitored instrument pledged as collateral. */
  datatype StockConfig = StockConfig(
    symbol: string,
    companyName: string,
    quantityFactor: real,
    loanOutstanding: real,
    securityCoverThreshold: real)

  /** The mail sender's identity and transport credentials. */
  datatype SenderConfig = SenderConfig(
    fromEmail: string,
    fromName: string,
    smtpHost: string,
    smtpPort: int,
    smtpUsername: string,
    smtpPassword: string,
    useTls: bool)

  /** A sender record built from configuration; `useTls` is on unless the configuration switches it off. */
  function NewSenderConfig(
    fromEmail: string, fromName: string, smtpHost: string, smtpPort: int,
    smtpUsername: string, smtpPassword: string, useTls: Option<bool>): (c: SenderConfig)
    ensures c.useTls <==> useTls != Some(false)
    ensures c.fromEmail == fromEmail && c.fromName == fromName && c.smtpPassword == smtpPassword
    ensures c.smtpHost == smtpHost && c.smtpPort == smtpPort && c.smtpUsername == smtpUsername
  {
    SenderConfig(fromEmail, fromName, smtpHost, smtpPort, smtpUsername, smtpPassword, useTls.GetOr(true))
  }

  /** The three alert-preference keys. */
  const ScheduledReports := "scheduled_reports"
  const ThreatAlerts := "threat_alerts"
  const ManualAlerts := "manual_alerts"

  /** The preferences a recipient gets when the configuration gives none. */
  const DefaultPreferences: map<string, bool> :=
    map[ScheduledReports := true, ThreatAlerts := true, ManualAlerts := true]

  /** One mail recipient and what they subscribe to. */
  datatype RecipientConfig = RecipientConfig(
    email: string,
    subscribedSymbols: seq<string>,
    name: string,
    cc: seq<string>,
    bcc: seq<string>,
    alertPreferences: map<string, bool>)

  /** `alert_preferences.get(key, True)`: a preference is on unless it is present and false. */
  predicate Preference(r: RecipientConfig, key: string) {
    if key in r.alertPreferences then r.alertPreferences[key] else true
  }

  /** A recipient record built from configuration, with the defaults of its constructor applied. */
  function NewRecipientConfig(
    email: string, subscribedSymbols: seq<string>, name: Option<string>,
    cc: Option<seq<string>>, bcc: Option<seq<string>>,
    alertPreferences: Option<map<string, bool>>): (r: RecipientConfig)
    ensures r.email == email && r.subscribedSymbols == subscribedSymbols
    ensures r.name == (if name.Some? then name.value else "")
    ensures r.cc == (if cc.Some? then cc.value else [])
    ensures r.bcc == (if bcc.Some? then bcc.value else [])
    ensures forall key :: Preference(r, key) <==>
      !(alertPreferences.Some? && key in alertPreferences.value && !alertPreferences.value[key])
  {
    RecipientConfig(
      email, subscribedSymbols, name.GetOr(""), cc.GetOr([]), bcc.GetOr([]),
      alertPreferences.GetOr(DefaultPreferences))
  }

  /** Upper-casing of one character (ASCII letters only). */
  function UpperChar(c: char): char {
    if 'a' <= c <= 'z' then (c as int - 32) as char else c
  }

  /** `s.upper()` over ASCII. */
  function Upper(s: string): string {
    seq(|s|, i requires 0 <= i < |s| => UpperChar(s[i]))
  }

  /** The first instrument whose symbol is exactly `symbol`. */
  function FindStock(configs: seq<StockConfig>, symbol: string): (r: Option<StockConfig>)
    ensures r.None? <==> forall i :: 0 <= i < |configs| ==> configs[i].symbol != symbol
    ensures r.Some? ==>
      exists i :: 0 <= i < |configs| && configs[i] == r.value && r.value.symbol == symbol &&
        forall j :: 0 <= j < i ==> configs[j].symbol != symbol
  {
    FindFirst(configs, (c: StockConfig) => c.symbol == symbol)
  }

  /** The first instrument whose symbol equals `symbol` once both are upper-cased. */
  function FindStockIgnoringCase(configs: seq<StockConfig>, symbol: string): (r: Option<StockConfig>)
    ensures r.None? <==> forall i :: 0 <= i < |configs| ==> Upper(configs[i].symbol) != Upper(symbol)
    ensures r.Some? ==>
      exists i :: 0 <= i < |configs| && configs[i] == r.value && Upper(r.value.symbol) == Upper(symbol) &&
        forall j :: 0 <= j < i ==> Upper(configs[j].symbol) != Upper(symbol)
  {
    FindFirst(configs, (c: StockConfig) => Upper(c.symbol) == Upper(symbol))
  }

  /** An exact match is also a case-insensitive one, so the case-insensitive lookup never misses a configured symbol. */
  lemma {:induction false} ExactMatchFoundIgnoringCase(configs: seq<StockConfig>, symbol: string)
    requires FindStock(configs, symbol).Some?
    ensures FindStockIgnoringCase(configs, symbol).Some?
  {
    var c := FindStock(configs, symbol).value;
    var i :| 0 <= i < |configs| && configs[i] == c && c.symbol == symbol;
    assert Upper(configs[i].symbol) == Upper(symbol);
  }
}
