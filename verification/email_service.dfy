/**
 * The notification dispatcher: the grouped report rendered for one message,
 * the message's headers and SMTP envelope, and per-recipient delivery.
 */
module EmailService {
  import opened Wrappers
  import opened Sequences
  import opened Configs
  import opened PriceMonitor
  import opened Coverage

  /** The rendered content of one instrument's section of a report. */
  datatype Block = Block(
    symbol: string,
    companyName: string,
    breached: bool,
    headerText: string,
    headerStyle: string,
    coverStyle: string,
    currentPrice: real,
    previousClose: real,
    change: real,
    changePercent: real,
    changeSign: string,
    changeColor: string,
    yesterdayClose: real,
    yesterdayChange: real,
    yesterdayChangePercent: real,
    yesterdayChangeSign: string,
    yesterdayChangeColor: string,
    requiredCover: real,
    currentCover: real)

  /** A grouped report: one block per reported instrument, in input order. */
  datatype Report = Report(currencySymbol: string, blocks: seq<Block>)

  /** The sign printed before a change: `+` for a change that is not negative, nothing otherwise. */
  function SignOf(v: real): string {
    if v >= 0.0 then "+" else ""
  }

  /** The colour a change is printed in. */
  function ColorOf(v: real): string {
    if v >= 0.0 then "green" else "red"
  }

  /** The block rendered for a snapshot under its instrument's configuration. */
  function RenderBlock(s: Snapshot, c: StockConfig): (b: Block)
    ensures b.symbol == s.symbol && b.companyName == c.companyName
    ensures b.breached <==> IsBreached(s, c)
    ensures b.headerStyle == "color: red;" <==> b.breached
    ensures b.coverStyle == "" <==> !b.breached
    ensures b.headerText == (if b.breached then "ATTENTION: " else "Update for ") + c.companyName + " (" + s.symbol + ")"
    ensures (b.changeSign == "+" <==> s.change >= 0.0) && (b.changeColor == "green" <==> s.change >= 0.0)
    ensures (b.yesterdayChangeSign == "+" <==> s.yesterdayChange >= 0.0) && (b.yesterdayChangeColor == "green" <==> s.yesterdayChange >= 0.0)
    ensures b.currentPrice == s.currentPrice && b.previousClose == s.previousClose && b.yesterdayClose == s.yesterdayClose
    ensures b.change == s.change && b.changePercent == s.changePercent
    ensures b.yesterdayChange == s.yesterdayChange && b.yesterdayChangePercent == s.yesterdayChangePercent
    ensures b.requiredCover == c.securityCoverThreshold
    ensures s.securityCover.Some? ==> b.currentCover == s.securityCover.value
    ensures s.securityCover.None? ==> b.currentCover == 0.0
  {
    var breached := IsBreached(s, c);
    var title := c.companyName + " (" + s.symbol + ")";
    Block(
      s.symbol,
      c.companyName,
      breached,
      if breached then "ATTENTION: " + title else "Update for " + title,
      if breached then "color: red;" else "color: blue;",
      if breached then "color: red; font-weight: bold;" else "",
      s.currentPrice,
      s.previousClose,
      s.change,
      s.changePercent,
      SignOf(s.change),
      ColorOf(s.change),
      s.yesterdayClose,
      s.yesterdayChange,
      s.yesterdayChangePercent,
      SignOf(s.yesterdayChange),
      ColorOf(s.yesterdayChange),
      c.securityCoverThreshold,
      s.securityCover.GetOr(0.0))
  }

  /**
   * A snapshot without a cover is shown with a cover of 0.00 but tested against
   * 999: under any threshold from just above 0 up to 999 it is reported unflagged
   * although the printed cover is below the required one.
   */
  lemma MissingCoverShownAsZeroButNotFlagged(s: Snapshot, c: StockConfig)
    requires s.securityCover.None? && 0.0 < c.securityCoverThreshold <= 999.0
    ensures RenderBlock(s, c).currentCover == 0.0 < RenderBlock(s, c).requiredCover
    ensures !RenderBlock(s, c).breached && RenderBlock(s, c).headerStyle == "color: blue;"
  {
  }

  /** The block for a snapshot, or none when no configured instrument has its symbol. */
  function BlockFor(configs: seq<StockConfig>, s: Snapshot): (r: Option<Block>)
    ensures r.Some? <==> FindStock(configs, s.symbol).Some?
    ensures r.Some? ==>
      && r.value.symbol == s.symbol
      && r.value.breached == IsBreached(s, FindStock(configs, s.symbol).value)
      && r.value.requiredCover == FindStock(configs, s.symbol).value.securityCoverThreshold
      && r.value.currentCover == s.securityCover.GetOr(0.0)
      && r.value.change == s.change && r.value.yesterdayChange == s.yesterdayChange
  {
    match FindStock(configs, s.symbol)
    case None => None
    case Some(c) => Some(RenderBlock(s, c))
  }

  /** `BlockFor` as a function value, so that every use names the same filter. */
  function Blocker(configs: seq<StockConfig>): Snapshot -> Option<Block> {
    (s: Snapshot) => BlockFor(configs, s)
  }

  /** `format_grouped_alert`: one block per snapshot whose symbol is configured, skipping the others. */
  function FormatGroupedAlert(data: seq<Snapshot>, configs: seq<StockConfig>, currencySymbol: string): (r: Report)
    ensures r.currencySymbol == currencySymbol
    ensures |r.blocks| <= |data|
    ensures forall b | b in r.blocks ::
      && (b.changeSign == "+" <==> b.change >= 0.0)
      && (b.yesterdayChangeSign == "+" <==> b.yesterdayChange >= 0.0)
      && (b.breached <==> b.headerStyle == "color: red;")
    ensures forall b | b in r.blocks :: exists i :: 0 <= i < |data| && BlockFor(configs, data[i]) == Some(b)
    ensures (forall i :: 0 <= i < |data| ==> FindStock(configs, data[i].symbol).None?) ==> r.blocks == []
  {
    var blocks := FilterMap(data, Blocker(configs));
    assert |blocks| > 0 ==> blocks[0] in blocks;
    Report(currencySymbol, blocks)
  }

  /** Blocks follow the order of the snapshots: reporting a concatenation concatenates the reports. */
  lemma FormatKeepsInputOrder(a: seq<Snapshot>, b: seq<Snapshot>, configs: seq<StockConfig>, currencySymbol: string)
    ensures FormatGroupedAlert(a + b, configs, currencySymbol).blocks ==
      FormatGroupedAlert(a, configs, currencySymbol).blocks + FormatGroupedAlert(b, configs, currencySymbol).blocks
  {
    FilterMapAppend(a, b, Blocker(configs));
  }

  /** When every snapshot's symbol is configured, the report has one block per snapshot, at the same position. */
  lemma FormatKeepsConfigured(data: seq<Snapshot>, configs: seq<StockConfig>, currencySymbol: string)
    requires forall i :: 0 <= i < |data| ==> FindStock(configs, data[i].symbol).Some?
    ensures |FormatGroupedAlert(data, configs, currencySymbol).blocks| == |data|
    ensures forall i :: 0 <= i < |data| ==>
      FormatGroupedAlert(data, configs, currencySymbol).blocks[i] ==
        RenderBlock(data[i], FindStock(configs, data[i].symbol).value)
  {
    var blocks := FilterMap(data, Blocker(configs));
    FilterMapKeepsAll(data, Blocker(configs));
    assert FormatGroupedAlert(data, configs, currencySymbol).blocks == blocks;
    forall i | 0 <= i < |data|
      ensures blocks[i] == RenderBlock(data[i], FindStock(configs, data[i].symbol).value)
    {
      assert blocks[i] == Blocker(configs)(data[i]).value;
      assert Blocker(configs)(data[i]) == BlockFor(configs, data[i]);
    }
  }

  /** A report on one snapshot of a configured instrument has exactly one block, rendered from that instrument. */
  lemma SingleInstrumentReport(s: Snapshot, c: StockConfig, currencySymbol: string)
    requires s.symbol == c.symbol
    ensures |FormatGroupedAlert([s], [c], currencySymbol).blocks| == 1
    ensures FormatGroupedAlert([s], [c], currencySymbol).blocks[0] == RenderBlock(s, c)
  {
    assert FindStock([c], s.symbol) == Some(c);
    FormatKeepsConfigured([s], [c], currencySymbol);
  }

  /** `sep.join(xs)`. */
  function Join(xs: seq<string>, sep: string): string
    decreases |xs|
  {
    if |xs| == 0 then ""
    else if |xs| == 1 then xs[0]
    else xs[0] + sep + Join(xs[1..], sep)
  }

  /** `a` occurs as a contiguous part of `b`. */
  predicate Occurs(a: string, b: string) {
    exists i, j :: 0 <= i <= j <= |b| && b[i..j] == a
  }

  /** Every joined element occurs in the joined string. */
  lemma {:induction false} JoinContainsEach(xs: seq<string>, sep: string)
    ensures forall i :: 0 <= i < |xs| ==> Occurs(xs[i], Join(xs, sep))
    decreases |xs|
  {
    if |xs| == 1 {
      assert Join(xs, sep)[0..|xs[0]|] == xs[0];
    } else if |xs| > 1 {
      var joined := Join(xs, sep);
      var rest := Join(xs[1..], sep);
      var offset := |xs[0]| + |sep|;
      assert joined == xs[0] + sep + rest;
      assert joined[0..|xs[0]|] == xs[0];
      JoinContainsEach(xs[1..], sep);
      forall i | 1 <= i < |xs|
        ensures Occurs(xs[i], joined)
      {
        assert xs[1..][i - 1] == xs[i];
        var k, l :| 0 <= k <= l <= |rest| && rest[k..l] == xs[i];
        assert joined[offset + k..offset + l] == rest[k..l];
      }
    }
  }

  /** The headers of one message; blind copies have no header. */
  datatype Message = Message(subject: string, from: string, to: string, cc: Option<string>, body: Report)

  /** One authenticated SMTP submission: where it goes, how, and to which envelope recipients. */
  datatype Submission = Submission(
    host: string,
    port: int,
    startTls: bool,
    username: string,
    password: string,
    message: Message,
    envelope: seq<string>)

  /** How one `send_alert` call ended; a transport failure is reported, never raised. */
  datatype Delivery = NotConfigured | Delivered(submission: Submission) | DeliveryFailed(submission: Submission)

  /** The message `send_alert` builds: the recipient in To, the cc list joined into one Cc header when it is not empty. */
  function ComposeMessage(sender: SenderConfig, r: RecipientConfig, subject: string, body: Report): (m: Message)
    ensures m.to == r.email && m.subject == subject && m.body == body
    ensures m.cc.Some? <==> |r.cc| > 0
    ensures m.cc.Some? ==> forall i :: 0 <= i < |r.cc| ==> Occurs(r.cc[i], m.cc.value)
  {
    JoinContainsEach(r.cc, ", ");
    Message(
      subject,
      sender.fromName + " <" + sender.fromEmail + ">",
      r.email,
      if |r.cc| > 0 then Some(Join(r.cc, ", ")) else None,
      body)
  }

  /** The SMTP envelope: the recipient, then the cc list, then the bcc list. */
  function Envelope(r: RecipientConfig): (e: seq<string>)
    ensures |e| == 1 + |r.cc| + |r.bcc|
    ensures e[0] == r.email
    ensures e[1..1 + |r.cc|] == r.cc && e[1 + |r.cc|..] == r.bcc
  {
    [r.email] + r.cc + r.bcc
  }

  /** The envelope reaches exactly the recipient and the cc and bcc addresses, and nobody else. */
  lemma EnvelopeHoldsExactlyTheAddresses(r: RecipientConfig)
    ensures forall x :: x in Envelope(r) <==> x == r.email || x in r.cc || x in r.bcc
  {
  }

  /** Blind copies never reach the headers: the message is the same whatever the bcc list holds. */
  lemma HeadersIgnoreBcc(sender: SenderConfig, r: RecipientConfig, bcc: seq<string>, subject: string, body: Report)
    ensures ComposeMessage(sender, r, subject, body) == ComposeMessage(sender, r.(bcc := bcc), subject, body)
  {
  }

  /**
   * `send_alert`: nothing is attempted without a password; otherwise one
   * submission of the composed message to the whole envelope, whose outcome
   * the transport decides.
   */
  function SendAlert(sender: SenderConfig, r: RecipientConfig, subject: string, body: Report, transportOk: bool): (d: Delivery)
    ensures d.NotConfigured? <==> sender.smtpPassword == ""
    ensures d.Delivered? <==> sender.smtpPassword != "" && transportOk
    ensures !d.NotConfigured? ==>
      && d.submission.message == ComposeMessage(sender, r, subject, body)
      && d.submission.envelope == Envelope(r)
      && (d.submission.startTls <==> sender.useTls)
      && d.submission.host == sender.smtpHost && d.submission.port == sender.smtpPort
      && d.submission.username == sender.smtpUsername && d.submission.password == sender.smtpPassword
    ensures !d.NotConfigured? ==> forall i :: 0 <= i < |r.bcc| ==> r.bcc[i] in d.submission.envelope
  {
    if sender.smtpPassword == "" then NotConfigured
    else
      var submission := Submission(
        sender.smtpHost, sender.smtpPort, sender.useTls, sender.smtpUsername, sender.smtpPassword,
        ComposeMessage(sender, r, subject, body), Envelope(r));
      if transportOk then Delivered(submission) else DeliveryFailed(submission)
  }

  /** One message to send. */
  datatype Outgoing = Outgoing(recipient: RecipientConfig, subject: string, report: Report)

  /**
   * Send every message in turn; each delivery depends only on its own message
   * and its own transport outcome, so no failure blocks a later recipient.
   */
  method DispatchAll(sender: SenderConfig, messages: seq<Outgoing>, transportOk: seq<bool>) returns (deliveries: seq<Delivery>)
    requires |transportOk| == |messages|
    ensures |deliveries| == |messages|
    ensures forall i | 0 <= i < |messages| ::
      deliveries[i] == SendAlert(sender, messages[i].recipient, messages[i].subject, messages[i].report, transportOk[i])
  {
    deliveries := [];
    var i := 0;
    while i < |messages|
      invariant 0 <= i <= |messages|
      invariant |deliveries| == i
      invariant forall j | 0 <= j < i ::
        deliveries[j] == SendAlert(sender, messages[j].recipient, messages[j].subject, messages[j].report, transportOk[j])
    {
      var m := messages[i];
      deliveries := deliveries + [SendAlert(sender, m.recipient, m.subject, m.report, transportOk[i])];
      i := i + 1;
    }
  }
}
