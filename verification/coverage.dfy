/** The breach predicate every consumer of a snapshot applies. */
module Coverage {
  import opened Wrappers
  import opened Numeric
  import opened Configs
  import opened PriceMonitor

  /** The cover a breach test assumes when a snapshot carries none. */
  const MissingCover := 999.0

  /** `snapshot.get("security_cover", 999)`. */
  function CoverForBreachTest(s: Snapshot): real {
    s.securityCover.GetOr(MissingCover)
  }

  /** A breach is a cover strictly below the instrument's required threshold. */
  predicate IsBreached(s: Snapshot, c: StockConfig) {
    CoverForBreachTest(s) < c.securityCoverThreshold
  }

  /** A cover exactly at the threshold is not a breach; a snapshot without a cover breaches only thresholds above 999. */
  lemma BreachIsStrict(s: Snapshot, c: StockConfig)
    ensures s.securityCover == Some(c.securityCoverThreshold) ==> !IsBreached(s, c)
    ensures s.securityCover.None? ==> (IsBreached(s, c) <==> c.securityCoverThreshold > 999.0)
  {
  }

  /** A breach persists when the cover falls further or the required threshold rises. */
  lemma LowerCoverStaysBreached(s: Snapshot, t: Snapshot, c: StockConfig, d: StockConfig)
    requires s.securityCover.Some? && t.securityCover.Some? && s.securityCover.value <= t.securityCover.value
    requires c.securityCoverThreshold <= d.securityCoverThreshold
    requires IsBreached(t, c)
    ensures IsBreached(s, d)
  {
  }

  /**
   * With no positive loan outstanding the stored cover is 0, so every positive
   * threshold is breached, whatever the price.
   */
  lemma {:induction false} ZeroLoanBreachesPositiveThreshold(
    c: StockConfig, info: Info, dailyCloses: seq<real>, intraday: seq<Bar>, now: string)
    requires c.loanOutstanding <= 0.0 && c.securityCoverThreshold > 0.0
    requires QuotedPrice(info, intraday).Some? && !(|dailyCloses| < 2 && info.previousClose.Null?)
    ensures DeriveSnapshot(c, info, dailyCloses, intraday, now).Ok?
    ensures DeriveSnapshot(c, info, dailyCloses, intraday, now).value.securityCover == Some(0.0)
    ensures IsBreached(DeriveSnapshot(c, info, dailyCloses, intraday, now).value, c)
  {
    Round2KeepsCents(0);
    assert Cents(0) == 0.0;
  }

  /**
   * The breach test reads the cover after rounding to two decimals: a collateral
   * worth 1.696 times the loan is reported as 1.70 and does not breach 1.7.
   */
  lemma RoundedCoverCanHideBreach()
    ensures var c := StockConfig("X", "X Ltd", 1.0, 1.0, 1.7);
      var info := Info(Absent, Absent, Absent, Absent, Absent, Absent, Absent);
      var r := DeriveSnapshot(c, info, [], [Bar(1.696, 0.0)], "");
      && CoverRatio(c.quantityFactor, 1.696, c.loanOutstanding) < c.securityCoverThreshold
      && r.Ok? && r.value.securityCover == Some(1.7)
      && !IsBreached(r.value, c)
  {
    var scaled := 1.696 * 100.0;
    assert scaled.Floor == 169;
    assert Round2(1.696) == Cents(170);
  }

  /** The worked example: quantity 1,000,000 against a 4,000,000 loan breaches 1.5 at 5.50 and clears it at 7.00. */
  lemma BreachExample()
    ensures var c := StockConfig("X", "X Ltd", 1000000.0, 4000000.0, 1.5);
      var info := Info(Absent, Absent, Absent, Absent, Absent, Absent, Absent);
      var low := DeriveSnapshot(c, info, [], [Bar(5.5, 0.0)], "");
      var high := DeriveSnapshot(c, info, [], [Bar(7.0, 0.0)], "");
      && low.Ok? && low.value.securityCover == Some(1.38) && IsBreached(low.value, c)
      && high.Ok? && high.value.securityCover == Some(1.75) && !IsBreached(high.value, c)
  {
    assert (1.375 * 100.0).Floor == 137;
    assert Round2(1.375) == Cents(138);
    assert (1.75 * 100.0).Floor == 175;
    assert Round2(1.75) == Cents(175);
  }
}
