/** The `feereport` RPC method (feereport.py, lines 25-78): the channel fee
    policies followed by the trailing fee sums. The daemon's `listfunds`,
    `listchannels` and `listforwards` answers, our node id and the current
    time are inputs. */
module FeeReport {
  import opened Wrappers
  import opened Text
  import opened ChannelFees
  import opened FeeSums

  /** The object the method returns; the sums are whole satoshi, as strings. */
  datatype Report = Report(channelFees: seq<ChannelFee>, dayFeeSum: string, weekFeeSum: string, monthFeeSum: string)

  function SatString(msat: nat): string {
    NatToString(MsatToSat(msat))
  }

  /** The report for the given daemon answers at time `now`, or the failure the
      channel pass raises. */
  function ReportOf(channels: seq<Channel>, listChannels: string -> seq<Policy>, forwards: seq<Forward>,
                    ourId: NodeId, now: real): Result<Report, Error>
  {
    match ChannelFeesOf(channels, listChannels, ourId)
    case Failure(e) => Failure(e)
    case Success(fees) =>
      var data := FeeData(forwards);
      var c := StandardCutoffs(now);
      Success(Report(fees, SatString(WindowSum(data, Day, c)), SatString(WindowSum(data, Week, c)),
                     SatString(WindowSum(data, Month, c))))
  }

  method GenerateReport(channels: seq<Channel>, listChannels: string -> seq<Policy>, forwards: seq<Forward>,
                        ourId: NodeId, now: real) returns (r: Result<Report, Error>)
    ensures r == ReportOf(channels, listChannels, forwards, ourId, now)
  {
    var channelFees := CollectChannelFees(channels, listChannels, ourId);
    if channelFees.Failure? {
      return Failure(channelFees.error);
    }
    var cutoffs := StandardCutoffs(now);
    var day, week, month := SumFees(forwards, cutoffs);
    r := Success(Report(channelFees.value, NatToString(MsatToSat(day)), NatToString(MsatToSat(week)),
                        NatToString(MsatToSat(month))));
  }

  // ---------------------------------------------------------------------------
  // Properties of the whole report.
  // ---------------------------------------------------------------------------

  /** Each sum is a decimal string denoting the window's total in msat divided
      by 1000 and truncated, and the day sum is at most the week sum, which is
      at most the month sum. */
  lemma ReportSums(channels: seq<Channel>, listChannels: string -> seq<Policy>, forwards: seq<Forward>,
                   ourId: NodeId, now: real)
    requires ReportOf(channels, listChannels, forwards, ourId, now).Success?
    ensures var r := ReportOf(channels, listChannels, forwards, ourId, now).value;
      var data, c := FeeData(forwards), StandardCutoffs(now);
      && AllDigits(r.dayFeeSum) && AllDigits(r.weekFeeSum) && AllDigits(r.monthFeeSum)
      && DigitsValue(r.dayFeeSum) * 1000 <= WindowSum(data, Day, c) < DigitsValue(r.dayFeeSum) * 1000 + 1000
      && DigitsValue(r.weekFeeSum) * 1000 <= WindowSum(data, Week, c) < DigitsValue(r.weekFeeSum) * 1000 + 1000
      && DigitsValue(r.monthFeeSum) * 1000 <= WindowSum(data, Month, c) < DigitsValue(r.monthFeeSum) * 1000 + 1000
      && DigitsValue(r.dayFeeSum) <= DigitsValue(r.weekFeeSum) <= DigitsValue(r.monthFeeSum)
  {
    var data, c := FeeData(forwards), StandardCutoffs(now);
    WindowsNest(data, c);
    NatToStringRoundTrip(MsatToSat(WindowSum(data, Day, c)));
    NatToStringRoundTrip(MsatToSat(WindowSum(data, Week, c)));
    NatToStringRoundTrip(MsatToSat(WindowSum(data, Month, c)));
  }

  /** The report does not depend on the order of the forwards. */
  lemma ReportOrderIndependent(channels: seq<Channel>, listChannels: string -> seq<Policy>,
                               forwards: seq<Forward>, reordered: seq<Forward>, ourId: NodeId, now: real)
    requires multiset(forwards) == multiset(reordered)
    ensures ReportOf(channels, listChannels, forwards, ourId, now) == ReportOf(channels, listChannels, reordered, ourId, now)
  {
    var c := StandardCutoffs(now);
    FeeDataPermutation(forwards, reordered);
    WindowSumPermutation(FeeData(forwards), FeeData(reordered), Day, c);
    WindowSumPermutation(FeeData(forwards), FeeData(reordered), Week, c);
    WindowSumPermutation(FeeData(forwards), FeeData(reordered), Month, c);
  }

  /** Adding an unsettled forward, or one without a resolution time, anywhere in
      the listing leaves the report unchanged. */
  lemma ReportIgnoresNonQualifying(channels: seq<Channel>, listChannels: string -> seq<Policy>,
                                   a: seq<Forward>, f: Forward, b: seq<Forward>, ourId: NodeId, now: real)
    requires !Qualifies(f)
    ensures ReportOf(channels, listChannels, a + [f] + b, ourId, now) == ReportOf(channels, listChannels, a + b, ourId, now)
  {
    NonQualifyingIgnored(a, f, b);
  }

  lemma SingleChannel(c: Channel, listChannels: string -> seq<Policy>, ourId: NodeId, rec: ChannelFee)
    requires ChannelEntry(c, listChannels, ourId) == Success(Some(rec))
    ensures ChannelFeesOf([c], listChannels, ourId) == Success([rec])
  {
    var cs := [c];
    assert cs[..0] == [];
    assert ChannelFeesOf(cs[..0], listChannels, ourId) == Success([]);
    assert [] + [rec] == [rec];
  }

  /** `"700000x1x0".split("x")` is `["700000", "1", "0"]`. */
  lemma ExampleSplit()
    ensures Split("700000x1x0", 'x') == ["700000", "1", "0"]
  {
    assert "700000" + ['x'] + "1x0" == "700000x1x0";
    assert "1" + ['x'] + "0" == "1x0";
    SplitAfterPiece("700000", 'x', "1x0");
    SplitAfterPiece("1", 'x', "0");
    SplitNoSeparator("0", 'x');
  }

  /** The channel point of the example channel below: funded by `abcd`,
      without `funding_output`, its id splitting into `700000`, `1` and `0`. */
  lemma ExampleChannelPoint(c: Channel)
    requires c.fundingTxid == "abcd" && c.fundingOutput.None?
    requires Split(c.shortChannelId, 'x') == ["700000", "1", "0"]
    ensures ChannelPoint(c) == Success("abcd:0")
  {
    assert ChannelPoint(c) == Success(c.fundingTxid + ":" + "0");
    ExamplePoint();
  }

  lemma ExamplePoint()
    ensures "abcd" + ":" + "0" == "abcd:0"
  {
  }

  /** The fee fields of the example policy below. */
  lemma ExampleFeeFields()
    ensures NatToString(1000) == "1000" && NatToString(100) == "100" && FeeRate(100) == "0.00010000"
  {
    TenThousand();
    FeeRateExample();
  }

  /** One channel funded by `abcd` without `funding_output`, whose id splits
      into `700000`, `1` and `0` (as `700000x1x0` does, by ExampleSplit), and
      whose listing holds the peer's policy and then ours (base 1000 msat,
      100 ppm), yields exactly one record: `abcd:0` with "1000", "100" and
      "0.00010000". */
  lemma ReportExample(scid: string, listChannels: string -> seq<Policy>, forwards: seq<Forward>,
                      ourId: NodeId, peerId: NodeId, now: real)
    requires Split(scid, 'x') == ["700000", "1", "0"]
    requires peerId != ourId
    requires listChannels(scid) == [Policy(peerId, 500, 1), Policy(ourId, 1000, 100)]
    ensures var r := ReportOf([Channel(scid, "abcd", None)], listChannels, forwards, ourId, now);
      r.Success? && r.value.channelFees == [ChannelFee("abcd:0", "1000", "100", "0.00010000")]
  {
    var c := Channel(scid, "abcd", None);
    var rec := ChannelFee("abcd:0", "1000", "100", "0.00010000");
    FirstOwnPolicyIsFirst(listChannels(c.shortChannelId), ourId, 1);
    ExampleChannelPoint(c);
    ExampleFeeFields();
    assert FeeRecord(c, Policy(ourId, 1000, 100)) == Success(rec);
    SingleChannel(c, listChannels, ourId, rec);
  }
}
