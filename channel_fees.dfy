/** The per-channel half of the fee report: for every funded channel, the fee
    policy this node announces for it (feereport.py, lines 29-51). */
module ChannelFees {
  import opened Wrappers
  import opened Text

  type NodeId = string

  /** An entry of `listfunds`' `channels`; `funding_output` is missing on old daemons. */
  datatype Channel = Channel(shortChannelId: string, fundingTxid: string, fundingOutput: Option<nat>)

  /** One direction of a channel as `listchannels(short_channel_id)` reports it. */
  datatype Policy = Policy(source: NodeId, baseFeeMsat: nat, feePerMillionth: nat)

  /** An element of the report's `channel_fees`; every field is a string. */
  datatype ChannelFee = ChannelFee(chanPoint: string, baseFeeMsat: string, feePerMil: string, feeRate: string)

  /** The one failure the channel pass can raise: indexing the third piece of a
      short channel id that has fewer than three `x`-separated pieces. */
  datatype Error = ShortChannelIdTooShort(shortChannelId: string)

  /** Position of the first policy whose source is our node, or |details| if none is. */
  function FirstOwnIndex(details: seq<Policy>, ourId: NodeId): (k: nat)
    ensures k <= |details|
    ensures forall j :: 0 <= j < k ==> details[j].source != ourId
    ensures k < |details| ==> details[k].source == ourId
  {
    if details == [] then 0
    else if details[0].source == ourId then 0
    else 1 + FirstOwnIndex(details[1..], ourId)
  }

  /** The policy the scan of one channel's listing stops at, if any. */
  function FirstOwnPolicy(details: seq<Policy>, ourId: NodeId): Option<Policy> {
    var k := FirstOwnIndex(details, ourId);
    if k < |details| then Some(details[k]) else None
  }

  predicate HasOwnPolicy(c: Channel, listChannels: string -> seq<Policy>, ourId: NodeId) {
    FirstOwnPolicy(listChannels(c.shortChannelId), ourId).Some?
  }

  /** The funding output index as a string: the explicit field when present,
      otherwise the third `x`-separated piece of the short channel id. */
  function FundingOutput(c: Channel): Result<string, Error> {
    match c.fundingOutput
    case Some(n) => Success(NatToString(n))
    case None =>
      var parts := Split(c.shortChannelId, 'x');
      if |parts| >= 3 then Success(parts[2]) else Failure(ShortChannelIdTooShort(c.shortChannelId))
  }

  function ChannelPoint(c: Channel): Result<string, Error> {
    match FundingOutput(c)
    case Success(out) => Success(c.fundingTxid + ":" + out)
    case Failure(e) => Failure(e)
  }

  /** `"%.8f" % (ppm / 1000000)`, computed exactly. */
  function FeeRate(ppm: nat): string {
    FixedPoint8(ppm * 100)
  }

  function FeeRecord(c: Channel, p: Policy): Result<ChannelFee, Error> {
    match ChannelPoint(c)
    case Success(point) =>
      Success(ChannelFee(point, NatToString(p.baseFeeMsat), NatToString(p.feePerMillionth), FeeRate(p.feePerMillionth)))
    case Failure(e) => Failure(e)
  }

  /** What one channel adds to `channel_fees`: nothing, one record, or a failure. */
  function ChannelEntry(c: Channel, listChannels: string -> seq<Policy>, ourId: NodeId): Result<Option<ChannelFee>, Error> {
    match FirstOwnPolicy(listChannels(c.shortChannelId), ourId)
    case None => Success(None)
    case Some(p) =>
      match FeeRecord(c, p)
      case Success(f) => Success(Some(f))
      case Failure(e) => Failure(e)
  }

  /** `f` applied to every element of `s`, in order. */
  function MapSeq<A, B>(f: A -> B, s: seq<A>): (r: seq<B>)
    ensures |r| == |s|
  {
    if s == [] then [] else MapSeq(f, s[..|s| - 1]) + [f(s[|s| - 1])]
  }

  lemma {:induction false} MapSeqAt<A, B>(f: A -> B, s: seq<A>, i: nat)
    requires i < |s|
    ensures MapSeq(f, s)[i] == f(s[i])
  {
    var n := |s| - 1;
    if i < n {
      assert s[..n][i] == s[i];
      MapSeqAt(f, s[..n], i);
    }
  }

  /** What each channel contributes, in listing order. */
  function Entries(channels: seq<Channel>, listChannels: string -> seq<Policy>, ourId: NodeId): seq<Result<Option<ChannelFee>, Error>> {
    MapSeq(c => ChannelEntry(c, listChannels, ourId), channels)
  }

  /** A channel's contribution is at the channel's own position. */
  lemma EntriesAt(channels: seq<Channel>, listChannels: string -> seq<Policy>, ourId: NodeId, i: nat)
    requires i < |channels|
    ensures |Entries(channels, listChannels, ourId)| == |channels|
    ensures Entries(channels, listChannels, ourId)[i] == ChannelEntry(channels[i], listChannels, ourId)
  {
    MapSeqAt(c => ChannelEntry(c, listChannels, ourId), channels, i);
  }

  /** The list built so far after one more channel's contribution. */
  function Extend(acc: Result<seq<ChannelFee>, Error>, entry: Result<Option<ChannelFee>, Error>): Result<seq<ChannelFee>, Error> {
    match acc
    case Failure(e) => Failure(e)
    case Success(fees) =>
      match entry
      case Failure(e) => Failure(e)
      case Success(None) => Success(fees)
      case Success(Some(f)) => Success(fees + [f])
  }

  /** The records of a sequence of contributions in order, or the first failure. */
  function Collect(entries: seq<Result<Option<ChannelFee>, Error>>): (r: Result<seq<ChannelFee>, Error>)
    ensures r.Success? ==> |r.value| <= |entries|
  {
    if entries == [] then Success([])
    else Extend(Collect(entries[..|entries| - 1]), entries[|entries| - 1])
  }

  /** The `channel_fees` list for the channels in listing order, or the first failure. */
  function ChannelFeesOf(channels: seq<Channel>, listChannels: string -> seq<Policy>, ourId: NodeId): Result<seq<ChannelFee>, Error> {
    if channels == [] then Success([])
    else Extend(ChannelFeesOf(channels[..|channels| - 1], listChannels, ourId),
                ChannelEntry(channels[|channels| - 1], listChannels, ourId))
  }

  /** The pass collects the channels' contributions in listing order. */
  lemma {:induction false} ChannelFeesCollect(channels: seq<Channel>, listChannels: string -> seq<Policy>, ourId: NodeId)
    ensures ChannelFeesOf(channels, listChannels, ourId) == Collect(Entries(channels, listChannels, ourId))
  {
    if channels != [] {
      var init := channels[..|channels| - 1];
      ChannelFeesCollect(init, listChannels, ourId);
      var es := Entries(channels, listChannels, ourId);
      assert es[..|es| - 1] == Entries(init, listChannels, ourId);
      EntriesAt(channels, listChannels, ourId, |channels| - 1);
    }
  }

  /** Once a prefix of the channels fails, the whole pass fails with that error. */
  lemma {:induction false} FailurePersists(channels: seq<Channel>, n: nat, listChannels: string -> seq<Policy>, ourId: NodeId)
    requires n <= |channels|
    requires ChannelFeesOf(channels[..n], listChannels, ourId).Failure?
    ensures ChannelFeesOf(channels, listChannels, ourId) == ChannelFeesOf(channels[..n], listChannels, ourId)
  {
    if n < |channels| {
      var init := channels[..|channels| - 1];
      assert init[..n] == channels[..n];
      FailurePersists(init, n, listChannels, ourId);
    } else {
      assert channels[..n] == channels;
    }
  }

  /** A channel none of whose policies is ours contributes nothing. */
  lemma NoOwnEntry(c: Channel, listChannels: string -> seq<Policy>, ourId: NodeId)
    requires forall k :: 0 <= k < |listChannels(c.shortChannelId)| ==> listChannels(c.shortChannelId)[k].source != ourId
    ensures ChannelEntry(c, listChannels, ourId) == Success(None)
  {
    assert FirstOwnIndex(listChannels(c.shortChannelId), ourId) == |listChannels(c.shortChannelId)|;
  }

  /** A channel whose first own policy is at j contributes the record built
      from that policy, or fails when its output index cannot be found. */
  lemma OwnEntry(c: Channel, listChannels: string -> seq<Policy>, ourId: NodeId, j: nat)
    requires j < |listChannels(c.shortChannelId)| && listChannels(c.shortChannelId)[j].source == ourId
    requires forall k :: 0 <= k < j ==> listChannels(c.shortChannelId)[k].source != ourId
    ensures var p := listChannels(c.shortChannelId)[j];
      match FundingOutput(c)
      case Failure(e) => ChannelEntry(c, listChannels, ourId) == Failure(e)
      case Success(out) =>
        ChannelEntry(c, listChannels, ourId)
          == Success(Some(ChannelFee(c.fundingTxid + ":" + out, NatToString(p.baseFeeMsat),
                                     NatToString(p.feePerMillionth), FeeRate(p.feePerMillionth))))
  {
    FirstOwnPolicyIsFirst(listChannels(c.shortChannelId), ourId, j);
  }

  /** The pass over the first i + 1 channels extends the pass over the first i. */
  lemma ChannelFeesPrefixStep(channels: seq<Channel>, i: nat, listChannels: string -> seq<Policy>, ourId: NodeId)
    requires i < |channels|
    ensures ChannelFeesOf(channels[..i + 1], listChannels, ourId)
         == Extend(ChannelFeesOf(channels[..i], listChannels, ourId), ChannelEntry(channels[i], listChannels, ourId))
  {
    assert channels[..i + 1][..i] == channels[..i];
  }

  /** The loops of lines 29-51: for each channel, scan its policies, append one
      record for the first policy sourced by our node and stop scanning. */
  method CollectChannelFees(channels: seq<Channel>, listChannels: string -> seq<Policy>, ourId: NodeId)
    returns (r: Result<seq<ChannelFee>, Error>)
    ensures r == ChannelFeesOf(channels, listChannels, ourId)
  {
    var channelFees: seq<ChannelFee> := [];
    var i := 0;
    while i < |channels|
      invariant 0 <= i <= |channels|
      invariant ChannelFeesOf(channels[..i], listChannels, ourId) == Success(channelFees)
    {
      var channel := channels[i];
      var channelDetail := listChannels(channel.shortChannelId);
      ghost var before := channelFees;
      var j := 0;
      while j < |channelDetail|
        invariant 0 <= j <= |channelDetail|
        invariant forall k :: 0 <= k < j ==> channelDetail[k].source != ourId
        invariant channelFees == before
      {
        var detail := channelDetail[j];
        if detail.source == ourId {
          OwnEntry(channel, listChannels, ourId, j);
          ChannelFeesPrefixStep(channels, i, listChannels, ourId);
          var fundingOutput: string;
          match channel.fundingOutput {
            case Some(n) =>
              fundingOutput := NatToString(n);
            case None =>
              var parts := Split(channel.shortChannelId, 'x');
              if |parts| < 3 {
                r := Failure(ShortChannelIdTooShort(channel.shortChannelId));
                FailurePersists(channels, i + 1, listChannels, ourId);
                return;
              }
              fundingOutput := parts[2];
          }
          channelFees := channelFees + [ChannelFee(
            channel.fundingTxid + ":" + fundingOutput,
            NatToString(detail.baseFeeMsat),
            NatToString(detail.feePerMillionth),
            FeeRate(detail.feePerMillionth))];
          break;
        }
        j := j + 1;
      }
      if j == |channelDetail| {
        NoOwnEntry(channel, listChannels, ourId);
        ChannelFeesPrefixStep(channels, i, listChannels, ourId);
      }
      i := i + 1;
    }
    assert channels[..i] == channels;
    r := Success(channelFees);
  }

  // ---------------------------------------------------------------------------
  // Properties of the channel pass.
  // ---------------------------------------------------------------------------

  /** The selected policy is the first one sourced by our node: later entries,
      even if also sourced by our node, are never looked at. */
  lemma FirstOwnPolicyIsFirst(details: seq<Policy>, ourId: NodeId, k: nat)
    requires k < |details| && details[k].source == ourId
    requires forall j :: 0 <= j < k ==> details[j].source != ourId
    ensures FirstOwnPolicy(details, ourId) == Some(details[k])
  {
  }

  /** `idx` lists, in increasing order, exactly the positions of the
      contributions that are records, and `fees[k]` is the record at `idx[k]`. */
  predicate RecordPositions(entries: seq<Result<Option<ChannelFee>, Error>>, fees: seq<ChannelFee>, idx: seq<nat>) {
    && |idx| == |fees|
    && (forall k :: 0 <= k < |idx| ==> idx[k] < |entries| && entries[idx[k]] == Success(Some(fees[k])))
    && (forall k, l :: 0 <= k < l < |idx| ==> idx[k] < idx[l])
    && (forall i :: 0 <= i < |entries| && entries[i].Success? && entries[i].value.Some? ==> i in idx)
  }

  lemma {:induction false} CollectPositions(entries: seq<Result<Option<ChannelFee>, Error>>) returns (idx: seq<nat>)
    requires Collect(entries).Success?
    ensures RecordPositions(entries, Collect(entries).value, idx)
  {
    if entries == [] {
      idx := [];
    } else {
      var n := |entries| - 1;
      var init := entries[..n];
      var pre := CollectPositions(init);
      var fees := Collect(init).value;
      assert forall i :: 0 <= i < n ==> init[i] == entries[i];
      if entries[n].value.None? {
        idx := pre;
      } else {
        var f := entries[n].value.value;
        idx := pre + [n];
        assert Collect(entries).value == fees + [f];
        forall i | 0 <= i < |entries| && entries[i].Success? && entries[i].value.Some?
          ensures i in idx
        {
          if i < n {
            assert i in pre;
          } else {
            assert idx[|pre|] == i;
          }
        }
      }
    }
  }

  /** `channel_fees` is the subsequence of the channels, in listing order, that
      have a policy sourced by our node, each mapped to its record: the result
      lists exactly those channels, each once, with increasing positions. */
  lemma ChannelFeesOrder(channels: seq<Channel>, listChannels: string -> seq<Policy>, ourId: NodeId)
    returns (idx: seq<nat>)
    requires ChannelFeesOf(channels, listChannels, ourId).Success?
    ensures var fees := ChannelFeesOf(channels, listChannels, ourId).value;
      && |idx| == |fees|
      && (forall k :: 0 <= k < |idx| ==>
            (idx[k] < |channels| && ChannelEntry(channels[idx[k]], listChannels, ourId) == Success(Some(fees[k]))))
      && (forall k, l :: 0 <= k < l < |idx| ==> idx[k] < idx[l])
      && (forall i :: 0 <= i < |channels| && HasOwnPolicy(channels[i], listChannels, ourId) ==> i in idx)
  {
    var entries := Entries(channels, listChannels, ourId);
    ChannelFeesCollect(channels, listChannels, ourId);
    idx := CollectPositions(entries);
    forall k | 0 <= k < |idx|
      ensures ChannelEntry(channels[idx[k]], listChannels, ourId) == entries[idx[k]]
    {
      EntriesAt(channels, listChannels, ourId, idx[k]);
    }
    forall i | 0 <= i < |channels| && HasOwnPolicy(channels[i], listChannels, ourId)
      ensures i in idx
    {
      EntriesAt(channels, listChannels, ourId, i);
      CollectedEntryIsSuccess(entries, i);
    }
  }

  /** When the whole collection succeeds, every contribution did. */
  lemma {:induction false} CollectedEntryIsSuccess(entries: seq<Result<Option<ChannelFee>, Error>>, i: nat)
    requires i < |entries| && Collect(entries).Success?
    ensures entries[i].Success?
  {
    var n := |entries| - 1;
    if i < n {
      assert entries[..n][i] == entries[i];
      CollectedEntryIsSuccess(entries[..n], i);
    }
  }

  /** Each channel contributes at most one record, so there are never more
      records than channels; with no policy of ours anywhere there are none. */
  lemma ChannelFeesBound(channels: seq<Channel>, listChannels: string -> seq<Policy>, ourId: NodeId)
    requires ChannelFeesOf(channels, listChannels, ourId).Success?
    ensures |ChannelFeesOf(channels, listChannels, ourId).value| <= |channels|
    ensures (forall i :: 0 <= i < |channels| ==> !HasOwnPolicy(channels[i], listChannels, ourId))
            ==> ChannelFeesOf(channels, listChannels, ourId).value == []
  {
    var idx := ChannelFeesOrder(channels, listChannels, ourId);
    if |idx| > 0 {
      var c := channels[idx[0]];
      assert ChannelEntry(c, listChannels, ourId).Success? && ChannelEntry(c, listChannels, ourId).value.Some?;
      assert HasOwnPolicy(c, listChannels, ourId);
    }
  }

  /** A collection fails exactly when one of its contributions does. */
  lemma {:induction false} CollectFailure(entries: seq<Result<Option<ChannelFee>, Error>>)
    ensures Collect(entries).Failure? <==> exists i :: 0 <= i < |entries| && entries[i].Failure?
  {
    if entries != [] {
      var n := |entries| - 1;
      var init := entries[..n];
      CollectFailure(init);
      assert forall i :: 0 <= i < n ==> init[i] == entries[i];
    }
  }

  /** A channel on which the pass raises: it has a policy sourced by our node,
      so its output index is looked up, and the lookup fails. */
  predicate RaisesOn(c: Channel, listChannels: string -> seq<Policy>, ourId: NodeId) {
    HasOwnPolicy(c, listChannels, ourId) && FundingOutput(c).Failure?
  }

  /** The pass fails exactly when some channel that has a policy sourced by our
      node lacks `funding_output` and has a short channel id too short to index. */
  lemma ChannelFeesFailure(channels: seq<Channel>, listChannels: string -> seq<Policy>, ourId: NodeId)
    ensures ChannelFeesOf(channels, listChannels, ourId).Failure?
        <==> exists i :: 0 <= i < |channels| && RaisesOn(channels[i], listChannels, ourId)
  {
    var entries := Entries(channels, listChannels, ourId);
    ChannelFeesCollect(channels, listChannels, ourId);
    CollectFailure(entries);
    forall i | 0 <= i < |channels|
      ensures entries[i].Failure? <==> RaisesOn(channels[i], listChannels, ourId)
    {
      EntriesAt(channels, listChannels, ourId, i);
    }
  }

  /** Without `funding_output`, finding the output index fails exactly when the
      short channel id has fewer than two `x` separators. */
  lemma FundingOutputFails(c: Channel)
    ensures FundingOutput(c).Failure? <==> c.fundingOutput.None? && Count(c.shortChannelId, 'x') < 2
  {
    SplitLength(c.shortChannelId, 'x');
  }

  /** The channel point is `<funding_txid>:<output>`, the output being the
      explicit `funding_output` or else the third piece of a short channel id
      written `<block>x<tx>x<output>`. */
  lemma ChannelPointFormat(c: Channel, parts: seq<string>)
    requires c.fundingOutput.None? ==> |parts| >= 3 && c.shortChannelId == Join(parts, 'x')
    requires forall i :: 0 <= i < |parts| ==> 'x' !in parts[i]
    ensures c.fundingOutput.Some? ==> ChannelPoint(c) == Success(c.fundingTxid + ":" + NatToString(c.fundingOutput.value))
    ensures c.fundingOutput.None? ==> ChannelPoint(c) == Success(c.fundingTxid + ":" + parts[2])
  {
    if c.fundingOutput.None? {
      SplitJoin(parts, 'x');
    }
  }

  /** The fee rate is the whole part ppm / 1,000,000, a point and exactly
      eight fractional digits; all its digits read as one integer give
      ppm * 100, so the string denotes ppm / 1,000,000 exactly. */
  lemma FeeRateShape(ppm: nat) returns (ip: string, frac: string)
    ensures FeeRate(ppm) == ip + "." + frac
    ensures ip == NatToString(ppm / 1_000_000)
    ensures |frac| == 8 && AllDigits(frac)
    ensures DigitsValue(ip) * 100_000_000 + DigitsValue(frac) == ppm * 100
  {
    var v := ppm * 100;
    ip, frac := FixedPoint8Shape(v);
    assert v / 100_000_000 == ppm / 1_000_000;
  }

  /** The record's fee fields are decimal renderings of the selected policy:
      reading them back gives the base fee and ppm, and the fee rate is the
      eight-decimal rendering of ppm / 1,000,000. */
  lemma FeeRecordFields(c: Channel, p: Policy)
    requires FeeRecord(c, p).Success?
    ensures var f := FeeRecord(c, p).value;
      && Success(f.chanPoint) == ChannelPoint(c)
      && AllDigits(f.baseFeeMsat) && DigitsValue(f.baseFeeMsat) == p.baseFeeMsat
      && AllDigits(f.feePerMil) && DigitsValue(f.feePerMil) == p.feePerMillionth
      && f.feeRate == FeeRate(p.feePerMillionth)
  {
    NatToStringRoundTrip(p.baseFeeMsat);
    NatToStringRoundTrip(p.feePerMillionth);
  }

  /** 100 ppm is reported as the rate "0.00010000". */
  lemma FeeRateExample()
    ensures FeeRate(100) == "0.00010000"
  {
    assert 100 * 100 / 100_000_000 == 0 && 100 * 100 % 100_000_000 == 10000;
    assert NatToString(0) == "0";
    TenThousand();
    assert Zeros(3) == "000" by {
      assert Zeros(1) == "0";
      assert Zeros(2) == "00";
    }
    assert PadLeft("10000", 8) == "000" + "10000";
  }

  lemma TenThousand()
    ensures NatToString(100) == "100" && NatToString(1000) == "1000" && NatToString(10000) == "10000"
  {
    assert NatToString(1) == "1";
    assert NatToString(10) == "10";
    assert NatToString(100) == "100";
    assert NatToString(1000) == "1000";
  }
}
