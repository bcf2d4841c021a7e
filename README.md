# Fee report model

This project is a Dafny model of the `feereport` RPC method of the c-lightning
plugin `feereport.py`. The method emulates LND's `lncli feereport`:

- For every funded channel, it reports the fee policy our node announces.
  That is the channel point, the base fee, the proportional fee in parts per
  million, and that fee as a rate with eight decimals.
- It reports the routing fees our node earned in the trailing day, week and
  month, in whole satoshi.

The daemon's answers are inputs to the model:

- `listfunds` channels become `seq<Channel>`.
- `listchannels(short_channel_id)` becomes a function `string -> seq<Policy>`.
- `listforwards` forwards become `seq<Forward>`.
- Our node id and the current time `now` (epoch seconds, as a real) are also
  inputs.

Modules:

- `Wrappers`: `Option` and `Result`.
- `Text`: decimal rendering of naturals (`str()` of an integer), an exact
  eight-decimal fixed-point rendering (`"%.8f"`), and Python's
  `str.split`/`join` on one separator character.
- `ChannelFees` models lines 29-51:
  - Two specification functions. `ChannelEntry` gives what one channel adds:
    nothing, one record, or the `IndexError` case. `ChannelFeesOf` folds that
    contribution over the channels in order.
  - The imperative method `CollectChannelFees`, with the source's nested loop
    and early `break`, proved equal to `ChannelFeesOf`.
- `FeeSums` models lines 53-77:
  - the settled-forward filter `FeeData`;
  - the nested-window accumulator `SumFees`, proved equal to the per-window
    totals `WindowSum`;
  - the msat-to-sat truncation.
- `FeeReport` models the whole method (lines 25-78). `GenerateReport` is proved
  equal to `ReportOf`, and the module holds the properties of the whole report.

The short channel id is split on the character `x` (line 41), for example
`700000x1x0`, and the model follows that code.

When `funding_output` is missing and the id has fewer than three pieces,
`short_channel_id_parts[2]` raises `IndexError` and the RPC call fails. The
model keeps this as an error result, `ShortChannelIdTooShort`, instead of
excluding such inputs.

## Model

| member | source | states |
|---|---|---|
| ChannelFees.FirstOwnIndex | feereport.py:33-34 | the scan stops at the first policy whose source is our node: every earlier policy is someone else's, and the one at the index is ours, unless the index is the end of the list |
| ChannelFees.FirstOwnPolicyIsFirst | feereport.py:33-34 | if the policy at k is ours and none before it is, that policy is the one selected, whatever follows it |
| ChannelFees.NoOwnEntry | feereport.py:33-34 | a channel none of whose policies is sourced by our node contributes nothing: no record, no placeholder, no error |
| ChannelFees.OwnEntry | feereport.py:33-51 | a channel whose first own policy is at position j contributes exactly the record built from that policy, or, when the output index cannot be found, fails with that error |
| ChannelFees.CollectChannelFees | feereport.py:29-51 | the nested loop with `break` returns exactly `ChannelFeesOf`: the records of the channels in order, or the first `IndexError` |
| ChannelFees.ChannelFeesOrder | feereport.py:31-51 | on success, `channel_fees` is the subsequence of the channels, in listing order, that have a policy of ours: each record sits at an increasing channel position, is that channel's record, and every channel with a policy of ours is listed |
| ChannelFees.ChannelFeesBound | feereport.py:31-51 | there are at most as many records as channels, and no records when no channel has a policy of ours (no placeholder, no error) |
| ChannelFees.CollectedEntryIsSuccess | feereport.py:31-51 | when the whole pass succeeds, no channel's step failed |
| ChannelFees.CollectFailure | feereport.py:31-51 | a pass fails if and only if one of its per-channel steps fails |
| ChannelFees.ChannelFeesFailure | feereport.py:34-42 | the pass fails if and only if some channel has a policy of ours, lacks `funding_output`, and its id does not split into three pieces |
| ChannelFees.FailurePersists | feereport.py:41-42 | once an `IndexError` is raised at some channel, that failure is the result of the whole pass |
| ChannelFees.FundingOutputFails | feereport.py:36-42 | finding the output index fails if and only if `funding_output` is absent and the id has fewer than two `x` separators |
| ChannelFees.ChannelPointFormat | feereport.py:36-45 | `chan_point` is `funding_txid:str(funding_output)` when the field is present, and otherwise `funding_txid:` followed by the third piece of an id written `a x b x c …` |
| ChannelFees.FeeRecordFields | feereport.py:44-48 | `chan_point` is the channel point; `base_fee_msat` and `fee_per_mil` are digit strings that read back as the policy's base fee and ppm; `fee_rate` is the rendering of ppm / 1,000,000 |
| ChannelFees.FeeRateShape | feereport.py:48 | `fee_rate` is the whole part ppm / 1,000,000, a point and exactly eight digits; all its digits read together give ppm * 100, so the string denotes ppm / 1,000,000 exactly |
| ChannelFees.FeeRateExample | feereport.py:48 | 100 ppm is rendered `"0.00010000"` |
| ChannelFees.EntriesAt | feereport.py:31 | a channel's contribution is at the channel's own position in the listing |
| ChannelFees.ChannelFeesCollect | feereport.py:31-51 | the pass equals collecting the per-channel contributions in listing order, stopping at the first failure |
| ChannelFees.ChannelFeesPrefixStep | feereport.py:31-51 | the pass over the first i + 1 channels is the pass over the first i, extended by channel i's contribution |
| FeeSums.FeeDataConcat | feereport.py:53-55 | the filter is applied forward by forward: filtering a concatenation concatenates the filtered parts |
| FeeSums.NonQualifyingIgnored | feereport.py:53-55 | a forward that is not settled, or has no `resolved_time`, is dropped wherever it stands |
| FeeSums.QualifyingKept | feereport.py:53-55 | a settled forward with a `resolved_time` is kept as its `(fee, resolved_time)` pair, in its place |
| FeeSums.FeeDataPermutation | feereport.py:53-55 | reordering the forwards reorders the filtered data the same way (same multiset) |
| FeeSums.StandardCutoffs | feereport.py:56-59 | the cutoffs are ordered `month_ago < week_ago < day_ago < now` |
| FeeSums.StandardWindows | feereport.py:56-71 | with the standard cutoffs, a time counts in the day, week or month sum if and only if it lies strictly after now minus 24 hours, 7 days or 30 days respectively |
| FeeSums.WindowExamples | feereport.py:56-71 | a fee resolved 2 hours ago counts in all three sums; 5 days ago, in the week and month sums; 20 days ago, in the month sum only; 40 days ago, in none |
| FeeSums.SumFees | feereport.py:60-71 | the loop with nested `>` tests leaves in each accumulator the total fee of the filtered data in that window |
| FeeSums.WindowSumConcat | feereport.py:63-71 | a window's total over two concatenated lists is the sum of the two totals |
| FeeSums.WindowSumPermutation | feereport.py:63-71 | a window's total does not depend on the order of the data |
| FeeSums.WindowsNest | feereport.py:66-71 | the windows are cumulative: day total ≤ week total ≤ month total |
| FeeSums.MsatToSat | feereport.py:75-77 | `int(x / 1000)` is the whole number of satoshi: `sat * 1000 <= msat < sat * 1000 + 1000` |
| FeeSums.MsatToSatExample | feereport.py:75 | 1999 msat is reported as 1 sat |
| FeeReport.GenerateReport | feereport.py:25-78 | the method's result is exactly `ReportOf`: the channel pass's failure, or its records with the three truncated window sums |
| FeeReport.ReportSums | feereport.py:60-77 | each reported sum is a digit string whose value times 1000 is within 1000 below its window's msat total, and the day value ≤ the week value ≤ the month value |
| FeeReport.ReportOrderIndependent | feereport.py:53-77 | the report is the same for any reordering of the forwards |
| FeeReport.ReportIgnoresNonQualifying | feereport.py:53-77 | adding an unsettled or timeless forward anywhere leaves the whole report unchanged |
| FeeReport.ExampleSplit | feereport.py:41 | `"700000x1x0".split("x")` is `["700000", "1", "0"]` |
| FeeReport.ExampleChannelPoint | feereport.py:36-45 | a channel funded by `abcd`, without `funding_output`, whose id splits into `700000`, `1`, `0` has point `"abcd:0"` |
| FeeReport.ReportExample | feereport.py:29-51 | for one such channel whose listing has a peer's policy first and ours (1000 msat, 100 ppm) second, the record is built from ours: `abcd:0`, `"1000"`, `"100"`, `"0.00010000"` |
| Text.NatToString | feereport.py:37 | `str()` of a natural is a non-empty digit string with no leading zero, except for "0" itself |
| Text.NatToStringRoundTrip | feereport.py:46-47 | reading the decimal rendering back gives the number |
| Text.NatToStringInjective | feereport.py:46-47 | distinct numbers render as distinct strings |
| Text.FixedPoint8Shape | feereport.py:48 | the eight-decimal rendering of v / 10^8 has the whole part, a point, and eight digits; all its digits together read as v |
| Text.Split | feereport.py:41 | `split` yields at least one piece, and none of the pieces contains the separator |
| Text.SplitLength | feereport.py:41-42 | `split` yields one piece more than there are separators |
| Text.JoinSplit | feereport.py:41 | joining the pieces of a split with the separator gives back the string |
| Text.SplitJoin | feereport.py:41-42 | splitting a join of separator-free pieces gives back those pieces |

## Left out

- `init()` (lines 80-93): it opens the RPC socket, calls `getinfo` and compares versions; this is startup I/O. Our node id is a parameter instead.
- The version warning for daemons older than v0.7.1 (lines 91-93) is startup I/O.
- Plugin registration and `plugin.run()` (lines 22, 25, 80, 95) are host-protocol plumbing.
- The `listfunds`, `listchannels` and `listforwards` calls (lines 29, 32, 54) are I/O; their JSON answers are parameters.
- `datetime.now()` is a clock, so `now` is a parameter.
- `StandardCutoffs` subtracts exactly 86400 s, 604800 s and 2592000 s. The source subtracts `timedelta`s from a naive local time and converts back with `timestamp()`, so across a daylight-saving change its cutoffs can differ from this by the clock shift.
- Floating point. `FeeRate` renders ppm * 100 / 10^8 exactly, where the source formats the float `ppm / 1000000` with `"%.8f"`. The true value has exactly eight decimals and the float's error is far below half a unit of the eighth decimal for any 32-bit ppm, so the two renderings agree.
- `MsatToSat` divides whole integers, where the source truncates the float `sum / 1000`. The two agree for totals below 10^15 msat.
- `resolved_time > cutoff` is compared on reals, not on doubles.
- `KeyError` on a missing `short_channel_id`, `funding_txid`, `status`, `fee`, `source`, `base_fee_millisatoshi` or `fee_per_millionth` is not modelled, because every such field is a datatype field and is always present. Only `funding_output` and `resolved_time` are optional, as in the source, and both are `Option`s.
- Fees, base fees, ppm and output indices are unbounded naturals; the daemon reports them as unsigned integers.
- `rpc.listchannels` is modelled as a pure function of the short channel id. The model does not capture the daemon's answers changing between calls.
