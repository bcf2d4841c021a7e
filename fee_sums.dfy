/** The forwarding half of the fee report: routing fees earned in the trailing
    day, week and month (feereport.py, lines 53-77). */
module FeeSums {
  import opened Wrappers

  /** An entry of `listforwards`; `resolved_time` (epoch seconds, fractional) is
      missing on forwards that never resolved and on daemons before v0.7.1. */
  datatype Forward = Forward(fee: nat, status: string, resolvedTime: Option<real>)

  /** The `(fee, resolved_time)` pair the filter yields for a qualifying forward. */
  datatype FeeDatum = FeeDatum(feeMsat: nat, resolvedTime: real)

  predicate Qualifies(f: Forward) {
    f.status == "settled" && f.resolvedTime.Some?
  }

  function Datum(f: Forward): FeeDatum
    requires Qualifies(f)
  {
    FeeDatum(f.fee, f.resolvedTime.value)
  }

  /** The filter of lines 53-55: the settled forwards that carry a resolution
      time, in listing order. */
  function FeeData(forwards: seq<Forward>): (data: seq<FeeDatum>)
    ensures |data| <= |forwards|
  {
    if forwards == [] then []
    else
      var f := forwards[|forwards| - 1];
      FeeData(forwards[..|forwards| - 1]) + (if Qualifies(f) then [Datum(f)] else [])
  }

  /** The three instants a forward must be resolved after to count in each window. */
  datatype Cutoffs = Cutoffs(dayAgo: real, weekAgo: real, monthAgo: real)

  const DaySeconds: real := 86400.0

  /** now - 24 hours, now - 7 days and now - 30 days. */
  function StandardCutoffs(now: real): (c: Cutoffs)
    ensures c.monthAgo < c.weekAgo < c.dayAgo < now
  {
    Cutoffs(now - DaySeconds, now - 7.0 * DaySeconds, now - 30.0 * DaySeconds)
  }

  datatype Window = Day | Week | Month

  /** Whether a resolution time reaches an accumulator through the nested
      strict comparisons of lines 66-70. */
  predicate InWindow(t: real, w: Window, c: Cutoffs) {
    match w
    case Month => t > c.monthAgo
    case Week => t > c.monthAgo && t > c.weekAgo
    case Day => t > c.monthAgo && t > c.weekAgo && t > c.dayAgo
  }

  /** What one datum adds to the accumulator of window `w`. */
  function Contribution(d: FeeDatum, w: Window, c: Cutoffs): nat {
    if InWindow(d.resolvedTime, w, c) then d.feeMsat else 0
  }

  /** Total fee, in msat, of the data whose time lies in window `w`. */
  function WindowSum(data: seq<FeeDatum>, w: Window, c: Cutoffs): nat {
    if data == [] then 0
    else WindowSum(data[..|data| - 1], w, c) + Contribution(data[|data| - 1], w, c)
  }

  /** Lines 53-71: filter the forwards, then add each fee to the month, week and
      day accumulators through nested strict comparisons with the cutoffs. */
  method SumFees(forwards: seq<Forward>, c: Cutoffs) returns (day: nat, week: nat, month: nat)
    ensures day == WindowSum(FeeData(forwards), Day, c)
    ensures week == WindowSum(FeeData(forwards), Week, c)
    ensures month == WindowSum(FeeData(forwards), Month, c)
  {
    var feeData := FeeData(forwards);
    day, week, month := 0, 0, 0;
    for i := 0 to |feeData|
      invariant day == WindowSum(feeData[..i], Day, c)
      invariant week == WindowSum(feeData[..i], Week, c)
      invariant month == WindowSum(feeData[..i], Month, c)
    {
      assert feeData[..i + 1][..i] == feeData[..i];
      var feeMsat := feeData[i].feeMsat;
      var resolvedTime := feeData[i].resolvedTime;
      if resolvedTime > c.monthAgo {
        month := month + feeMsat;
        if resolvedTime > c.weekAgo {
          week := week + feeMsat;
          if resolvedTime > c.dayAgo {
            day := day + feeMsat;
          }
        }
      }
    }
    assert feeData[..|feeData|] == feeData;
  }

  /** `int(msat / 1000)`: whole satoshi, truncating. */
  function MsatToSat(msat: nat): (sat: nat)
    ensures sat * 1000 <= msat < sat * 1000 + 1000
  {
    msat / 1000
  }

  // ---------------------------------------------------------------------------
  // Properties of the forward pass.
  // ---------------------------------------------------------------------------

  lemma {:induction false} FeeDataConcat(a: seq<Forward>, b: seq<Forward>)
    ensures FeeData(a + b) == FeeData(a) + FeeData(b)
  {
    if b != [] {
      var ab := a + b;
      assert ab[..|ab| - 1] == a + b[..|b| - 1];
      assert ab[|ab| - 1] == b[|b| - 1];
      FeeDataConcat(a, b[..|b| - 1]);
    } else {
      assert a + b == a;
    }
  }

  /** A forward that is not settled, or has no resolution time, is dropped by
      the filter wherever it stands, so it changes none of the sums. */
  lemma NonQualifyingIgnored(a: seq<Forward>, f: Forward, b: seq<Forward>)
    requires !Qualifies(f)
    ensures FeeData(a + [f] + b) == FeeData(a + b)
  {
    FeeDataConcat(a + [f], b);
    FeeDataConcat(a, [f]);
    FeeDataConcat(a, b);
    assert [f][..0] == [];
  }

  /** A settled forward with a resolution time is kept, in its place. */
  lemma QualifyingKept(a: seq<Forward>, f: Forward, b: seq<Forward>)
    requires Qualifies(f)
    ensures FeeData(a + [f] + b) == FeeData(a) + [Datum(f)] + FeeData(b)
  {
    FeeDataConcat(a + [f], b);
    FeeDataConcat(a, [f]);
    assert [f][..0] == [];
  }

  /** Finds in `b` an occurrence of the last element of `a`, a permutation of `b`;
      the rest of `a` is then a permutation of `b` without that occurrence. */
  lemma RemoveMatching<T>(a: seq<T>, b: seq<T>) returns (j: nat)
    requires a != [] && multiset(a) == multiset(b)
    ensures j < |b| && b[j] == a[|a| - 1]
    ensures multiset(a[..|a| - 1]) == multiset(b[..j] + b[j + 1..])
  {
    var n := |a| - 1;
    var x := a[n];
    assert x in multiset(b);
    j :| 0 <= j < |b| && b[j] == x;
    assert b == b[..j] + [x] + b[j + 1..];
    assert a == a[..n] + [x];
    assert multiset(b) == multiset(b[..j]) + multiset{x} + multiset(b[j + 1..]);
    assert multiset(b[..j] + b[j + 1..]) == multiset(b[..j]) + multiset(b[j + 1..]);
    assert multiset(a[..n]) == multiset(a) - multiset{x};
  }

  lemma SplitAround<T>(b: seq<T>, j: nat)
    requires j < |b|
    ensures b == b[..j] + [b[j]] + b[j + 1..]
  {
  }

  lemma FeeDataRemove(b: seq<Forward>, j: nat)
    requires j < |b|
    ensures multiset(FeeData(b)) == multiset(FeeData(b[..j] + b[j + 1..])) + multiset(FeeData([b[j]]))
  {
    var left, x, right := b[..j], b[j], b[j + 1..];
    SplitAround(b, j);
    FeeDataConcat(left + [x], right);
    FeeDataConcat(left, [x]);
    FeeDataConcat(left, right);
    ghost var l, m, r := FeeData(left), FeeData([x]), FeeData(right);
    assert FeeData(b) == l + m + r;
    assert FeeData(left + right) == l + r;
    assert multiset(l + m + r) == multiset(l) + multiset(m) + multiset(r);
    assert multiset(l + r) == multiset(l) + multiset(r);
  }

  lemma FeeDataLast(a: seq<Forward>)
    requires a != []
    ensures multiset(FeeData(a)) == multiset(FeeData(a[..|a| - 1])) + multiset(FeeData([a[|a| - 1]]))
  {
    assert [a[|a| - 1]][..0] == [];
  }

  /** Reordering the forwards reorders the filtered data the same way. */
  lemma {:induction false} FeeDataPermutation(a: seq<Forward>, b: seq<Forward>)
    requires multiset(a) == multiset(b)
    ensures multiset(FeeData(a)) == multiset(FeeData(b))
  {
    if a != [] {
      var n := |a| - 1;
      var j := RemoveMatching(a, b);
      FeeDataPermutation(a[..n], b[..j] + b[j + 1..]);
      FeeDataRemove(b, j);
      FeeDataLast(a);
    } else {
      assert b == [];
    }
  }

  lemma {:induction false} WindowSumConcat(a: seq<FeeDatum>, b: seq<FeeDatum>, w: Window, c: Cutoffs)
    ensures WindowSum(a + b, w, c) == WindowSum(a, w, c) + WindowSum(b, w, c)
  {
    if b != [] {
      var ab := a + b;
      assert ab[..|ab| - 1] == a + b[..|b| - 1];
      assert ab[|ab| - 1] == b[|b| - 1];
      WindowSumConcat(a, b[..|b| - 1], w, c);
    } else {
      assert a + b == a;
    }
  }

  lemma WindowSumRemove(b: seq<FeeDatum>, j: nat, w: Window, c: Cutoffs)
    requires j < |b|
    ensures WindowSum(b, w, c) == WindowSum(b[..j] + b[j + 1..], w, c) + Contribution(b[j], w, c)
  {
    assert b == b[..j] + [b[j]] + b[j + 1..];
    WindowSumConcat(b[..j] + [b[j]], b[j + 1..], w, c);
    WindowSumConcat(b[..j], [b[j]], w, c);
    WindowSumConcat(b[..j], b[j + 1..], w, c);
    assert [b[j]][..0] == [];
  }

  /** Each sum is the total of its window whatever order the forwards come in. */
  lemma {:induction false} WindowSumPermutation(a: seq<FeeDatum>, b: seq<FeeDatum>, w: Window, c: Cutoffs)
    requires multiset(a) == multiset(b)
    ensures WindowSum(a, w, c) == WindowSum(b, w, c)
  {
    if a != [] {
      var n := |a| - 1;
      var j := RemoveMatching(a, b);
      WindowSumPermutation(a[..n], b[..j] + b[j + 1..], w, c);
      WindowSumRemove(b, j, w, c);
    } else {
      assert b == [];
    }
  }

  /** The windows are cumulative: the day sum is part of the week sum, which is
      part of the month sum. */
  lemma {:induction false} WindowsNest(data: seq<FeeDatum>, c: Cutoffs)
    ensures WindowSum(data, Day, c) <= WindowSum(data, Week, c) <= WindowSum(data, Month, c)
  {
    if data != [] {
      WindowsNest(data[..|data| - 1], c);
    }
  }

  /** With the standard cutoffs each window is "resolved strictly after now minus
      its length"; a time equal to a cutoff is outside that window. */
  lemma StandardWindows(now: real, t: real)
    ensures InWindow(t, Day, StandardCutoffs(now)) <==> t > now - 86400.0
    ensures InWindow(t, Week, StandardCutoffs(now)) <==> t > now - 604800.0
    ensures InWindow(t, Month, StandardCutoffs(now)) <==> t > now - 2592000.0
  {
  }

  /** A forward 2 hours old counts in all three sums, 5 days old in the week and
      month sums, 20 days old in the month sum only, 40 days old in none. */
  lemma WindowExamples(now: real, fee: nat)
    ensures var c := StandardCutoffs(now);
      && var d := [FeeDatum(fee, now - 7200.0)];
         WindowSum(d, Day, c) == fee && WindowSum(d, Week, c) == fee && WindowSum(d, Month, c) == fee
    ensures var c := StandardCutoffs(now);
      && var d := [FeeDatum(fee, now - 5.0 * DaySeconds)];
         WindowSum(d, Day, c) == 0 && WindowSum(d, Week, c) == fee && WindowSum(d, Month, c) == fee
    ensures var c := StandardCutoffs(now);
      && var d := [FeeDatum(fee, now - 20.0 * DaySeconds)];
         WindowSum(d, Day, c) == 0 && WindowSum(d, Week, c) == 0 && WindowSum(d, Month, c) == fee
    ensures var c := StandardCutoffs(now);
      && var d := [FeeDatum(fee, now - 40.0 * DaySeconds)];
         WindowSum(d, Day, c) == 0 && WindowSum(d, Week, c) == 0 && WindowSum(d, Month, c) == 0
  {
  }

  /** 1999 msat is reported as 1 sat. */
  lemma MsatToSatExample()
    ensures MsatToSat(1999) == 1
  {
  }
}
