/**
 * The statistics `getContextSummary` computes over the visible fires: confidence buckets,
 * satellites, the most recent detections, the elevation range and the land-cover tally.
 */
module ViewSummary {
  import opened Common
  import opened Sequences
  import opened FireModels

  const HighConfidenceAbove: real := 80.0
  const LowConfidenceBelow: real := 50.0
  const RecentCount: nat := 3
  const TopLandCoverCount: nat := 3

  // ---------------------------------------------------------------------------------------
  // Confidence buckets

  predicate IsHigh(f: FireLocation) { f.confidence > HighConfidenceAbove }
  predicate IsMedium(f: FireLocation) { f.confidence >= LowConfidenceBelow && f.confidence <= HighConfidenceAbove }
  predicate IsLow(f: FireLocation) { f.confidence < LowConfidenceBelow }

  /** Every fire falls in exactly one of the three buckets, so the three counts add up to all fires. */
  lemma {:induction false} BucketsPartition(fires: seq<FireLocation>)
    ensures forall f :: (IsHigh(f) || IsMedium(f) || IsLow(f))
    ensures forall f :: !(IsHigh(f) && IsMedium(f)) && !(IsHigh(f) && IsLow(f)) && !(IsMedium(f) && IsLow(f))
    ensures |Filter(fires, IsHigh)| + |Filter(fires, IsMedium)| + |Filter(fires, IsLow)| == |fires|
  {
    if fires != [] {
      BucketsPartition(fires[1..]);
    }
  }

  // ---------------------------------------------------------------------------------------
  // Satellites

  /** `visibleFires.map(f => f.satellite)`. */
  function SatelliteNames(fires: seq<FireLocation>): (r: seq<string>)
    ensures |r| == |fires| && forall i :: 0 <= i < |fires| ==> r[i] == fires[i].satellite
  {
    if fires == [] then [] else [fires[0].satellite] + SatelliteNames(fires[1..])
  }

  /** `[...new Set(visibleFires.map(f => f.satellite))]`. */
  function Satellites(fires: seq<FireLocation>): seq<string> {
    Distinct(SatelliteNames(fires))
  }

  /**
   * The satellite list names each satellite of a visible fire exactly once, and nothing else,
   * in the order in which the satellites first occur among the fires.
   */
  lemma SatellitesListed(fires: seq<FireLocation>)
    ensures var sats := Satellites(fires);
      && NoDup(sats)
      && (forall i :: 0 <= i < |fires| ==> fires[i].satellite in sats)
      && (forall s :: s in sats ==> exists i :: 0 <= i < |fires| && fires[i].satellite == s)
      && (forall i, j :: 0 <= i < j < |sats| ==>
            IndexOf(SatelliteNames(fires), sats[i]) < IndexOf(SatelliteNames(fires), sats[j]))
  {
    var names := SatelliteNames(fires);
    DistinctFirstOccurrenceOrder(names);
    forall i | 0 <= i < |fires| ensures fires[i].satellite in Satellites(fires) {
      assert names[i] == fires[i].satellite;
    }
    forall s | s in Satellites(fires) ensures exists i :: 0 <= i < |fires| && fires[i].satellite == s {
      var i := IndexOf(names, s);
      assert fires[i].satellite == s;
    }
  }

  // ---------------------------------------------------------------------------------------
  // Most recent fires

  /** The sort key of a detection: the time value of its acquisition date. */
  function AcqDate(f: FireLocation): int { f.acqDate }

  /** `visibleFires.sort((a, b) => date(b) - date(a))`: newest first, ties in their old order. */
  function SortedByDate(fires: seq<FireLocation>): seq<FireLocation> {
    SortDesc(fires, AcqDate)
  }

  /** `.slice(0, 3)` of the sorted fires. */
  function RecentFires(fires: seq<FireLocation>): seq<FireLocation> {
    Take(SortedByDate(fires), RecentCount)
  }

  /**
   * The recent fires are the three newest visible fires (all of them when there are fewer),
   * newest first, and no fire left out is newer than one listed.
   */
  lemma RecentFiresAreNewest(fires: seq<FireLocation>)
    ensures var recent := RecentFires(fires);
      && |recent| == (if |fires| <= RecentCount then |fires| else RecentCount)
      && Descending(recent, AcqDate)
      && (forall f :: f in recent ==> f in fires)
      && (forall f, g :: f in fires && f !in recent && g in recent ==> AcqDate(g) >= AcqDate(f))
  {
    TopOf(fires, AcqDate, RecentCount);
  }

  /**
   * The sort rearranges the visible fires without losing or adding any, and fires with the
   * same date keep the order they had.
   */
  lemma SortedByDateIsStablePermutation(fires: seq<FireLocation>, d: int)
    ensures multiset(SortedByDate(fires)) == multiset(fires)
    ensures WithKey(SortedByDate(fires), AcqDate, d) == WithKey(fires, AcqDate, d)
  {
    SortDescStable(fires, AcqDate, d);
  }

  /** Sorting the already sorted fires again leaves them as they are. */
  lemma SortedByDateSettles(fires: seq<FireLocation>)
    ensures SortedByDate(SortedByDate(fires)) == SortedByDate(fires)
  {
    SortDescOfDescending(SortedByDate(fires), AcqDate);
  }

  // ---------------------------------------------------------------------------------------
  // Elevation

  /** `firesWithElevation.map(f => f.elevation)`, where `firesWithElevation` keeps `elevation > 0`. */
  function PositiveElevations(fires: seq<FireLocation>): (r: seq<real>)
    ensures |r| <= |fires|
    ensures forall e :: e in r ==> e > 0.0
    ensures forall i :: 0 <= i < |fires| && fires[i].elevation > 0.0 ==> fires[i].elevation in r
    ensures forall e :: e in r ==> exists i :: 0 <= i < |fires| && fires[i].elevation == e
  {
    if fires == [] then []
    else
      var rest := PositiveElevations(fires[1..]);
      assert forall i :: 1 <= i < |fires| ==> fires[i] == fires[1..][i - 1];
      (if fires[0].elevation > 0.0 then [fires[0].elevation] else []) + rest
  }

  /** `Math.min(...xs)` of a non-empty list. */
  function MinOf(xs: seq<real>): (m: real)
    requires xs != []
    ensures m in xs && forall x :: x in xs ==> m <= x
  {
    if |xs| == 1 then xs[0]
    else
      var m := MinOf(xs[1..]);
      assert forall x :: x in xs ==> x == xs[0] || x in xs[1..];
      if xs[0] <= m then xs[0] else m
  }

  /** `Math.max(...xs)` of a non-empty list. */
  function MaxOf(xs: seq<real>): (m: real)
    requires xs != []
    ensures m in xs && forall x :: x in xs ==> x <= m
  {
    if |xs| == 1 then xs[0]
    else
      var m := MaxOf(xs[1..]);
      assert forall x :: x in xs ==> x == xs[0] || x in xs[1..];
      if xs[0] >= m then xs[0] else m
  }

  /** `reduce((sum, e) => sum + e, 0)`. */
  function Sum(xs: seq<real>): real {
    if xs == [] then 0.0 else xs[0] + Sum(xs[1..])
  }

  /** A sum of values that all lie in `[lo, hi]` lies between `n * lo` and `n * hi`. */
  lemma {:induction false} SumBounds(xs: seq<real>, lo: real, hi: real)
    requires forall x :: x in xs ==> lo <= x <= hi
    ensures (|xs| as real) * lo <= Sum(xs) <= (|xs| as real) * hi
  {
    if xs != [] {
      assert forall x :: x in xs[1..] ==> x in xs;
      assert xs[0] in xs && lo <= xs[0] <= hi;
      assert Sum(xs) == xs[0] + Sum(xs[1..]);
      SumBounds(xs[1..], lo, hi);
      assert (|xs| as real) * lo == (|xs[1..]| as real) * lo + lo;
      assert (|xs| as real) * hi == (|xs[1..]| as real) * hi + hi;
    }
  }

  /** The mean of values that all lie in `[lo, hi]` lies in `[lo, hi]`. */
  lemma MeanBetween(xs: seq<real>, lo: real, hi: real)
    requires xs != [] && forall x :: x in xs ==> lo <= x <= hi
    ensures lo <= Sum(xs) / (|xs| as real) <= hi
  {
    SumBounds(xs, lo, hi);
    var n := |xs| as real;
    var m := Sum(xs) / n;
    assert Sum(xs) == m * n;
  }

  datatype ElevationRange = ElevationRange(min: real, max: real, avg: real)

  /** The elevation line's figures, present when some visible fire has a positive elevation. */
  function ElevationSummary(fires: seq<FireLocation>): (r: Option<ElevationRange>)
    ensures r.None? <==> PositiveElevations(fires) == []
  {
    var es := PositiveElevations(fires);
    if es == [] then None else Some(ElevationRange(MinOf(es), MaxOf(es), Sum(es) / (|es| as real)))
  }

  /**
   * The elevation line appears exactly when some fire has a positive elevation; its minimum
   * and maximum are elevations of visible fires that bound every positive elevation, and the
   * average lies between them.
   */
  lemma ElevationSummaryBounds(fires: seq<FireLocation>)
    ensures ElevationSummary(fires).None? <==> forall i :: 0 <= i < |fires| ==> fires[i].elevation <= 0.0
    ensures ElevationSummary(fires).Some? ==>
      var r := ElevationSummary(fires).value;
      && 0.0 < r.min <= r.avg <= r.max
      && (forall i :: 0 <= i < |fires| && fires[i].elevation > 0.0 ==> r.min <= fires[i].elevation <= r.max)
      && (exists i :: 0 <= i < |fires| && fires[i].elevation == r.min)
      && (exists i :: 0 <= i < |fires| && fires[i].elevation == r.max)
  {
    var es := PositiveElevations(fires);
    if es != [] {
      var lo, hi := MinOf(es), MaxOf(es);
      assert lo in es && hi in es;
      MeanBetween(es, lo, hi);
    }
  }

  // ---------------------------------------------------------------------------------------
  // Land cover

  /** `fire.terrain?.land_cover` when it is a non-empty string (the filter tests truthiness). */
  function LandCoverOf(f: FireLocation): (r: Option<string>)
    ensures r.Some? <==> f.terrain.Some? && f.terrain.value.landCover.Some? && f.terrain.value.landCover.value != ""
    ensures r.Some? ==> r.value == f.terrain.value.landCover.value
  {
    match f.terrain
    case None => None
    case Some(t) =>
      match t.landCover
      case None => None
      case Some(lc) => if lc == "" then None else Some(lc)
  }

  /** The land-cover names of the fires that have one, in order. */
  function LandCoverTypes(fires: seq<FireLocation>): (r: seq<string>)
    ensures |r| <= |fires|
    ensures forall t :: t in r <==> exists i :: 0 <= i < |fires| && LandCoverOf(fires[i]) == Some(t)
  {
    if fires == [] then []
    else
      var rest := LandCoverTypes(fires[1..]);
      assert forall i :: 1 <= i < |fires| ==> fires[i] == fires[1..][i - 1];
      match LandCoverOf(fires[0])
      case None => rest
      case Some(t) =>
        assert LandCoverOf(fires[0]) == Some(t);
        [t] + rest
  }

  lemma {:induction false} LandCoverTypesConcat(a: seq<FireLocation>, b: seq<FireLocation>)
    ensures LandCoverTypes(a + b) == LandCoverTypes(a) + LandCoverTypes(b)
  {
    if a == [] {
      assert a + b == b;
    } else {
      assert (a + b)[0] == a[0] && (a + b)[1..] == a[1..] + b;
      LandCoverTypesConcat(a[1..], b);
    }
  }

  /** Rearranging the fires rearranges their land-cover names and nothing more. */
  lemma {:induction false} LandCoverTypesPermutation(a: seq<FireLocation>, b: seq<FireLocation>)
    requires multiset(a) == multiset(b)
    ensures multiset(LandCoverTypes(a)) == multiset(LandCoverTypes(b))
    decreases |a|
  {
    if a == [] {
      assert b == [] by {
        assert |b| == |multiset(b)|;
      }
    } else {
      var x := a[0];
      var j := PermutationSplit(a, b);
      var rest := b[..j] + b[j + 1..];
      assert b == b[..j] + [x] + b[j + 1..];
      assert a == [x] + a[1..];
      LandCoverTypesPermutation(a[1..], rest);
      LandCoverTypesConcat([x], a[1..]);
      LandCoverTypesConcat(b[..j] + [x], b[j + 1..]);
      LandCoverTypesConcat(b[..j], [x]);
      LandCoverTypesConcat(b[..j], b[j + 1..]);
    }
  }

  /** One entry of the `landCoverTypes` record: a land-cover name and its number of fires. */
  datatype LandCoverCount = LandCoverCount(landCover: string, count: nat)

  function Keys(acc: seq<LandCoverCount>): (r: seq<string>)
    ensures |r| == |acc| && forall i :: 0 <= i < |acc| ==> r[i] == acc[i].landCover
  {
    if acc == [] then [] else [acc[0].landCover] + Keys(acc[1..])
  }

  /** `acc[type] = (acc[type] || 0) + 1` on a record whose keys keep their insertion order. */
  function Bump(acc: seq<LandCoverCount>, t: string): seq<LandCoverCount> {
    if acc == [] then [LandCoverCount(t, 1)]
    else if acc[0].landCover == t then [LandCoverCount(t, acc[0].count + 1)] + acc[1..]
    else [acc[0]] + Bump(acc[1..], t)
  }

  /** The `reduce` over the land-cover names, starting from `{}`. */
  function Tally(types: seq<string>): seq<LandCoverCount> {
    if types == [] then [] else Bump(Tally(types[..|types| - 1]), types[|types| - 1])
  }

  /** `acc[t] || 0`. */
  function CountOf(acc: seq<LandCoverCount>, t: string): nat {
    if acc == [] then 0 else if acc[0].landCover == t then acc[0].count else CountOf(acc[1..], t)
  }

  lemma {:induction false} BumpKeys(acc: seq<LandCoverCount>, t: string)
    ensures Keys(Bump(acc, t)) == if t in Keys(acc) then Keys(acc) else Keys(acc) + [t]
  {
    if acc != [] && acc[0].landCover != t {
      BumpKeys(acc[1..], t);
      assert Keys(acc) == [acc[0].landCover] + Keys(acc[1..]);
      assert t in Keys(acc) <==> t in Keys(acc[1..]);
    }
  }

  lemma {:induction false} BumpCount(acc: seq<LandCoverCount>, t: string, k: string)
    ensures CountOf(Bump(acc, t), k) == CountOf(acc, k) + (if k == t then 1 else 0)
  {
    if acc != [] && acc[0].landCover != t {
      BumpCount(acc[1..], t, k);
    }
  }

  /** The record's keys are the distinct land-cover names, in order of first occurrence. */
  lemma {:induction false} TallyKeys(types: seq<string>)
    ensures Keys(Tally(types)) == Distinct(types)
  {
    if types != [] {
      var front := types[..|types| - 1];
      TallyKeys(front);
      BumpKeys(Tally(front), types[|types| - 1]);
    }
  }

  /** The record counts each land-cover name as often as it occurs. */
  lemma {:induction false} TallyCounts(types: seq<string>, k: string)
    ensures CountOf(Tally(types), k) == multiset(types)[k]
  {
    if types != [] {
      var front, t := types[..|types| - 1], types[|types| - 1];
      TallyCounts(front, k);
      BumpCount(Tally(front), t, k);
      assert types == front + [t];
    }
  }

  /** With distinct keys, an entry's count is the count looked up by its key. */
  lemma {:induction false} CountOfEntry(acc: seq<LandCoverCount>, i: nat)
    requires NoDup(Keys(acc)) && i < |acc|
    ensures CountOf(acc, acc[i].landCover) == acc[i].count
  {
    if i > 0 {
      assert Keys(acc)[0] != Keys(acc)[i];
      assert NoDup(Keys(acc[1..])) by {
        assert forall j :: 0 <= j < |acc| - 1 ==> Keys(acc[1..])[j] == Keys(acc)[j + 1];
      }
      CountOfEntry(acc[1..], i - 1);
    }
  }

  /** Every entry of the tally carries the number of occurrences of its land-cover name. */
  lemma TallyEntries(types: seq<string>)
    ensures var tally := Tally(types);
      && NoDup(Keys(tally))
      && (forall t :: t in Keys(tally) <==> t in types)
      && (forall i :: 0 <= i < |tally| ==> tally[i].count == multiset(types)[tally[i].landCover] >= 1)
  {
    var tally := Tally(types);
    TallyKeys(types);
    forall i | 0 <= i < |tally| ensures tally[i].count == multiset(types)[tally[i].landCover] >= 1 {
      CountOfEntry(tally, i);
      TallyCounts(types, tally[i].landCover);
      assert Keys(tally)[i] == tally[i].landCover;
      assert tally[i].landCover in types;
    }
  }

  /** The sum of the record's counts. */
  function CountSum(acc: seq<LandCoverCount>): nat {
    if acc == [] then 0 else acc[0].count + CountSum(acc[1..])
  }

  lemma {:induction false} BumpSum(acc: seq<LandCoverCount>, t: string)
    ensures CountSum(Bump(acc, t)) == CountSum(acc) + 1
  {
    if acc != [] && acc[0].landCover != t {
      BumpSum(acc[1..], t);
    }
  }

  lemma {:induction false} TallySum(types: seq<string>)
    ensures CountSum(Tally(types)) == |types|
  {
    if types != [] {
      var front := types[..|types| - 1];
      TallySum(front);
      BumpSum(Tally(front), types[|types| - 1]);
    }
  }

  /** The filter `f => f.terrain?.land_cover`. */
  predicate HasLandCover(f: FireLocation) {
    LandCoverOf(f).Some?
  }

  /** One land-cover name per fire that has a land cover. */
  lemma {:induction false} LandCoverTypesCount(fires: seq<FireLocation>)
    ensures |LandCoverTypes(fires)| == |Filter(fires, HasLandCover)|
  {
    if fires != [] {
      LandCoverTypesCount(fires[1..]);
    }
  }

  /**
   * Every count of the record is at least 1, and the counts add up to the number of visible
   * fires that have a land cover.
   */
  lemma LandCoverCountsSum(fires: seq<FireLocation>)
    ensures var tally := Tally(LandCoverTypes(fires));
      && (forall i :: 0 <= i < |tally| ==> tally[i].count >= 1)
      && CountSum(tally) == |Filter(fires, HasLandCover)|
  {
    TallyEntries(LandCoverTypes(fires));
    TallySum(LandCoverTypes(fires));
    LandCoverTypesCount(fires);
  }

  function EntryCount(e: LandCoverCount): int { e.count }

  /** `Object.entries(...).sort(([,a], [,b]) => b - a).slice(0, 3)`. */
  function TopLandCovers(fires: seq<FireLocation>): seq<LandCoverCount> {
    Take(SortDesc(Tally(LandCoverTypes(fires)), EntryCount), TopLandCoverCount)
  }

  /** An entry of the tally names a land cover of the fires and carries its number of occurrences. */
  lemma TallyEntry(types: seq<string>, e: LandCoverCount)
    requires e in Tally(types)
    ensures e.landCover in types && e.count == multiset(types)[e.landCover]
  {
    var tally := Tally(types);
    var i :| 0 <= i < |tally| && tally[i] == e;
    TallyEntries(types);
  }

  /**
   * The land-cover line lists the three most frequent land covers (all when fewer), most
   * frequent first, each with its true number of fires.
   */
  lemma TopLandCoversAreCounted(fires: seq<FireLocation>)
    ensures var types, top := LandCoverTypes(fires), TopLandCovers(fires);
      && |top| == (if |Distinct(types)| <= TopLandCoverCount then |Distinct(types)| else TopLandCoverCount)
      && Descending(top, EntryCount)
      && (forall e :: e in top ==> e.landCover in types && e.count == multiset(types)[e.landCover])
  {
    var types := LandCoverTypes(fires);
    var tally := Tally(types);
    TallyKeys(types);
    assert |tally| == |Distinct(types)|;
    TopOf(tally, EntryCount, TopLandCoverCount);
    forall e | e in TopLandCovers(fires) ensures e.landCover in types && e.count == multiset(types)[e.landCover] {
      TallyEntry(types, e);
    }
  }

  /** The land-cover line has entries exactly when some fire has a land cover. */
  lemma TallyMatchesTop(fires: seq<FireLocation>)
    ensures (|Tally(LandCoverTypes(fires))| > 0) == (TopLandCovers(fires) != [])
  {
    TallyKeys(LandCoverTypes(fires));
    TopLandCoversAreCounted(fires);
  }

  /** No land cover left out of the line occurs more often than one listed. */
  lemma TopLandCoversAreMostFrequent(fires: seq<FireLocation>)
    ensures var types, top := LandCoverTypes(fires), TopLandCovers(fires);
      forall e, t :: e in top && t in types && t !in Keys(top) ==> e.count >= multiset(types)[t]
  {
    var types := LandCoverTypes(fires);
    var top := TopLandCovers(fires);
    forall e, t | e in top && t in types && t !in Keys(top) ensures e.count >= multiset(types)[t] {
      LeftOutLandCover(types, e, t);
    }
  }

  lemma LeftOutLandCover(types: seq<string>, e: LandCoverCount, t: string)
    requires e in Take(SortDesc(Tally(types), EntryCount), TopLandCoverCount)
    requires t in types && t !in Keys(Take(SortDesc(Tally(types), EntryCount), TopLandCoverCount))
    ensures e.count >= multiset(types)[t]
  {
    var tally := Tally(types);
    var top := Take(SortDesc(tally, EntryCount), TopLandCoverCount);
    TallyKeys(types);
    var i :| 0 <= i < |tally| && Keys(tally)[i] == t;
    var x := tally[i];
    assert x.landCover == t;
    TallyEntry(types, x);
    assert x !in top;
    TopOf(tally, EntryCount, TopLandCoverCount);
    assert EntryCount(e) >= EntryCount(x);
  }
}
