/**
 * The shared view context: what the user is looking at on the globe (location, visible fires,
 * viewing area, last prediction) and the plain-language summary `getContextSummary` builds
 * from it for the chat assistant.
 */
module ViewContext {
  import opened Common
  import opened Sequences
  import opened FireModels
  import opened ViewSummary

  /** The `currentLocation` record: a named place and the camera altitude in kilometres. */
  datatype CurrentLocation = CurrentLocation(name: string, latitude: real, longitude: real, zoom: real)

  /** The `lastPrediction` record; `timestamp` is the time value, in milliseconds, of its `Date`. */
  datatype LastPrediction = LastPrediction(lat: real, lon: real, risk: string, timestamp: int)

  /**
   * One line of the summary. Each constructor keeps the values the line prints; turning the
   * numbers into text (`toFixed`) is not modelled.
   */
  datatype Line =
    | Header
    | LocationLine(name: string, latitude: real, longitude: real)
    | ZoomLine(zoom: real)
    | ViewingAreaLine(box: BoundingBox)
    | ActiveFiresLine(count: nat)
    | HighConfidenceLine(count: nat)
    | MediumConfidenceLine(count: nat)
    | LowConfidenceLine(count: nat)
    | SatellitesLine(satellites: seq<string>)
    | ElevationLine(range: ElevationRange)
    | LandCoverLine(top: seq<LandCoverCount>)
    | RecentHeader
    | RecentFireLine(acqDate: int, latitude: real, longitude: real, elevation: Option<real>,
                     landCover: Option<string>, confidence: real)
    | NoFiresLine
    | PredictionLine(risk: string, lat: real, lon: real, ageSeconds: int)
    | Closing

  // ---------------------------------------------------------------------------------------
  // The figures of the fire section

  /**
   * What the fire section reports: the number of fires, the three confidence buckets, the
   * satellites, the elevation range, the most frequent land covers and the newest fires.
   */
  datatype FireStats = FireStats(
    count: nat, high: nat, medium: nat, low: nat, satellites: seq<string>,
    elevation: Option<ElevationRange>, landCovers: seq<LandCoverCount>, recent: seq<FireLocation>)

  /**
   * The figures as `getContextSummary` computes them: buckets and satellites from the fires as
   * given, the rest from the fires after the in-place sort by date.
   */
  function Stats(fires: seq<FireLocation>): FireStats {
    var sorted := SortedByDate(fires);
    FireStats(|fires|, |Filter(fires, IsHigh)|, |Filter(fires, IsMedium)|, |Filter(fires, IsLow)|,
              Satellites(fires), ElevationSummary(sorted), TopLandCovers(sorted), Take(sorted, RecentCount))
  }

  /** The figures computed when there are fires to report, as in the program's `length > 0` test. */
  function FireFigures(fires: seq<FireLocation>): Option<FireStats> {
    if |fires| > 0 then Some(Stats(fires)) else None
  }

  // ---------------------------------------------------------------------------------------
  // The summary

  /** What a line reports, regardless of its values: one kind per constructor of `Line`. */
  datatype Kind =
    | HeaderKind | LocationKind | ZoomKind | AreaKind | ActiveFiresKind | HighKind | MediumKind | LowKind
    | SatellitesKind | ElevationKind | LandCoverKind | RecentHeaderKind | RecentFireKind | NoFiresKind
    | PredictionKind | ClosingKind

  function KindOf(l: Line): Kind {
    match l
    case Header => HeaderKind
    case LocationLine(_, _, _) => LocationKind
    case ZoomLine(_) => ZoomKind
    case ViewingAreaLine(_) => AreaKind
    case ActiveFiresLine(_) => ActiveFiresKind
    case HighConfidenceLine(_) => HighKind
    case MediumConfidenceLine(_) => MediumKind
    case LowConfidenceLine(_) => LowKind
    case SatellitesLine(_) => SatellitesKind
    case ElevationLine(_) => ElevationKind
    case LandCoverLine(_) => LandCoverKind
    case RecentHeader => RecentHeaderKind
    case RecentFireLine(_, _, _, _, _, _) => RecentFireKind
    case NoFiresLine => NoFiresKind
    case PredictionLine(_, _, _, _) => PredictionKind
    case Closing => ClosingKind
  }

  /** The section of the summary that prints each kind of line. */
  datatype Section = Edges | Place | Area | Fires | Prediction

  function SectionOf(k: Kind): Section {
    match k
    case HeaderKind => Edges
    case ClosingKind => Edges
    case LocationKind => Place
    case ZoomKind => Place
    case AreaKind => Area
    case PredictionKind => Prediction
    case _ => Fires
  }

  /** The part of the fire section that prints each kind of line (`OutsideFires` for the rest). */
  datatype FirePart = Counts | Confidence | Elevation | LandCover | Recent | OutsideFires

  function FirePartOf(k: Kind): FirePart {
    match k
    case ActiveFiresKind => Counts
    case SatellitesKind => Counts
    case NoFiresKind => Counts
    case HighKind => Confidence
    case MediumKind => Confidence
    case LowKind => Confidence
    case ElevationKind => Elevation
    case LandCoverKind => LandCover
    case RecentHeaderKind => Recent
    case RecentFireKind => Recent
    case _ => OutsideFires
  }

  /** Every line of `s` belongs to section `sec`. */
  predicate Within(s: seq<Line>, sec: Section) {
    forall l :: l in s ==> SectionOf(KindOf(l)) == sec
  }

  /** Every line of `s` belongs to part `p` of the fire section. */
  predicate WithinPart(s: seq<Line>, p: FirePart) {
    forall l :: l in s ==> FirePartOf(KindOf(l)) == p
  }

  /** Whether `l` is of kind `k`, decided from `k`: for a known kind, a single constructor test. */
  predicate HasKind(l: Line, k: Kind) {
    match k
    case HeaderKind => l.Header?
    case LocationKind => l.LocationLine?
    case ZoomKind => l.ZoomLine?
    case AreaKind => l.ViewingAreaLine?
    case ActiveFiresKind => l.ActiveFiresLine?
    case HighKind => l.HighConfidenceLine?
    case MediumKind => l.MediumConfidenceLine?
    case LowKind => l.LowConfidenceLine?
    case SatellitesKind => l.SatellitesLine?
    case ElevationKind => l.ElevationLine?
    case LandCoverKind => l.LandCoverLine?
    case RecentHeaderKind => l.RecentHeader?
    case RecentFireKind => l.RecentFireLine?
    case NoFiresKind => l.NoFiresLine?
    case PredictionKind => l.PredictionLine?
    case ClosingKind => l.Closing?
  }

  /** The lines of `s` of kind `k`, in their order in `s`. */
  function OfKind(s: seq<Line>, k: Kind): seq<Line> {
    if s == [] then [] else (if HasKind(s[0], k) then [s[0]] else []) + OfKind(s[1..], k)
  }

  /** `[l]` when `c` holds: a line printed under a condition. */
  function When(c: bool, l: Line): (r: seq<Line>)
    ensures forall x :: x in r ==> x == l
  {
    if c then [l] else []
  }

  function LocationLines(loc: Option<CurrentLocation>): (r: seq<Line>)
    ensures Within(r, Place)
  {
    match loc
    case None => []
    case Some(c) => [LocationLine(c.name, c.latitude, c.longitude), ZoomLine(c.zoom)]
  }

  function AreaLines(box: Option<BoundingBox>): (r: seq<Line>)
    ensures Within(r, Area)
  {
    match box
    case None => []
    case Some(b) => [ViewingAreaLine(b)]
  }

  /** A confidence line is printed only for a non-empty bucket. */
  function ConfidenceLines(high: nat, medium: nat, low: nat): (r: seq<Line>)
    ensures WithinPart(r, Confidence)
  {
    When(high > 0, HighConfidenceLine(high))
    + When(medium > 0, MediumConfidenceLine(medium))
    + When(low > 0, LowConfidenceLine(low))
  }

  function ElevationLines(elevation: Option<ElevationRange>): (r: seq<Line>)
    ensures WithinPart(r, Elevation)
  {
    match elevation
    case None => []
    case Some(e) => [ElevationLine(e)]
  }

  function LandCoverLines(landCovers: seq<LandCoverCount>): (r: seq<Line>)
    ensures WithinPart(r, LandCover)
  {
    When(landCovers != [], LandCoverLine(landCovers))
  }

  /** The line for one recent fire: its elevation when positive, its land cover when present. */
  function Describe(f: FireLocation): Line {
    RecentFireLine(f.acqDate, f.latitude, f.longitude,
                   if f.elevation > 0.0 then Some(f.elevation) else None, LandCoverOf(f), f.confidence)
  }

  function RecentFireLines(recent: seq<FireLocation>): seq<Line> {
    if recent == [] then [] else [Describe(recent[0])] + RecentFireLines(recent[1..])
  }

  /** One line per recent fire, describing that fire, in the order of the fires. */
  lemma {:induction false} RecentFireLinesDescribe(recent: seq<FireLocation>)
    ensures var r := RecentFireLines(recent);
      |r| == |recent| && forall i :: 0 <= i < |recent| ==> r[i] == Describe(recent[i])
  {
    if recent != [] {
      RecentFireLinesDescribe(recent[1..]);
    }
  }

  /** Every recent-fire line is a `RecentFireLine`. */
  lemma {:induction false} RecentFireLinesKind(recent: seq<FireLocation>)
    ensures forall l :: l in RecentFireLines(recent) ==> l.RecentFireLine?
  {
    if recent != [] {
      RecentFireLinesKind(recent[1..]);
    }
  }

  function RecentLines(recent: seq<FireLocation>): (r: seq<Line>)
    ensures WithinPart(r, Recent)
  {
    if recent == [] then []
    else
      RecentFireLinesKind(recent);
      [RecentHeader] + RecentFireLines(recent)
  }

  /** The fire section when there are fires, assembled from its parts. */
  function FireParts(count: nat, satellites: seq<string>, confidence: seq<Line>, elevation: seq<Line>,
                     landCover: seq<Line>, recent: seq<Line>): seq<Line> {
    [ActiveFiresLine(count)] + confidence + [SatellitesLine(satellites)] + elevation + landCover + recent
  }

  function FireLines(figures: Option<FireStats>): seq<Line> {
    match figures
    case None => [NoFiresLine]
    case Some(st) =>
      FireParts(st.count, st.satellites, ConfidenceLines(st.high, st.medium, st.low), ElevationLines(st.elevation),
                LandCoverLines(st.landCovers), RecentLines(st.recent))
  }

  /** `Math.floor((Date.now() - timestamp) / 1000)`: the whole seconds elapsed, rounded down. */
  function AgeSeconds(now: int, timestamp: int): (r: int)
    ensures r * 1000 <= now - timestamp < r * 1000 + 1000
  {
    (now - timestamp) / 1000
  }

  function PredictionLines(last: Option<LastPrediction>, now: int): (r: seq<Line>)
    ensures Within(r, Prediction)
  {
    match last
    case None => []
    case Some(p) => [PredictionLine(p.risk, p.lat, p.lon, AgeSeconds(now, p.timestamp))]
  }

  /** The header, the sections in the order the program prints them, and the closing sentence. */
  function Frame(place: seq<Line>, area: seq<Line>, fire: seq<Line>, prediction: seq<Line>): seq<Line> {
    [Header] + place + area + fire + prediction + [Closing]
  }

  /** The summary printed for the given context and fire figures at time `now`. */
  function Summary(loc: Option<CurrentLocation>, figures: Option<FireStats>, box: Option<BoundingBox>,
                   last: Option<LastPrediction>, now: int): seq<Line> {
    Frame(LocationLines(loc), AreaLines(box), FireLines(figures), PredictionLines(last, now))
  }

  /** The summary `getContextSummary` returns at time `now`, line by line. */
  function ContextSummary(loc: Option<CurrentLocation>, fires: seq<FireLocation>, box: Option<BoundingBox>,
                          last: Option<LastPrediction>, now: int): seq<Line> {
    Summary(loc, FireFigures(fires), box, last, now)
  }

  // ---------------------------------------------------------------------------------------
  // Lines by kind

  /** `OfKind` keeps exactly the lines of the kind asked for. */
  lemma {:induction false} OfKindMembers(s: seq<Line>, k: Kind)
    ensures forall l :: l in OfKind(s, k) <==> l in s && KindOf(l) == k
  {
    if s != [] {
      HasKindOf(s[0], k);
      OfKindMembers(s[1..], k);
      assert s == [s[0]] + s[1..];
    }
  }

  lemma {:induction false} OfKindConcat(a: seq<Line>, b: seq<Line>, k: Kind)
    ensures OfKind(a + b, k) == OfKind(a, k) + OfKind(b, k)
  {
    if a == [] {
      assert a + b == b;
    } else {
      assert (a + b)[0] == a[0] && (a + b)[1..] == a[1..] + b;
      OfKindConcat(a[1..], b, k);
    }
  }

  lemma OfKindSingle(l: Line, k: Kind)
    ensures OfKind([l], k) == if HasKind(l, k) then [l] else []
  {
    assert [l][1..] == [];
  }

  lemma HasKindOf(l: Line, k: Kind)
    ensures HasKind(l, k) <==> KindOf(l) == k
  {
  }

  /** A sequence keeps all its lines for a kind they all have, and none for a kind none has. */
  lemma {:induction false} OfKindAllOrNone(s: seq<Line>, k: Kind)
    ensures (forall l :: l in s ==> HasKind(l, k)) ==> OfKind(s, k) == s
    ensures (forall l :: l in s ==> !HasKind(l, k)) ==> OfKind(s, k) == []
  {
    if s != [] {
      assert s == [s[0]] + s[1..];
      assert s[0] in s;
      assert forall l :: l in s[1..] ==> l in s;
      OfKindAllOrNone(s[1..], k);
    }
  }

  /** A sequence within one section keeps no line for a kind of another section. */
  lemma OfKindOutside(s: seq<Line>, sec: Section, k: Kind)
    requires Within(s, sec) && SectionOf(k) != sec
    ensures OfKind(s, k) == []
  {
    forall l | l in s ensures !HasKind(l, k) {
      HasKindOf(l, k);
    }
    OfKindAllOrNone(s, k);
  }

  /** A sequence within one part of the fire section keeps no line for a kind of another part. */
  lemma OfKindOutsidePart(s: seq<Line>, p: FirePart, k: Kind)
    requires WithinPart(s, p) && FirePartOf(k) != p
    ensures OfKind(s, k) == []
  {
    forall l | l in s ensures !HasKind(l, k) {
      HasKindOf(l, k);
    }
    OfKindAllOrNone(s, k);
  }

  /** The lines of one kind in a framed summary, section by section. */
  lemma FrameSplit(place: seq<Line>, area: seq<Line>, fire: seq<Line>, prediction: seq<Line>, k: Kind)
    ensures OfKind(Frame(place, area, fire, prediction), k)
      == OfKind([Header], k) + OfKind(place, k) + OfKind(area, k) + OfKind(fire, k) + OfKind(prediction, k)
         + OfKind([Closing], k)
  {
    var h := [Header];
    OfKindConcat(h, place, k);
    OfKindConcat(h + place, area, k);
    OfKindConcat(h + place + area, fire, k);
    OfKindConcat(h + place + area + fire, prediction, k);
    OfKindConcat(h + place + area + fire + prediction, [Closing], k);
  }

  /** The sections the summary frames, each within its own section. */
  predicate Sectioned(place: seq<Line>, area: seq<Line>, fire: seq<Line>, prediction: seq<Line>) {
    Within(place, Place) && Within(area, Area) && Within(fire, Fires) && Within(prediction, Prediction)
  }

  /** The frame's own lines are the only ones of the frame's kinds. */
  lemma FrameEdges(place: seq<Line>, area: seq<Line>, fire: seq<Line>, prediction: seq<Line>, k: Kind)
    requires Sectioned(place, area, fire, prediction) && SectionOf(k) == Edges
    ensures OfKind(Frame(place, area, fire, prediction), k) == OfKind([Header], k) + OfKind([Closing], k)
  {
    FrameSplit(place, area, fire, prediction, k);
    OfKindOutside(place, Place, k);
    OfKindOutside(area, Area, k);
    OfKindOutside(fire, Fires, k);
    OfKindOutside(prediction, Prediction, k);
  }

  /** The lines of a kind of one section are those that section prints. */
  lemma FramePlace(place: seq<Line>, area: seq<Line>, fire: seq<Line>, prediction: seq<Line>, k: Kind)
    requires Sectioned(place, area, fire, prediction) && SectionOf(k) == Place
    ensures OfKind(Frame(place, area, fire, prediction), k) == OfKind(place, k)
  {
    FrameSplit(place, area, fire, prediction, k);
    HasKindOf(Header, k);
    HasKindOf(Closing, k);
    OfKindSingle(Header, k);
    OfKindSingle(Closing, k);
    OfKindOutside(area, Area, k);
    OfKindOutside(fire, Fires, k);
    OfKindOutside(prediction, Prediction, k);
  }

  lemma FrameArea(place: seq<Line>, area: seq<Line>, fire: seq<Line>, prediction: seq<Line>, k: Kind)
    requires Sectioned(place, area, fire, prediction) && SectionOf(k) == Area
    ensures OfKind(Frame(place, area, fire, prediction), k) == OfKind(area, k)
  {
    FrameSplit(place, area, fire, prediction, k);
    HasKindOf(Header, k);
    HasKindOf(Closing, k);
    OfKindSingle(Header, k);
    OfKindSingle(Closing, k);
    OfKindOutside(place, Place, k);
    OfKindOutside(fire, Fires, k);
    OfKindOutside(prediction, Prediction, k);
  }

  lemma FrameFire(place: seq<Line>, area: seq<Line>, fire: seq<Line>, prediction: seq<Line>, k: Kind)
    requires Sectioned(place, area, fire, prediction) && SectionOf(k) == Fires
    ensures OfKind(Frame(place, area, fire, prediction), k) == OfKind(fire, k)
  {
    FrameSplit(place, area, fire, prediction, k);
    HasKindOf(Header, k);
    HasKindOf(Closing, k);
    OfKindSingle(Header, k);
    OfKindSingle(Closing, k);
    OfKindOutside(place, Place, k);
    OfKindOutside(area, Area, k);
    OfKindOutside(prediction, Prediction, k);
  }

  lemma FramePrediction(place: seq<Line>, area: seq<Line>, fire: seq<Line>, prediction: seq<Line>, k: Kind)
    requires Sectioned(place, area, fire, prediction) && SectionOf(k) == Prediction
    ensures OfKind(Frame(place, area, fire, prediction), k) == OfKind(prediction, k)
  {
    FrameSplit(place, area, fire, prediction, k);
    HasKindOf(Header, k);
    HasKindOf(Closing, k);
    OfKindSingle(Header, k);
    OfKindSingle(Closing, k);
    OfKindOutside(place, Place, k);
    OfKindOutside(area, Area, k);
    OfKindOutside(fire, Fires, k);
  }

  /** The lines of one kind in the fire section, part by part. */
  lemma FirePartsSplit(count: nat, satellites: seq<string>, confidence: seq<Line>, elevation: seq<Line>,
                       landCover: seq<Line>, recent: seq<Line>, k: Kind)
    ensures OfKind(FireParts(count, satellites, confidence, elevation, landCover, recent), k)
      == OfKind([ActiveFiresLine(count)], k) + OfKind(confidence, k) + OfKind([SatellitesLine(satellites)], k)
         + OfKind(elevation, k) + OfKind(landCover, k) + OfKind(recent, k)
  {
    var a, s := [ActiveFiresLine(count)], [SatellitesLine(satellites)];
    OfKindConcat(a, confidence, k);
    OfKindConcat(a + confidence, s, k);
    OfKindConcat(a + confidence + s, elevation, k);
    OfKindConcat(a + confidence + s + elevation, landCover, k);
    OfKindConcat(a + confidence + s + elevation + landCover, recent, k);
  }

  /** The parts of the fire section, each within its own part. */
  predicate FireSectioned(confidence: seq<Line>, elevation: seq<Line>, landCover: seq<Line>, recent: seq<Line>) {
    && WithinPart(confidence, Confidence) && WithinPart(elevation, Elevation)
    && WithinPart(landCover, LandCover) && WithinPart(recent, Recent)
  }

  /** The count and satellite lines are the only ones of the counting kinds. */
  lemma FirePartsCounts(count: nat, satellites: seq<string>, confidence: seq<Line>, elevation: seq<Line>,
                        landCover: seq<Line>, recent: seq<Line>, k: Kind)
    requires FireSectioned(confidence, elevation, landCover, recent) && FirePartOf(k) == Counts
    ensures OfKind(FireParts(count, satellites, confidence, elevation, landCover, recent), k)
      == OfKind([ActiveFiresLine(count)], k) + OfKind([SatellitesLine(satellites)], k)
  {
    FirePartsSplit(count, satellites, confidence, elevation, landCover, recent, k);
    OfKindOutsidePart(confidence, Confidence, k);
    OfKindOutsidePart(elevation, Elevation, k);
    OfKindOutsidePart(landCover, LandCover, k);
    OfKindOutsidePart(recent, Recent, k);
  }

  /** The lines of a kind of one part of the fire section are those that part prints. */
  lemma FirePartsConfidence(count: nat, satellites: seq<string>, confidence: seq<Line>, elevation: seq<Line>,
                            landCover: seq<Line>, recent: seq<Line>, k: Kind)
    requires FireSectioned(confidence, elevation, landCover, recent) && FirePartOf(k) == Confidence
    ensures OfKind(FireParts(count, satellites, confidence, elevation, landCover, recent), k) == OfKind(confidence, k)
  {
    FirePartsSplit(count, satellites, confidence, elevation, landCover, recent, k);
    HasKindOf(ActiveFiresLine(count), k);
    HasKindOf(SatellitesLine(satellites), k);
    OfKindSingle(ActiveFiresLine(count), k);
    OfKindSingle(SatellitesLine(satellites), k);
    OfKindOutsidePart(elevation, Elevation, k);
    OfKindOutsidePart(landCover, LandCover, k);
    OfKindOutsidePart(recent, Recent, k);
  }

  lemma FirePartsElevation(count: nat, satellites: seq<string>, confidence: seq<Line>, elevation: seq<Line>,
                           landCover: seq<Line>, recent: seq<Line>, k: Kind)
    requires FireSectioned(confidence, elevation, landCover, recent) && FirePartOf(k) == Elevation
    ensures OfKind(FireParts(count, satellites, confidence, elevation, landCover, recent), k) == OfKind(elevation, k)
  {
    FirePartsSplit(count, satellites, confidence, elevation, landCover, recent, k);
    HasKindOf(ActiveFiresLine(count), k);
    HasKindOf(SatellitesLine(satellites), k);
    OfKindSingle(ActiveFiresLine(count), k);
    OfKindSingle(SatellitesLine(satellites), k);
    OfKindOutsidePart(confidence, Confidence, k);
    OfKindOutsidePart(landCover, LandCover, k);
    OfKindOutsidePart(recent, Recent, k);
  }

  lemma FirePartsLandCover(count: nat, satellites: seq<string>, confidence: seq<Line>, elevation: seq<Line>,
                           landCover: seq<Line>, recent: seq<Line>, k: Kind)
    requires FireSectioned(confidence, elevation, landCover, recent) && FirePartOf(k) == LandCover
    ensures OfKind(FireParts(count, satellites, confidence, elevation, landCover, recent), k) == OfKind(landCover, k)
  {
    FirePartsSplit(count, satellites, confidence, elevation, landCover, recent, k);
    HasKindOf(ActiveFiresLine(count), k);
    HasKindOf(SatellitesLine(satellites), k);
    OfKindSingle(ActiveFiresLine(count), k);
    OfKindSingle(SatellitesLine(satellites), k);
    OfKindOutsidePart(confidence, Confidence, k);
    OfKindOutsidePart(elevation, Elevation, k);
    OfKindOutsidePart(recent, Recent, k);
  }

  lemma FirePartsRecent(count: nat, satellites: seq<string>, confidence: seq<Line>, elevation: seq<Line>,
                        landCover: seq<Line>, recent: seq<Line>, k: Kind)
    requires FireSectioned(confidence, elevation, landCover, recent) && FirePartOf(k) == Recent
    ensures OfKind(FireParts(count, satellites, confidence, elevation, landCover, recent), k) == OfKind(recent, k)
  {
    FirePartsSplit(count, satellites, confidence, elevation, landCover, recent, k);
    HasKindOf(ActiveFiresLine(count), k);
    HasKindOf(SatellitesLine(satellites), k);
    OfKindSingle(ActiveFiresLine(count), k);
    OfKindSingle(SatellitesLine(satellites), k);
    OfKindOutsidePart(confidence, Confidence, k);
    OfKindOutsidePart(elevation, Elevation, k);
    OfKindOutsidePart(landCover, LandCover, k);
  }

  /** Every kind of a part of the fire section is a kind of the fire section. */
  lemma FirePartInFires(k: Kind)
    requires FirePartOf(k) != OutsideFires
    ensures SectionOf(k) == Fires
  {
  }

  /** The fire section prints only lines of its own section. */
  lemma FireLinesWithin(figures: Option<FireStats>)
    ensures Within(FireLines(figures), Fires)
  {
    match figures
    case None =>
    case Some(st) =>
      var confidence, elevation, landCover, recent :=
        ConfidenceLines(st.high, st.medium, st.low), ElevationLines(st.elevation), LandCoverLines(st.landCovers),
        RecentLines(st.recent);
      assert FireLines(figures) == FireParts(st.count, st.satellites, confidence, elevation, landCover, recent);
      FirePartsWithin(st.count, st.satellites, confidence, elevation, landCover, recent);
  }

  lemma FirePartsWithin(count: nat, satellites: seq<string>, confidence: seq<Line>, elevation: seq<Line>,
                        landCover: seq<Line>, recent: seq<Line>)
    requires FireSectioned(confidence, elevation, landCover, recent)
    ensures Within(FireParts(count, satellites, confidence, elevation, landCover, recent), Fires)
  {
    forall l | l in FireParts(count, satellites, confidence, elevation, landCover, recent)
      ensures SectionOf(KindOf(l)) == Fires
    {
      FirePartInFires(KindOf(l));
    }
  }

  /** The summary's sections each print only lines of their own section. */
  lemma SummarySectioned(loc: Option<CurrentLocation>, figures: Option<FireStats>, box: Option<BoundingBox>,
                         last: Option<LastPrediction>, now: int)
    ensures Sectioned(LocationLines(loc), AreaLines(box), FireLines(figures), PredictionLines(last, now))
  {
    FireLinesWithin(figures);
  }

  // ---------------------------------------------------------------------------------------
  // What the summary shows

  /** The summary opens with the header and ends with the closing sentence, each printed once. */
  lemma SummaryFrame(loc: Option<CurrentLocation>, figures: Option<FireStats>, box: Option<BoundingBox>,
                     last: Option<LastPrediction>, now: int)
    ensures var s := Summary(loc, figures, box, last, now);
      && |s| >= 3 && s[0] == Header && s[|s| - 1] == Closing
      && OfKind(s, HeaderKind) == [Header] && OfKind(s, ClosingKind) == [Closing]
  {
    var place, area, fire, prediction := LocationLines(loc), AreaLines(box), FireLines(figures), PredictionLines(last, now);
    assert Summary(loc, figures, box, last, now) == Frame(place, area, fire, prediction);
    SummarySectioned(loc, figures, box, last, now);
    FireLinesNonEmpty(figures);
    FrameOnce(place, area, fire, prediction);
  }

  /** The fire block always prints something: the count line or the no-fires line. */
  lemma FireLinesNonEmpty(figures: Option<FireStats>)
    ensures FireLines(figures) != []
  {
    match figures
    case None =>
    case Some(st) => assert FireLines(figures)[0] == ActiveFiresLine(st.count);
  }

  /** A frame around sectioned blocks opens with its header and ends with its closing line, once each. */
  lemma FrameOnce(place: seq<Line>, area: seq<Line>, fire: seq<Line>, prediction: seq<Line>)
    requires Sectioned(place, area, fire, prediction) && fire != []
    ensures var s := Frame(place, area, fire, prediction);
      && |s| >= 3 && s[0] == Header && s[|s| - 1] == Closing
      && OfKind(s, HeaderKind) == [Header] && OfKind(s, ClosingKind) == [Closing]
  {
    FrameEdges(place, area, fire, prediction, HeaderKind);
    FrameEdges(place, area, fire, prediction, ClosingKind);
    OfKindSingle(Header, HeaderKind);
    OfKindSingle(Closing, HeaderKind);
    OfKindSingle(Header, ClosingKind);
    OfKindSingle(Closing, ClosingKind);
    FrameEnds(place, area, fire, prediction);
  }

  lemma FrameEnds(place: seq<Line>, area: seq<Line>, fire: seq<Line>, prediction: seq<Line>)
    requires fire != []
    ensures var s := Frame(place, area, fire, prediction);
      |s| >= 3 && s[0] == Header && s[|s| - 1] == Closing
  {
  }

  /** The location and zoom lines are printed exactly when a location is set, once each, with its values. */
  lemma LocationShown(loc: Option<CurrentLocation>, figures: Option<FireStats>, box: Option<BoundingBox>,
                      last: Option<LastPrediction>, now: int)
    ensures var s := Summary(loc, figures, box, last, now);
      && OfKind(s, LocationKind)
         == (if loc.Some? then [LocationLine(loc.value.name, loc.value.latitude, loc.value.longitude)] else [])
      && OfKind(s, ZoomKind) == (if loc.Some? then [ZoomLine(loc.value.zoom)] else [])
  {
    SummarySectioned(loc, figures, box, last, now);
    FramePlace(LocationLines(loc), AreaLines(box), FireLines(figures), PredictionLines(last, now), LocationKind);
    FramePlace(LocationLines(loc), AreaLines(box), FireLines(figures), PredictionLines(last, now), ZoomKind);
    LocationLinesOfKind(loc);
  }

  lemma LocationLinesOfKind(loc: Option<CurrentLocation>)
    ensures OfKind(LocationLines(loc), LocationKind)
      == (if loc.Some? then [LocationLine(loc.value.name, loc.value.latitude, loc.value.longitude)] else [])
    ensures OfKind(LocationLines(loc), ZoomKind) == (if loc.Some? then [ZoomLine(loc.value.zoom)] else [])
  {
    if loc.Some? {
      var v := loc.value;
      var x, y := LocationLine(v.name, v.latitude, v.longitude), ZoomLine(v.zoom);
      assert LocationLines(loc) == [x] + [y];
      OfKindConcat([x], [y], LocationKind);
      OfKindConcat([x], [y], ZoomKind);
      OfKindSingle(x, LocationKind);
      OfKindSingle(y, LocationKind);
      OfKindSingle(x, ZoomKind);
      OfKindSingle(y, ZoomKind);
    }
  }

  /** The viewing-area line is printed exactly when a bounding box is set, once, with that box. */
  lemma AreaShown(loc: Option<CurrentLocation>, figures: Option<FireStats>, box: Option<BoundingBox>,
                  last: Option<LastPrediction>, now: int)
    ensures OfKind(Summary(loc, figures, box, last, now), AreaKind)
      == (if box.Some? then [ViewingAreaLine(box.value)] else [])
  {
    SummarySectioned(loc, figures, box, last, now);
    FrameArea(LocationLines(loc), AreaLines(box), FireLines(figures), PredictionLines(last, now), AreaKind);
    if box.Some? {
      OfKindSingle(ViewingAreaLine(box.value), AreaKind);
    }
  }

  /**
   * The prediction line is printed exactly when a prediction was recorded, once, with its risk,
   * its place and its age in whole seconds.
   */
  lemma PredictionShown(loc: Option<CurrentLocation>, figures: Option<FireStats>, box: Option<BoundingBox>,
                        last: Option<LastPrediction>, now: int)
    ensures OfKind(Summary(loc, figures, box, last, now), PredictionKind)
      == (if last.Some?
          then [PredictionLine(last.value.risk, last.value.lat, last.value.lon, AgeSeconds(now, last.value.timestamp))]
          else [])
  {
    SummarySectioned(loc, figures, box, last, now);
    FramePrediction(LocationLines(loc), AreaLines(box), FireLines(figures), PredictionLines(last, now), PredictionKind);
    if last.Some? {
      var p := last.value;
      OfKindSingle(PredictionLine(p.risk, p.lat, p.lon, AgeSeconds(now, p.timestamp)), PredictionKind);
    }
  }

  /** The fire lines of one kind, without fire figures: only the no-fires line. */
  lemma NoFiguresOfKind(k: Kind)
    ensures OfKind(FireLines(None), k) == if k == NoFiresKind then [NoFiresLine] else []
  {
    OfKindSingle(NoFiresLine, k);
  }

  /**
   * The summary says that no fires are visible exactly when there are no fire figures, and then
   * prints no fire count and no satellites; with figures it prints the count and the satellites once.
   */
  lemma CountsShown(loc: Option<CurrentLocation>, figures: Option<FireStats>, box: Option<BoundingBox>,
                    last: Option<LastPrediction>, now: int)
    ensures var s := Summary(loc, figures, box, last, now);
      && OfKind(s, NoFiresKind) == (if figures.None? then [NoFiresLine] else [])
      && OfKind(s, ActiveFiresKind) == (if figures.Some? then [ActiveFiresLine(figures.value.count)] else [])
      && OfKind(s, SatellitesKind) == (if figures.Some? then [SatellitesLine(figures.value.satellites)] else [])
  {
    var place, area, fire, prediction := LocationLines(loc), AreaLines(box), FireLines(figures), PredictionLines(last, now);
    assert Summary(loc, figures, box, last, now) == Frame(place, area, fire, prediction);
    SummarySectioned(loc, figures, box, last, now);
    FrameFire(place, area, fire, prediction, NoFiresKind);
    FrameFire(place, area, fire, prediction, ActiveFiresKind);
    FrameFire(place, area, fire, prediction, SatellitesKind);
    match figures
    case None =>
      NoFiguresOfKind(NoFiresKind);
      NoFiguresOfKind(ActiveFiresKind);
      NoFiguresOfKind(SatellitesKind);
    case Some(st) =>
      CountsOfStats(st);
  }

  /** The count lines of the fire section with figures `st`. */
  lemma CountsOfStats(st: FireStats)
    ensures var s := FireLines(Some(st));
      && OfKind(s, NoFiresKind) == []
      && OfKind(s, ActiveFiresKind) == [ActiveFiresLine(st.count)]
      && OfKind(s, SatellitesKind) == [SatellitesLine(st.satellites)]
  {
    var confidence, elevation, landCover, recent :=
      ConfidenceLines(st.high, st.medium, st.low), ElevationLines(st.elevation), LandCoverLines(st.landCovers),
      RecentLines(st.recent);
    assert FireLines(Some(st)) == FireParts(st.count, st.satellites, confidence, elevation, landCover, recent);
    var a, b := ActiveFiresLine(st.count), SatellitesLine(st.satellites);
    FirePartsCounts(st.count, st.satellites, confidence, elevation, landCover, recent, NoFiresKind);
    FirePartsCounts(st.count, st.satellites, confidence, elevation, landCover, recent, ActiveFiresKind);
    FirePartsCounts(st.count, st.satellites, confidence, elevation, landCover, recent, SatellitesKind);
    OfKindSingle(a, NoFiresKind);
    OfKindSingle(b, NoFiresKind);
    OfKindSingle(a, ActiveFiresKind);
    OfKindSingle(b, ActiveFiresKind);
    OfKindSingle(a, SatellitesKind);
    OfKindSingle(b, SatellitesKind);
  }

  lemma OfKindWhen(c: bool, l: Line, k: Kind)
    ensures OfKind(When(c, l), k) == When(c && HasKind(l, k), l)
  {
    if c {
      OfKindSingle(l, k);
    }
  }

  /** The confidence lines of one kind, bucket by bucket. */
  lemma ConfidenceLinesOfKind(high: nat, medium: nat, low: nat, k: Kind)
    ensures var a, b, c := HighConfidenceLine(high), MediumConfidenceLine(medium), LowConfidenceLine(low);
      OfKind(ConfidenceLines(high, medium, low), k)
      == When(high > 0 && HasKind(a, k), a) + When(medium > 0 && HasKind(b, k), b) + When(low > 0 && HasKind(c, k), c)
  {
    var a, b, c := HighConfidenceLine(high), MediumConfidenceLine(medium), LowConfidenceLine(low);
    var x, y, z := When(high > 0, a), When(medium > 0, b), When(low > 0, c);
    assert ConfidenceLines(high, medium, low) == x + y + z;
    OfKindConcat(x, y, k);
    OfKindConcat(x + y, z, k);
    OfKindWhen(high > 0, a, k);
    OfKindWhen(medium > 0, b, k);
    OfKindWhen(low > 0, c, k);
  }

  /** A confidence line is printed exactly for each non-empty bucket, once, with the bucket's size. */
  lemma ConfidenceShown(loc: Option<CurrentLocation>, figures: Option<FireStats>, box: Option<BoundingBox>,
                        last: Option<LastPrediction>, now: int)
    ensures var s := Summary(loc, figures, box, last, now);
      && OfKind(s, HighKind)
         == (if figures.Some? && figures.value.high > 0 then [HighConfidenceLine(figures.value.high)] else [])
      && OfKind(s, MediumKind)
         == (if figures.Some? && figures.value.medium > 0 then [MediumConfidenceLine(figures.value.medium)] else [])
      && OfKind(s, LowKind)
         == (if figures.Some? && figures.value.low > 0 then [LowConfidenceLine(figures.value.low)] else [])
  {
    var place, area, fire, prediction := LocationLines(loc), AreaLines(box), FireLines(figures), PredictionLines(last, now);
    assert Summary(loc, figures, box, last, now) == Frame(place, area, fire, prediction);
    SummarySectioned(loc, figures, box, last, now);
    FrameFire(place, area, fire, prediction, HighKind);
    FrameFire(place, area, fire, prediction, MediumKind);
    FrameFire(place, area, fire, prediction, LowKind);
    match figures
    case None =>
      NoFiguresOfKind(HighKind);
      NoFiguresOfKind(MediumKind);
      NoFiguresOfKind(LowKind);
    case Some(st) =>
      ConfidenceOfStats(st);
  }

  /** The confidence lines of the fire section with figures `st`, bucket by bucket. */
  lemma ConfidenceOfStats(st: FireStats)
    ensures var s := FireLines(Some(st));
      && OfKind(s, HighKind) == When(st.high > 0, HighConfidenceLine(st.high))
      && OfKind(s, MediumKind) == When(st.medium > 0, MediumConfidenceLine(st.medium))
      && OfKind(s, LowKind) == When(st.low > 0, LowConfidenceLine(st.low))
  {
    var confidence, elevation, landCover, recent :=
      ConfidenceLines(st.high, st.medium, st.low), ElevationLines(st.elevation), LandCoverLines(st.landCovers),
      RecentLines(st.recent);
    var s := FireLines(Some(st));
    assert s == FireParts(st.count, st.satellites, confidence, elevation, landCover, recent);
    var a, b, c := HighConfidenceLine(st.high), MediumConfidenceLine(st.medium), LowConfidenceLine(st.low);
    assert OfKind(s, HighKind) == When(st.high > 0, a) by {
      FirePartsConfidence(st.count, st.satellites, confidence, elevation, landCover, recent, HighKind);
      ConfidenceLinesOfKind(st.high, st.medium, st.low, HighKind);
      assert When(st.medium > 0 && HasKind(b, HighKind), b) == When(st.low > 0 && HasKind(c, HighKind), c) == [];
    }
    assert OfKind(s, MediumKind) == When(st.medium > 0, b) by {
      FirePartsConfidence(st.count, st.satellites, confidence, elevation, landCover, recent, MediumKind);
      ConfidenceLinesOfKind(st.high, st.medium, st.low, MediumKind);
      assert When(st.high > 0 && HasKind(a, MediumKind), a) == When(st.low > 0 && HasKind(c, MediumKind), c) == [];
    }
    assert OfKind(s, LowKind) == When(st.low > 0, c) by {
      FirePartsConfidence(st.count, st.satellites, confidence, elevation, landCover, recent, LowKind);
      ConfidenceLinesOfKind(st.high, st.medium, st.low, LowKind);
      assert When(st.high > 0 && HasKind(a, LowKind), a) == When(st.medium > 0 && HasKind(b, LowKind), b) == [];
    }
  }

  /** The elevation and land-cover lines are printed exactly when there is such a figure, once, with it. */
  lemma TerrainShown(loc: Option<CurrentLocation>, figures: Option<FireStats>, box: Option<BoundingBox>,
                     last: Option<LastPrediction>, now: int)
    ensures var s := Summary(loc, figures, box, last, now);
      && OfKind(s, ElevationKind)
         == (if figures.Some? && figures.value.elevation.Some? then [ElevationLine(figures.value.elevation.value)] else [])
      && OfKind(s, LandCoverKind)
         == (if figures.Some? && figures.value.landCovers != [] then [LandCoverLine(figures.value.landCovers)] else [])
  {
    var place, area, fire, prediction := LocationLines(loc), AreaLines(box), FireLines(figures), PredictionLines(last, now);
    assert Summary(loc, figures, box, last, now) == Frame(place, area, fire, prediction);
    SummarySectioned(loc, figures, box, last, now);
    FrameFire(place, area, fire, prediction, ElevationKind);
    FrameFire(place, area, fire, prediction, LandCoverKind);
    match figures
    case None =>
      NoFiguresOfKind(ElevationKind);
      NoFiguresOfKind(LandCoverKind);
    case Some(st) =>
      TerrainOfStats(st);
  }

  /** The elevation and land-cover lines of the fire section with figures `st`. */
  lemma TerrainOfStats(st: FireStats)
    ensures var s := FireLines(Some(st));
      && OfKind(s, ElevationKind) == ElevationLines(st.elevation)
      && OfKind(s, LandCoverKind) == LandCoverLines(st.landCovers)
  {
    var confidence, elevation, landCover, recent :=
      ConfidenceLines(st.high, st.medium, st.low), ElevationLines(st.elevation), LandCoverLines(st.landCovers),
      RecentLines(st.recent);
    assert FireLines(Some(st)) == FireParts(st.count, st.satellites, confidence, elevation, landCover, recent);
    FirePartsElevation(st.count, st.satellites, confidence, elevation, landCover, recent, ElevationKind);
    FirePartsLandCover(st.count, st.satellites, confidence, elevation, landCover, recent, LandCoverKind);
    if st.elevation.Some? {
      OfKindSingle(ElevationLine(st.elevation.value), ElevationKind);
    }
    OfKindWhen(st.landCovers != [], LandCoverLine(st.landCovers), LandCoverKind);
  }

  lemma RecentLinesOfKind(recent: seq<FireLocation>)
    ensures OfKind(RecentLines(recent), RecentFireKind) == RecentFireLines(recent)
    ensures OfKind(RecentLines(recent), RecentHeaderKind) == if recent != [] then [RecentHeader] else []
  {
    var rl := RecentFireLines(recent);
    RecentFireLinesKind(recent);
    assert forall l :: l in rl ==> HasKind(l, RecentFireKind) && !HasKind(l, RecentHeaderKind);
    OfKindAllOrNone(rl, RecentFireKind);
    OfKindAllOrNone(rl, RecentHeaderKind);
    if recent == [] {
      assert RecentLines(recent) == [] == rl;
    } else {
      assert RecentLines(recent) == [RecentHeader] + rl;
      OfKindConcat([RecentHeader], rl, RecentFireKind);
      OfKindConcat([RecentHeader], rl, RecentHeaderKind);
      OfKindSingle(RecentHeader, RecentFireKind);
      OfKindSingle(RecentHeader, RecentHeaderKind);
    }
  }

  /**
   * The recent-fire lines describe the figures' recent fires in order, under a heading printed
   * once when there is any, and no other line describes a fire.
   */
  lemma RecentShown(loc: Option<CurrentLocation>, figures: Option<FireStats>, box: Option<BoundingBox>,
                    last: Option<LastPrediction>, now: int)
    ensures var s := Summary(loc, figures, box, last, now);
      && OfKind(s, RecentFireKind) == (if figures.Some? then RecentFireLines(figures.value.recent) else [])
      && OfKind(s, RecentHeaderKind) == (if figures.Some? && figures.value.recent != [] then [RecentHeader] else [])
  {
    var place, area, fire, prediction := LocationLines(loc), AreaLines(box), FireLines(figures), PredictionLines(last, now);
    assert Summary(loc, figures, box, last, now) == Frame(place, area, fire, prediction);
    SummarySectioned(loc, figures, box, last, now);
    FrameFire(place, area, fire, prediction, RecentFireKind);
    FrameFire(place, area, fire, prediction, RecentHeaderKind);
    match figures
    case None =>
      NoFiguresOfKind(RecentFireKind);
      NoFiguresOfKind(RecentHeaderKind);
    case Some(st) =>
      RecentOfStats(st);
  }

  /** The recent-fire lines of the fire section with figures `st`, and their heading. */
  lemma RecentOfStats(st: FireStats)
    ensures var s := FireLines(Some(st));
      && OfKind(s, RecentFireKind) == RecentFireLines(st.recent)
      && OfKind(s, RecentHeaderKind) == (if st.recent != [] then [RecentHeader] else [])
  {
    var confidence, elevation, landCover, recent :=
      ConfidenceLines(st.high, st.medium, st.low), ElevationLines(st.elevation), LandCoverLines(st.landCovers),
      RecentLines(st.recent);
    assert FireLines(Some(st)) == FireParts(st.count, st.satellites, confidence, elevation, landCover, recent);
    FirePartsRecent(st.count, st.satellites, confidence, elevation, landCover, recent, RecentFireKind);
    FirePartsRecent(st.count, st.satellites, confidence, elevation, landCover, recent, RecentHeaderKind);
    RecentLinesOfKind(st.recent);
  }

  // ---------------------------------------------------------------------------------------
  // What the figures mean

  /**
   * The fire count is the number of visible fires, the three buckets split them by confidence
   * (above 80, from 50 to 80, below 50) and the satellites are those of the fires, each once,
   * in order of first occurrence.
   */
  lemma StatsCounts(fires: seq<FireLocation>)
    ensures var st := Stats(fires);
      && st.count == |fires|
      && st.high == |Filter(fires, IsHigh)| && st.medium == |Filter(fires, IsMedium)| && st.low == |Filter(fires, IsLow)|
      && st.high + st.medium + st.low == |fires|
      && st.satellites == Satellites(fires)
  {
    BucketsPartition(fires);
  }

  /**
   * The elevation figure is present exactly when some visible fire has a positive elevation;
   * its minimum and maximum are elevations of visible fires that bound every positive one,
   * and the average lies between them.
   */
  lemma StatsElevation(fires: seq<FireLocation>)
    ensures var e := Stats(fires).elevation;
      && (e.None? <==> forall f :: f in fires ==> f.elevation <= 0.0)
      && (e.Some? ==>
            && 0.0 < e.value.min <= e.value.avg <= e.value.max
            && (forall f :: f in fires && f.elevation > 0.0 ==> e.value.min <= f.elevation <= e.value.max)
            && (exists f :: f in fires && f.elevation == e.value.min)
            && (exists f :: f in fires && f.elevation == e.value.max))
  {
    var sorted := SortedByDate(fires);
    ElevationByMembers(sorted);
    SameMembers(fires, sorted);
  }

  /** `ElevationSummaryBounds`, stated on the fires rather than on their positions. */
  lemma ElevationByMembers(fires: seq<FireLocation>)
    ensures var e := ElevationSummary(fires);
      && (e.None? <==> forall f :: f in fires ==> f.elevation <= 0.0)
      && (e.Some? ==>
            && 0.0 < e.value.min <= e.value.avg <= e.value.max
            && (forall f :: f in fires && f.elevation > 0.0 ==> e.value.min <= f.elevation <= e.value.max)
            && (exists f :: f in fires && f.elevation == e.value.min)
            && (exists f :: f in fires && f.elevation == e.value.max))
  {
    ElevationSummaryBounds(fires);
    var e := ElevationSummary(fires);
    if e.Some? {
      var r := e.value;
      var i :| 0 <= i < |fires| && fires[i].elevation == r.min;
      var j :| 0 <= j < |fires| && fires[j].elevation == r.max;
      assert fires[i] in fires && fires[j] in fires;
    } else {
      forall f | f in fires ensures f.elevation <= 0.0 {
        var i :| 0 <= i < |fires| && fires[i] == f;
      }
    }
  }

  lemma SameMembers(fires: seq<FireLocation>, sorted: seq<FireLocation>)
    requires sorted == SortedByDate(fires)
    ensures forall f :: f in fires <==> f in sorted
  {
    forall f ensures f in fires <==> f in sorted {
      assert f in fires <==> f in multiset(fires);
      assert f in sorted <==> f in multiset(sorted);
    }
  }

  /**
   * The land-cover figure is empty exactly when no visible fire has a land cover; otherwise it
   * holds at most three land covers of the visible fires, most frequent first, each with its
   * number of fires, and no land cover left out is more frequent than one listed.
   */
  lemma StatsLandCovers(fires: seq<FireLocation>)
    ensures var top, types := Stats(fires).landCovers, LandCoverTypes(fires);
      && (top == [] <==> types == [])
      && |top| <= TopLandCoverCount
      && Descending(top, EntryCount)
      && (forall e :: e in top ==> e.landCover in types && e.count == multiset(types)[e.landCover])
      && (forall e, t :: e in top && t in types && t !in Keys(top) ==> e.count >= multiset(types)[t])
  {
    var sorted := SortedByDate(fires);
    var types, sortedTypes := LandCoverTypes(fires), LandCoverTypes(sorted);
    LandCoverTypesPermutation(sorted, fires);
    assert forall t :: t in types <==> t in sortedTypes by {
      forall t ensures t in types <==> t in sortedTypes {
        assert t in types <==> t in multiset(types);
        assert t in sortedTypes <==> t in multiset(sortedTypes);
      }
    }
    TopLandCoversAreCounted(sorted);
    TopLandCoversAreMostFrequent(sorted);
    TallyKeys(sortedTypes);
    if sortedTypes != [] {
      assert sortedTypes[0] in Distinct(sortedTypes);
    }
  }

  /** The recent fires are the three newest visible fires (all of them when fewer), newest first. */
  lemma StatsRecent(fires: seq<FireLocation>)
    ensures Stats(fires).recent == RecentFires(fires)
    ensures var recent := Stats(fires).recent;
      && |recent| == (if |fires| <= RecentCount then |fires| else RecentCount)
      && Descending(recent, AcqDate)
      && (forall f :: f in recent ==> f in fires)
      && (forall f, g :: f in fires && f !in recent && g in recent ==> AcqDate(g) >= AcqDate(f))
  {
    RecentFiresAreNewest(fires);
  }

  // ---------------------------------------------------------------------------------------
  // The provider

  /** The state the provider component holds, with its setters and the summary builder. */
  class ViewContextProvider {
    var currentLocation: Option<CurrentLocation>
    var visibleFires: seq<FireLocation>
    var boundingBox: Option<BoundingBox>
    var lastPrediction: Option<LastPrediction>

    /** Every piece of state starts out as `null` or `[]`. */
    constructor ()
      ensures currentLocation == None && visibleFires == [] && boundingBox == None && lastPrediction == None
    {
      currentLocation, visibleFires, boundingBox, lastPrediction := None, [], None, None;
    }

    method UpdateCurrentLocation(location: CurrentLocation)
      modifies this`currentLocation
      ensures currentLocation == Some(location)
    {
      currentLocation := Some(location);
    }

    method UpdateVisibleFires(fires: seq<FireLocation>)
      modifies this`visibleFires
      ensures visibleFires == fires
    {
      visibleFires := fires;
    }

    method UpdateBoundingBox(box: BoundingBox)
      modifies this`boundingBox
      ensures boundingBox == Some(box)
    {
      boundingBox := Some(box);
    }

    /** Records the prediction with the current time `now` (the program's `new Date()`). */
    method UpdateLastPrediction(lat: real, lon: real, risk: string, now: int)
      modifies this`lastPrediction
      ensures lastPrediction == Some(LastPrediction(lat, lon, risk, now))
    {
      lastPrediction := Some(LastPrediction(lat, lon, risk, now));
    }

    /**
     * Builds the summary line by line at time `now` (the program's `Date.now()`). As in the
     * program, sorting the recent fires sorts the stored fire list itself.
     */
    method GetContextSummary(now: int) returns (summary: seq<Line>)
      modifies this`visibleFires
      ensures summary == ContextSummary(old(currentLocation), old(visibleFires), boundingBox, lastPrediction, now)
      ensures visibleFires == SortedByDate(old(visibleFires))
    {
      summary := [Header];
      summary := AppendLocation(summary, currentLocation);
      summary := AppendArea(summary, boundingBox);
      summary := AppendFireSection(summary);
      summary := AppendPrediction(summary, lastPrediction, now);
      summary := summary + [Closing];
    }

    /**
     * The fire block of `getContextSummary`: appends the fire lines to `start`, sorting the
     * stored fire list by date on the way.
     */
    method AppendFireSection(start: seq<Line>) returns (summary: seq<Line>)
      modifies this`visibleFires
      ensures summary == start + FireLines(FireFigures(old(visibleFires)))
      ensures visibleFires == SortedByDate(old(visibleFires))
    {
      if |visibleFires| == 0 {
        summary := start + [NoFiresLine];
        return;
      }
      ghost var fires := visibleFires;
      summary := start + [ActiveFiresLine(|visibleFires|)];
      var high := |Filter(visibleFires, IsHigh)|;
      var medium := |Filter(visibleFires, IsMedium)|;
      var low := |Filter(visibleFires, IsLow)|;
      summary := AppendConfidence(summary, high, medium, low);
      var satellites := Satellites(visibleFires);
      summary := summary + [SatellitesLine(satellites)];
      visibleFires := SortedByDate(visibleFires);
      var recent := Take(visibleFires, RecentCount);
      var elevation := ElevationSummary(visibleFires);
      summary := AppendElevation(summary, elevation);
      var landCovers := Tally(LandCoverTypes(visibleFires));
      var top := TopLandCovers(visibleFires);
      TallyMatchesTop(visibleFires);
      summary := AppendLandCovers(summary, |landCovers|, top);
      summary := AppendRecent(summary, recent);
      assert Stats(fires) == FireStats(|fires|, high, medium, low, satellites, elevation, top, recent);
      FirePartsAppend(start, |fires|, satellites, ConfidenceLines(high, medium, low), ElevationLines(elevation),
                      LandCoverLines(top), RecentLines(recent));
    }
  }

  /** Appends the location and zoom lines when a location is set. */
  method AppendLocation(start: seq<Line>, loc: Option<CurrentLocation>) returns (summary: seq<Line>)
    ensures summary == start + LocationLines(loc)
  {
    summary := start;
    if loc.Some? {
      var c := loc.value;
      summary := summary + [LocationLine(c.name, c.latitude, c.longitude)];
      summary := summary + [ZoomLine(c.zoom)];
    }
  }

  /** Appends the viewing-area line when a bounding box is set. */
  method AppendArea(start: seq<Line>, box: Option<BoundingBox>) returns (summary: seq<Line>)
    ensures summary == start + AreaLines(box)
  {
    summary := start;
    if box.Some? {
      summary := summary + [ViewingAreaLine(box.value)];
    }
  }

  /** Appends the prediction line, with the prediction's age at time `now`, when one was recorded. */
  method AppendPrediction(start: seq<Line>, last: Option<LastPrediction>, now: int) returns (summary: seq<Line>)
    ensures summary == start + PredictionLines(last, now)
  {
    summary := start;
    if last.Some? {
      var p := last.value;
      summary := summary + [PredictionLine(p.risk, p.lat, p.lon, AgeSeconds(now, p.timestamp))];
    }
  }

  /** Appends a line for each non-empty confidence bucket. */
  method AppendConfidence(start: seq<Line>, high: nat, medium: nat, low: nat) returns (summary: seq<Line>)
    ensures summary == start + ConfidenceLines(high, medium, low)
  {
    summary := start;
    if high > 0 { summary := summary + [HighConfidenceLine(high)]; }
    if medium > 0 { summary := summary + [MediumConfidenceLine(medium)]; }
    if low > 0 { summary := summary + [LowConfidenceLine(low)]; }
  }

  /** Appends the elevation line when some fire lies above sea level. */
  method AppendElevation(start: seq<Line>, elevation: Option<ElevationRange>) returns (summary: seq<Line>)
    ensures summary == start + ElevationLines(elevation)
  {
    summary := start;
    if elevation.Some? {
      summary := summary + [ElevationLine(elevation.value)];
    }
  }

  /**
   * Appends the land-cover line when the record of land covers has `keys` entries, `top`
   * being its most frequent ones.
   */
  method AppendLandCovers(start: seq<Line>, keys: nat, top: seq<LandCoverCount>) returns (summary: seq<Line>)
    requires (keys > 0) == (top != [])
    ensures summary == start + LandCoverLines(top)
  {
    summary := start;
    if keys > 0 {
      summary := summary + [LandCoverLine(top)];
    }
  }

  /** Appends the recent-fires header and the recent fires, when there are any. */
  method AppendRecent(start: seq<Line>, recent: seq<FireLocation>) returns (summary: seq<Line>)
    ensures summary == start + RecentLines(recent)
  {
    summary := start;
    if |recent| > 0 {
      summary := AppendRecentFires(start + [RecentHeader], recent);
    }
  }

  /** The `forEach` over the recent fires: appends one line per fire to `start`, in order. */
  method AppendRecentFires(start: seq<Line>, recent: seq<FireLocation>) returns (summary: seq<Line>)
    ensures summary == start + RecentFireLines(recent)
  {
    summary := start;
    for i := 0 to |recent|
      invariant summary == start + RecentFireLines(recent[..i])
    {
      assert recent[..i + 1] == recent[..i] + [recent[i]];
      RecentFireLinesConcat(recent[..i], [recent[i]]);
      summary := summary + [Describe(recent[i])];
    }
    assert recent[..|recent|] == recent;
  }

  /** The fire section appended piece by piece is the fire section appended at once. */
  lemma FirePartsAppend(start: seq<Line>, count: nat, satellites: seq<string>, confidence: seq<Line>,
                        elevation: seq<Line>, landCover: seq<Line>, recent: seq<Line>)
    ensures start + FireParts(count, satellites, confidence, elevation, landCover, recent)
         == start + [ActiveFiresLine(count)] + confidence + [SatellitesLine(satellites)] + elevation + landCover + recent
  {
  }

  lemma {:induction false} RecentFireLinesConcat(a: seq<FireLocation>, b: seq<FireLocation>)
    ensures RecentFireLines(a + b) == RecentFireLines(a) + RecentFireLines(b)
  {
    if a == [] {
      assert a + b == b;
    } else {
      assert (a + b)[0] == a[0] && (a + b)[1..] == a[1..] + b;
      RecentFireLinesConcat(a[1..], b);
    }
  }
}
