/** The domains a plugin combines when it builds metadata for a derived
    variable, and the running max/min folds the "union" utilities perform. */
module Domains {
  import opened Base

  /** A geographic bounding box in degrees (GeoAPI GeographicBoundingBox). */
  datatype GeographicBoundingBox = GeographicBoundingBox(west: real, east: real, south: real, north: real)

  /** A horizontal domain, seen through its geographic bounding box. */
  datatype HorizontalDomain = HorizontalDomain(geographicBoundingBox: GeographicBoundingBox)

  /** The WGS84 box of a synthesised horizontal domain, in the argument
      order of its constructor: minimum longitude, minimum latitude,
      maximum longitude, maximum latitude. */
  datatype BoundingBox = BoundingBox(minX: real, minY: real, maxX: real, maxY: real)

  /** A closed range of values. */
  datatype Extent<T> = Extent(low: T, high: T)

  /** A vertical domain: an extent and a vertical CRS, which may be null. */
  datatype VerticalDomain<Crs> = VerticalDomain(extent: Extent<real>, verticalCrs: Option<Crs>)

  /** An instant as Joda holds it: milliseconds since the epoch, a Java long. */
  newtype Millis = m: int | -0x8000_0000_0000_0000 <= m <= 0x7FFF_FFFF_FFFF_FFFF

  /** A temporal domain: an extent of instants and a chronology. */
  datatype TemporalDomain<Chronology> = TemporalDomain(extent: Extent<Millis>, chronology: Chronology)

  /** Double.MAX_VALUE, exactly: (2^53 - 1) * 2^971. */
  const DoubleMax: real := 179769313486231570814527423731704356798070567525844996598917476803157260780028538760589558632766878171540458953514382464234321326889464182768467546703537516986049910576551282076245490090389328944075868508455133942304583236903222948165808559332123348274797826204144723168738177180919299881250404026184124858368.0

  /** new DateTime(0L): the epoch. */
  const Epoch: Millis := 0

  /** new DateTime(Long.MAX_VALUE). */
  const LongMax: Millis := 0x7FFF_FFFF_FFFF_FFFF

  // ---------------------------------------------------------------------
  // Running folds. Each mirrors a loop variable that starts at `start` and
  // is replaced by an element only when that element compares strictly
  // beyond it.

  function Project<T, U>(f: T -> U, xs: seq<T>): (r: seq<U>)
    ensures |r| == |xs|
    ensures forall i :: 0 <= i < |xs| ==> r[i] == f(xs[i])
  {
    seq(|xs|, i requires 0 <= i < |xs| => f(xs[i]))
  }

  lemma ProjectPrefix<T, U>(f: T -> U, xs: seq<T>, i: nat)
    requires i < |xs|
    ensures Project(f, xs[..i + 1]) == Project(f, xs[..i]) + [f(xs[i])]
  {
  }

  /** `if (x > acc) acc = x;` folded over xs. */
  function Greatest(start: real, xs: seq<real>): real
  {
    if xs == [] then start
    else
      var acc := Greatest(start, xs[..|xs| - 1]);
      if xs[|xs| - 1] > acc then xs[|xs| - 1] else acc
  }

  /** One more step of the raising fold over a projection: the i-th element
      replaces the running value only when strictly greater. */
  lemma GreatestStep<T>(start: real, f: T -> real, xs: seq<T>, i: nat)
    requires i < |xs|
    ensures Greatest(start, Project(f, xs[..i + 1]))
         == (var acc := Greatest(start, Project(f, xs[..i])); if f(xs[i]) > acc then f(xs[i]) else acc)
  {
    ProjectPrefix(f, xs, i);
    var p := Project(f, xs[..i + 1]);
    assert p[..|p| - 1] == Project(f, xs[..i]);
  }

  /** `if (x < acc) acc = x;` folded over xs. */
  function Least(start: real, xs: seq<real>): real
  {
    if xs == [] then start
    else
      var acc := Least(start, xs[..|xs| - 1]);
      if xs[|xs| - 1] < acc then xs[|xs| - 1] else acc
  }

  /** One more step of the lowering fold over a projection: the i-th element
      replaces the running value only when strictly less. */
  lemma LeastStep<T>(start: real, f: T -> real, xs: seq<T>, i: nat)
    requires i < |xs|
    ensures Least(start, Project(f, xs[..i + 1]))
         == (var acc := Least(start, Project(f, xs[..i])); if f(xs[i]) < acc then f(xs[i]) else acc)
  {
    ProjectPrefix(f, xs, i);
    var p := Project(f, xs[..i + 1]);
    assert p[..|p| - 1] == Project(f, xs[..i]);
  }

  /** `if (t.isAfter(acc)) acc = t;` folded over ts. */
  function Latest(start: Millis, ts: seq<Millis>): Millis
  {
    if ts == [] then start
    else
      var acc := Latest(start, ts[..|ts| - 1]);
      if ts[|ts| - 1] > acc then ts[|ts| - 1] else acc
  }

  /** `if (t.isBefore(acc)) acc = t;` folded over ts. */
  function Earliest(start: Millis, ts: seq<Millis>): Millis
  {
    if ts == [] then start
    else
      var acc := Earliest(start, ts[..|ts| - 1]);
      if ts[|ts| - 1] < acc then ts[|ts| - 1] else acc
  }

  /** v is the largest of start and the elements of xs. */
  ghost predicate IsGreatest(v: real, start: real, xs: seq<real>)
  {
    v >= start && (forall x <- xs :: v >= x) && (v == start || v in xs)
  }

  /** v is the smallest of start and the elements of xs. */
  ghost predicate IsLeast(v: real, start: real, xs: seq<real>)
  {
    v <= start && (forall x <- xs :: v <= x) && (v == start || v in xs)
  }

  ghost predicate IsLatest(v: Millis, start: Millis, ts: seq<Millis>)
  {
    v >= start && (forall t <- ts :: v >= t) && (v == start || v in ts)
  }

  ghost predicate IsEarliest(v: Millis, start: Millis, ts: seq<Millis>)
  {
    v <= start && (forall t <- ts :: v <= t) && (v == start || v in ts)
  }

  lemma {:induction false} GreatestIsMaximum(start: real, xs: seq<real>)
    ensures IsGreatest(Greatest(start, xs), start, xs)
  {
    if xs != [] {
      GreatestIsMaximum(start, xs[..|xs| - 1]);
      assert xs == xs[..|xs| - 1] + [xs[|xs| - 1]];
    }
  }

  lemma {:induction false} LeastIsMinimum(start: real, xs: seq<real>)
    ensures IsLeast(Least(start, xs), start, xs)
  {
    if xs != [] {
      LeastIsMinimum(start, xs[..|xs| - 1]);
      assert xs == xs[..|xs| - 1] + [xs[|xs| - 1]];
    }
  }

  lemma {:induction false} LatestIsMaximum(start: Millis, ts: seq<Millis>)
    ensures IsLatest(Latest(start, ts), start, ts)
  {
    if ts != [] {
      LatestIsMaximum(start, ts[..|ts| - 1]);
      assert ts == ts[..|ts| - 1] + [ts[|ts| - 1]];
    }
  }

  lemma {:induction false} EarliestIsMinimum(start: Millis, ts: seq<Millis>)
    ensures IsEarliest(Earliest(start, ts), start, ts)
  {
    if ts != [] {
      EarliestIsMinimum(start, ts[..|ts| - 1]);
      assert ts == ts[..|ts| - 1] + [ts[|ts| - 1]];
    }
  }

  // ---------------------------------------------------------------------
  // Horizontal domains.

  function West(d: HorizontalDomain): real { d.geographicBoundingBox.west }
  function East(d: HorizontalDomain): real { d.geographicBoundingBox.east }
  function South(d: HorizontalDomain): real { d.geographicBoundingBox.south }
  function North(d: HorizontalDomain): real { d.geographicBoundingBox.north }

  /** The box that the four running variables reach, starting from `start`:
      the minima are raised to the largest west/south bound and the maxima
      lowered to the smallest east/north bound. */
  function FoldBoxes(start: BoundingBox, ds: seq<HorizontalDomain>): BoundingBox
  {
    BoundingBox(
      Greatest(start.minX, Project(West, ds)),
      Greatest(start.minY, Project(South, ds)),
      Least(start.maxX, Project(East, ds)),
      Least(start.maxY, Project(North, ds)))
  }

  /** The starting values the source uses: minLon = 180, minLat = 90,
      maxLon = -180, maxLat = -90. */
  const UnionStart := BoundingBox(180.0, 90.0, -180.0, -90.0)

  /** The whole globe, the starting box an intersection needs. */
  const WholeGlobe := BoundingBox(-180.0, -90.0, 180.0, 90.0)

  /** getUnionOfHorizontalDomains as written. */
  function HorizontalUnion(ds: seq<HorizontalDomain>): Result<BoundingBox>
  {
    if |ds| == 0 then Failure(EmptyInput) else Success(FoldBoxes(UnionStart, ds))
  }

  /** What getUnionOfHorizontalDomains evidently means to compute: the area
      common to all the domains, within the globe. */
  function HorizontalIntersection(ds: seq<HorizontalDomain>): Result<BoundingBox>
  {
    if |ds| == 0 then Failure(EmptyInput) else Success(FoldBoxes(WholeGlobe, ds))
  }

  ghost predicate InGlobe(g: GeographicBoundingBox)
  {
    -180.0 <= g.west <= 180.0 && -180.0 <= g.east <= 180.0 && -90.0 <= g.south <= 90.0 && -90.0 <= g.north <= 90.0
  }

  ghost predicate Covers(g: GeographicBoundingBox, lon: real, lat: real)
  {
    g.west <= lon <= g.east && g.south <= lat <= g.north
  }

  ghost predicate Contains(b: BoundingBox, lon: real, lat: real)
  {
    b.minX <= lon <= b.maxX && b.minY <= lat <= b.maxY
  }

  /** As written, any non-empty list of boxes inside the globe yields the
      same inverted box (180, 90, -180, -90), whatever the boxes are. */
  lemma HorizontalUnionOfBoxesInGlobe(ds: seq<HorizontalDomain>)
    requires |ds| > 0
    requires forall i :: 0 <= i < |ds| ==> InGlobe(ds[i].geographicBoundingBox)
    ensures HorizontalUnion(ds) == Success(BoundingBox(180.0, 90.0, -180.0, -90.0))
    ensures forall lon, lat :: !Contains(HorizontalUnion(ds).value, lon, lat)
  {
    GreatestIsMaximum(180.0, Project(West, ds));
    GreatestIsMaximum(90.0, Project(South, ds));
    LeastIsMinimum(-180.0, Project(East, ds));
    LeastIsMinimum(-90.0, Project(North, ds));
  }

  /** The corrected fold is the intersection: a point lies in the result
      exactly when it lies on the globe and in every input box. */
  lemma HorizontalIntersectionContains(ds: seq<HorizontalDomain>, lon: real, lat: real)
    requires |ds| > 0
    ensures HorizontalIntersection(ds).Success?
    ensures Contains(HorizontalIntersection(ds).value, lon, lat) <==>
      -180.0 <= lon <= 180.0 && -90.0 <= lat <= 90.0 &&
      forall i :: 0 <= i < |ds| ==> Covers(ds[i].geographicBoundingBox, lon, lat)
  {
    GreatestIsMaximum(-180.0, Project(West, ds));
    GreatestIsMaximum(-90.0, Project(South, ds));
    LeastIsMinimum(180.0, Project(East, ds));
    LeastIsMinimum(90.0, Project(North, ds));
    var b := HorizontalIntersection(ds).value;
    if -180.0 <= lon <= 180.0 && -90.0 <= lat <= 90.0 &&
       forall i :: 0 <= i < |ds| ==> Covers(ds[i].geographicBoundingBox, lon, lat) {
      assert forall x <- Project(West, ds) :: x <= lon;
      assert forall x <- Project(South, ds) :: x <= lat;
      assert forall x <- Project(East, ds) :: x >= lon;
      assert forall x <- Project(North, ds) :: x >= lat;
    }
    if Contains(b, lon, lat) {
      forall i | 0 <= i < |ds| ensures Covers(ds[i].geographicBoundingBox, lon, lat) {
        assert Project(West, ds)[i] in Project(West, ds);
        assert Project(South, ds)[i] in Project(South, ds);
        assert Project(East, ds)[i] in Project(East, ds);
        assert Project(North, ds)[i] in Project(North, ds);
      }
    }
  }

  /** The two boxes [-10, 10] x [-5, 5] and [-5, 5] x [-2, 2]: as written the
      result is the inverted box, while their intersection is [-5, 5] x [-2, 2]. */
  lemma HorizontalUnionOfTwoBoxes()
    ensures var ds := [HorizontalDomain(GeographicBoundingBox(-10.0, 10.0, -5.0, 5.0)),
                       HorizontalDomain(GeographicBoundingBox(-5.0, 5.0, -2.0, 2.0))];
      && HorizontalUnion(ds) == Success(BoundingBox(180.0, 90.0, -180.0, -90.0))
      && HorizontalIntersection(ds) == Success(BoundingBox(-5.0, -2.0, 5.0, 2.0))
  {
    var ds := [HorizontalDomain(GeographicBoundingBox(-10.0, 10.0, -5.0, 5.0)),
               HorizontalDomain(GeographicBoundingBox(-5.0, 5.0, -2.0, 2.0))];
    assert Project(West, ds) == [-10.0, -5.0] && [-10.0, -5.0][..1] == [-10.0];
    assert Project(East, ds) == [10.0, 5.0] && [10.0, 5.0][..1] == [10.0];
    assert Project(South, ds) == [-5.0, -2.0] && [-5.0, -2.0][..1] == [-5.0];
    assert Project(North, ds) == [5.0, 2.0] && [5.0, 2.0][..1] == [5.0];
    assert Greatest(180.0, [-10.0]) == 180.0 && Greatest(-180.0, [-10.0]) == -10.0;
    assert Greatest(90.0, [-5.0]) == 90.0 && Greatest(-90.0, [-5.0]) == -5.0;
    assert Least(-180.0, [10.0]) == -180.0 && Least(180.0, [10.0]) == 10.0;
    assert Least(-90.0, [5.0]) == -90.0 && Least(90.0, [5.0]) == 5.0;
  }

  // ---------------------------------------------------------------------
  // Vertical domains.

  function Low<Crs>(d: VerticalDomain<Crs>): real { d.extent.low }
  function High<Crs>(d: VerticalDomain<Crs>): real { d.extent.high }

  /** getUnionOfVerticalDomains: fails on no domains; a null CRS on the first
      domain makes the comparison dereference null; any domain whose CRS is
      not equal to the first one's is refused; otherwise the largest low and
      the smallest high, starting from -Double.MAX_VALUE and Double.MAX_VALUE. */
  function VerticalUnion<Crs(==)>(ds: seq<VerticalDomain<Crs>>): Result<VerticalDomain<Crs>>
  {
    if |ds| == 0 then Failure(EmptyInput)
    else if ds[0].verticalCrs.None? then Failure(NullPointer)
    else if exists i :: 0 <= i < |ds| && ds[i].verticalCrs != ds[0].verticalCrs then Failure(IncompatibleCrs)
    else Success(VerticalDomain(
      Extent(Greatest(-DoubleMax, Project(Low, ds)), Least(DoubleMax, Project(High, ds))),
      ds[0].verticalCrs))
  }

  /** When the vertical union succeeds, a level lies in its extent exactly
      when it lies in every input extent (and within the double range). */
  lemma VerticalUnionIsCommonRange<Crs>(ds: seq<VerticalDomain<Crs>>, z: real)
    requires VerticalUnion(ds).Success?
    ensures var e := VerticalUnion(ds).value.extent;
      e.low <= z <= e.high <==>
        -DoubleMax <= z <= DoubleMax && forall i :: 0 <= i < |ds| ==> ds[i].extent.low <= z <= ds[i].extent.high
    ensures VerticalUnion(ds).value.verticalCrs == ds[0].verticalCrs
  {
    GreatestIsMaximum(-DoubleMax, Project(Low, ds));
    LeastIsMinimum(DoubleMax, Project(High, ds));
    var e := VerticalUnion(ds).value.extent;
    if e.low <= z <= e.high {
      forall i | 0 <= i < |ds| ensures ds[i].extent.low <= z <= ds[i].extent.high {
        assert Project(Low, ds)[i] in Project(Low, ds);
        assert Project(High, ds)[i] in Project(High, ds);
      }
    }
  }

  /** (0, 100) and (20, 80) under one CRS give (20, 80); two different CRSs
      are refused; a null CRS on the first domain dereferences null. */
  lemma VerticalUnionOfTwoExtents<Crs>(a: Crs, b: Crs)
    requires a != b
    ensures VerticalUnion([VerticalDomain(Extent(0.0, 100.0), Some(a)), VerticalDomain(Extent(20.0, 80.0), Some(a))])
      == Success(VerticalDomain(Extent(20.0, 80.0), Some(a)))
    ensures VerticalUnion([VerticalDomain(Extent(0.0, 100.0), Some(a)), VerticalDomain(Extent(20.0, 80.0), Some(b))])
      == Failure(IncompatibleCrs)
    ensures VerticalUnion<Crs>([VerticalDomain(Extent(0.0, 100.0), None), VerticalDomain(Extent(20.0, 80.0), None)])
      == Failure(NullPointer)
  {
    var ds := [VerticalDomain(Extent(0.0, 100.0), Some(a)), VerticalDomain(Extent(20.0, 80.0), Some(a))];
    assert Project(Low, ds) == [0.0, 20.0] && [0.0, 20.0][..1] == [0.0];
    assert Project(High, ds) == [100.0, 80.0] && [100.0, 80.0][..1] == [100.0];
    assert Greatest(-DoubleMax, [0.0]) == 0.0;
    assert Least(DoubleMax, [100.0]) == 100.0;
    var bad := [VerticalDomain(Extent(0.0, 100.0), Some(a)), VerticalDomain(Extent(20.0, 80.0), Some(b))];
    assert bad[1].verticalCrs != bad[0].verticalCrs;
  }

  // ---------------------------------------------------------------------
  // Temporal domains.

  function Start<Chronology>(d: TemporalDomain<Chronology>): Millis { d.extent.low }
  function End<Chronology>(d: TemporalDomain<Chronology>): Millis { d.extent.high }

  /** getUnionOfTemporalDomains: fails on no domains; otherwise the latest
      start (starting from the epoch) and the earliest end (starting from
      Long.MAX_VALUE), in the first domain's chronology. */
  function TemporalUnion<Chronology>(ds: seq<TemporalDomain<Chronology>>): Result<TemporalDomain<Chronology>>
  {
    if |ds| == 0 then Failure(EmptyInput)
    else Success(TemporalDomain(
      Extent(Latest(Epoch, Project(Start, ds)), Earliest(LongMax, Project(End, ds))),
      ds[0].chronology))
  }

  /** An instant lies in the temporal union exactly when it is not before
      the epoch and lies in every input extent: instants before 1970 are cut
      off even when every domain covers them. */
  lemma TemporalUnionIsCommonRangeFromEpoch<Chronology>(ds: seq<TemporalDomain<Chronology>>, t: Millis)
    requires |ds| > 0
    ensures TemporalUnion(ds).Success?
    ensures TemporalUnion(ds).value.chronology == ds[0].chronology
    ensures var e := TemporalUnion(ds).value.extent;
      e.low <= t <= e.high <==>
        Epoch <= t && forall i :: 0 <= i < |ds| ==> ds[i].extent.low <= t <= ds[i].extent.high
  {
    LatestIsMaximum(Epoch, Project(Start, ds));
    EarliestIsMinimum(LongMax, Project(End, ds));
    var e := TemporalUnion(ds).value.extent;
    if e.low <= t <= e.high {
      forall i | 0 <= i < |ds| ensures ds[i].extent.low <= t <= ds[i].extent.high {
        assert Project(Start, ds)[i] in Project(Start, ds);
        assert Project(End, ds)[i] in Project(End, ds);
      }
    }
  }

  /** A single domain that starts before the epoch is cut at the epoch. */
  lemma TemporalUnionBeforeEpoch<Chronology>(c: Chronology)
    ensures TemporalUnion([TemporalDomain(Extent(-1000, 1000), c)])
      == Success(TemporalDomain(Extent(0, 1000), c))
  {
    var ds := [TemporalDomain(Extent(-1000, 1000), c)];
    assert Project(Start, ds) == [-1000] && [-1000 as Millis][..0] == [];
    assert Project(End, ds) == [1000] && [1000 as Millis][..0] == [];
  }
}
