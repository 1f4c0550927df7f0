/** What the trajectory generator's plan looks like: how many points, in
    which order, at which heights and where, and what each CSV row holds.
    Every lemma is about the functions of PathGen that the methods of
    PathGenerate are proved to follow. */
module PathGenProps {
  import opened Numerics
  import opened PathGen

  // ---------------------------------------------------------------------
  // Count and order
  // ---------------------------------------------------------------------

  /** For whole, positive nh or nv the float loop runs exactly that often. */
  lemma CountOfWhole(k: nat)
    ensures Count(k as real) == k
  {
  }

  /** Ring i's samples come in order 0, 1, ..., numbered from base. */
  lemma {:induction false} RingScheduleShape(i: nat, n: nat, base: int)
    ensures |RingSchedule(i, n, base)| == n
    ensures forall j :: 0 <= j < n ==> RingSchedule(i, n, base)[j] == Point(i, j, base + j)
  {
    if n > 0 {
      RingScheduleShape(i, n - 1, base);
    }
  }

  /** Multiplying by a natural keeps the order. */
  lemma MulMono(a: int, b: int, v: nat)
    requires a <= b
    ensures a * v <= b * v
  {
  }

  /** The ring of the point in place k when every ring has v points: k / v. */
  function RingOf(v: nat, k: nat): nat
  {
    if v == 0 then 0 else k / v
  }

  /** Its sample within the ring: k % v. */
  function SlotOf(v: nat, k: nat): nat
  {
    if v == 0 then 0 else k % v
  }

  /** Place i * v + j, with j < v, is sample j of ring i. */
  lemma PlaceOf(v: nat, i: nat, j: nat)
    requires j < v
    ensures RingOf(v, FirstNumber(v, i) + j) == i && SlotOf(v, FirstNumber(v, i) + j) == j
  {
    var k := i * v + j;
    var q, r := k / v, k % v;
    assert q * v + r == k && 0 <= r < v;
    if q > i {
      MulMono(i + 1, q, v);
    } else if q < i {
      MulMono(q + 1, i, v);
    }
  }

  /** Rings 0 .. n-1 of v samples each: n * v points, ring after ring; the
      point in place k is sample SlotOf(v, k) of ring RingOf(v, k) and is
      numbered k. */
  lemma {:induction false} ScheduleShape(v: nat, n: nat)
    ensures |Schedule(v, n)| == n * v
    ensures forall k :: 0 <= k < |Schedule(v, n)| ==> Schedule(v, n)[k] == Point(RingOf(v, k), SlotOf(v, k), k)
  {
    if n > 0 {
      var prev := Schedule(v, n - 1);
      var ring := RingSchedule(n - 1, v, FirstNumber(v, n - 1));
      ScheduleShape(v, n - 1);
      RingScheduleShape(n - 1, v, FirstNumber(v, n - 1));
      FirstNumberNext(v, n - 1);
      forall k | |prev| <= k < |prev| + |ring|
        ensures (prev + ring)[k] == Point(RingOf(v, k), SlotOf(v, k), k)
      {
        PlaceOf(v, n - 1, k - |prev|);
      }
    }
  }

  /** The emissions of a run of points, in the points' order. */
  lemma {:induction false} EmitsShape(m: Libm, s: Scan, o: Origin, pts: seq<Point>)
    ensures |Emits(m, s, o, pts)| == |pts|
    ensures forall k :: 0 <= k < |pts| ==>
      Emits(m, s, o, pts)[k] == Emit(m, s, o, pts[k].ring, pts[k].sample, pts[k].number)
    decreases |pts|
  {
    if pts != [] {
      var front := pts[..|pts| - 1];
      var rows := Emits(m, s, o, pts);
      EmitsShape(m, s, o, front);
      assert rows == Emits(m, s, o, front) + [Emit(m, s, o, pts[|pts| - 1].ring, pts[|pts| - 1].sample, pts[|pts| - 1].number)];
      forall k | 0 <= k < |pts| - 1
        ensures rows[k] == Emit(m, s, o, pts[k].ring, pts[k].sample, pts[k].number)
      {
        assert rows[k] == Emits(m, s, o, front)[k];
        assert pts[k] == front[k];
      }
    }
  }

  /** One CSV line per emission, each the text of that emission's
      coord_array_. */
  lemma {:induction false} LinesShape(fmt: Format, rows: seq<Emission>)
    ensures |Lines(fmt, rows)| == |rows|
    ensures forall k :: 0 <= k < |rows| ==> Lines(fmt, rows)[k] == RowText(fmt, rows[k].coord)
    decreases |rows|
  {
    if rows != [] {
      var front := rows[..|rows| - 1];
      LinesShape(fmt, front);
      forall k | 0 <= k < |rows| - 1
        ensures rows[k] == front[k]
      {
      }
    }
  }

  /** createInspectionPoints emits Count(nh) * Count(nv) points; the point in
      place k is sample SlotOf(Count(nv), k) of ring RingOf(Count(nv), k),
      converted as point number k. */
  lemma PlanShape(m: Libm, s: Scan, o: Origin)
    ensures |Plan(m, s, o)| == Count(s.nh) * Count(s.nv)
    ensures forall k :: 0 <= k < |Plan(m, s, o)| ==>
      Plan(m, s, o)[k] == Emit(m, s, o, RingOf(Count(s.nv), k), SlotOf(Count(s.nv), k), k)
  {
    var v, n := Count(s.nv), Count(s.nh);
    var pts := Schedule(v, n);
    ScheduleShape(v, n);
    EmitsShape(m, s, o, pts);
  }

  /** The CSV file gets one line per point, in the same order: line k holds
      the coordinates of sample SlotOf(Count(nv), k) of ring
      RingOf(Count(nv), k). */
  lemma WrittenLines(m: Libm, fmt: Format, s: Scan, o: Origin)
    ensures |Lines(fmt, Plan(m, s, o))| == Count(s.nh) * Count(s.nv)
    ensures forall k :: 0 <= k < |Lines(fmt, Plan(m, s, o))| ==>
      Lines(fmt, Plan(m, s, o))[k] == RowText(fmt, Emit(m, s, o, RingOf(Count(s.nv), k), SlotOf(Count(s.nv), k), k).coord)
  {
    PlanShape(m, s, o);
    LinesShape(fmt, Plan(m, s, o));
  }

  // ---------------------------------------------------------------------
  // Heights: a boustrophedon
  // ---------------------------------------------------------------------

  /** Even rings climb from 0 by dv. */
  lemma EvenRingClimbs(s: Scan, i: nat, j: nat)
    requires i % 2 == 0
    ensures Height(s, i, j) == j as real * s.dv
  {
  }

  /** Odd rings descend from (nv - 1) * dv by dv. */
  lemma OddRingDescends(s: Scan, i: nat, j: nat)
    requires i % 2 == 1
    ensures Height(s, i, j) == (s.nv - 1.0 - j as real) * s.dv
  {
  }

  /** When nv is whole, an odd ring visits the heights of an even ring in
      reverse order, so consecutive rings meet at the same height. */
  lemma OddRingRetraces(s: Scan, even: nat, odd: nat, j: nat)
    requires even % 2 == 0 && odd % 2 == 1
    requires s.nv == Count(s.nv) as real && j < Count(s.nv)
    ensures Height(s, odd, j) == Height(s, even, Count(s.nv) - 1 - j)
  {
    OddRingDescends(s, odd, j);
    EvenRingClimbs(s, even, Count(s.nv) - 1 - j);
  }

  // ---------------------------------------------------------------------
  // The rotation
  // ---------------------------------------------------------------------

  /** With the library's cos(pi) = -1 and |sin(pi)| < 1, the product loop
      turns a vector by 180 degrees about the vertical axis. */
  lemma HalfTurn(m: Libm, v: seq<real>)
    requires Sane(m) && |v| == 3
    ensures RotateAsWritten(RotZ(m, 180), v) == [-v[0], -v[1], v[2]]
  {
    var rot := RotZ(m, 180);
    assert rot == [[-1, 0, 0], [0, -1, 0], [0, 0, 1]];
    assert RowProduct(rot, 0, v[0]) == -v[0];
    assert RowProduct(rot, 1, v[1]) == -v[1];
    assert RowProduct(rot, 2, v[2]) == v[2];
  }

  /** The loop multiplies every entry of row j by v[j]; for a diagonal
      matrix that is the matrix-vector product. */
  lemma AsWrittenOnDiagonal(rot: seq<seq<int>>, v: seq<real>)
    requires IsMatrix(rot) && |v| == 3 && IsDiagonal(rot)
    ensures RotateAsWritten(rot, v) == MatVec(rot, v)
  {
    var w := RotateAsWritten(rot, v);
    var u := MatVec(rot, v);
    forall j | 0 <= j < 3
      ensures w[j] == u[j]
    {
      assert rot[j][0] == 0 || j == 0;
      assert rot[j][1] == 0 || j == 1;
      assert rot[j][2] == 0 || j == 2;
    }
  }

  /** For a matrix with an off-diagonal entry the loop is not the product:
      the quarter turn applied to (1, 0, 0). */
  lemma AsWrittenOffDiagonal()
    ensures var rot := [[0, -1, 0], [1, 0, 0], [0, 0, 1]];
      RotateAsWritten(rot, [1.0, 0.0, 0.0]) != MatVec(rot, [1.0, 0.0, 0.0])
  {
    var rot := [[0, -1, 0], [1, 0, 0], [0, 0, 1]];
    assert RotateAsWritten(rot, [1.0, 0.0, 0.0])[0] == -1.0;
    assert MatVec(rot, [1.0, 0.0, 0.0])[0] == 0.0;
  }

  // ---------------------------------------------------------------------
  // Each point
  // ---------------------------------------------------------------------

  /** cart_array_ of sample j of ring i: the ring point turned by 180
      degrees, its altitude z + alt0, a horizontal look vector, and a zero
      vertical look component. */
  lemma SampleIsTurnedPoint(m: Libm, s: Scan, alt0: real, i: nat, j: nat)
    requires Sane(m)
    ensures var cart := Sample(m, s, alt0, i, j);
      && cart[0] == -RingX(m, Radius(s), Angle(s, i))
      && cart[1] == -RingY(m, Radius(s), Angle(s, i))
      && cart[2] == Height(s, i, j) + alt0
      && cart[5] == 0.0
  {
    var p := RingPoint(m, s, i, j);
    HalfTurn(m, p);
  }

  /** Every point is written at the reference altitude alt0, whatever its
      height on the ring: z is added to alt0 and then subtracted again. */
  lemma AltitudeIsReference(m: Libm, s: Scan, o: Origin, i: nat, j: nat, n: int)
    ensures Emit(m, s, o, i, j, n).coord[2] == o.alt0
  {
  }

  /** Every point is written with pitch 0: its look vector is horizontal. */
  lemma PitchIsZero(m: Libm, s: Scan, o: Origin, i: nat, j: nat, n: int)
    requires Sane(m)
    ensures Emit(m, s, o, i, j, n).coord[4] == 0.0
  {
    SampleIsTurnedPoint(m, s, o.alt0, i, j);
  }

  /** Point 0 is written with the reference heading (wrapped once); every
      later point with the bearing of its look vector, turned by -270 and by
      the reference heading, wrapped once. For a reference heading in
      [-90, 540] every heading lies in [-180, 180]. */
  lemma HeadingOfPoint(m: Libm, s: Scan, o: Origin, i: nat, j: nat, n: int)
    ensures var e := Emit(m, s, o, i, j, n);
      e.coord[3] == if n == 0 then WrapHeading(o.head0)
                    else WrapHeading(RawHeading(m, e.cart[3], e.cart[4]) + o.head0)
    ensures Sane(m) && -90.0 <= o.head0 <= 540.0 ==> -180.0 <= Emit(m, s, o, i, j, n).coord[3] <= 180.0
  {
  }

  /** A library that has the facts of Sane and answers atan2(-0.1, -1) with
      -3.04, close to the true value. */
  function EscapeLibm(): Libm
  {
    Libm(imap[Deg2Rad(180.0) := -1.0], imap[], imap[(-0.1, -1.0) := -3.04], imap[0.0 := 0.0], imap[])
  }

  /** Below -90 the single wrap is not enough: with reference heading -100,
      a later point whose look vector is (-1, -0.1) gets heading about -184. */
  lemma HeadingEscapes()
    ensures Sane(EscapeLibm())
    ensures Heading(EscapeLibm(), -1.0, -0.1, 1, -100.0) < -180.0
  {
    var m := EscapeLibm();
    forall y: real, x: real
      ensures -Pi <= Atan2(m, y, x) <= Pi
    {
    }
    assert RawHeading(m, -1.0, -0.1) < -444.0;
  }

  /** A point with no northward offset lies on the reference latitude. */
  lemma ZeroOffsetLatitude(lat0: real)
    ensures Latitude(lat0, 0.0) == lat0
  {
    var y0 := EarthRadius * Deg2Rad(lat0);
    assert (0.0 + y0) / EarthRadius == Deg2Rad(lat0);
  }

  /** A point with no eastward offset lies on the reference longitude,
      provided the library's cosine of the reference longitude is not 0. */
  lemma ZeroOffsetLongitude(m: Libm, lon0: real)
    requires Cos(m, Deg2Rad(lon0)) != 0.0
    ensures Longitude(m, lon0, 0.0) == lon0
  {
    var c := Cos(m, Deg2Rad(lon0));
    var q := Quot(0.0 + EarthRadius * Deg2Rad(lon0) * c, EarthRadius * c);
    assert q * (EarthRadius * c) == Deg2Rad(lon0) * (EarthRadius * c);
    assert q == Deg2Rad(lon0);
  }

  // ---------------------------------------------------------------------
  // CSV rows
  // ---------------------------------------------------------------------

  /** A row read front to back: each value followed by ", ", the last by a
      single "\n". */
  function Joined(fmt: Format, row: seq<real>): string
    decreases |row|
  {
    if row == [] then ""
    else if |row| == 1 then Show(fmt, row[0]) + "\n"
    else Show(fmt, row[0]) + ", " + Joined(fmt, row[1..])
  }

  /** The cells of a row up to k, followed by the rest read front to back. */
  lemma {:induction false} CellsThenJoined(fmt: Format, row: seq<real>, k: nat)
    requires k <= |row|
    ensures RowText(fmt, row) == Cells(fmt, row, k) + Joined(fmt, row[k..])
    decreases |row| - k
  {
    if k == |row| {
      assert row[k..] == [];
      assert Cells(fmt, row, k) + Joined(fmt, row[k..]) == Cells(fmt, row, k);
    } else {
      CellsThenJoined(fmt, row, k + 1);
      var rest := row[k..];
      assert rest[0] == row[k] && rest[1..] == row[k + 1..];
      assert Joined(fmt, rest) == Cell(fmt, row, k) + Joined(fmt, row[k + 1..]);
      CellsNext(fmt, row, k);
      AppendAssoc(Cells(fmt, row, k), Cell(fmt, row, k), Joined(fmt, row[k + 1..]));
    }
  }

  /** csv_save_wp's line is the row's values separated by ", " and ended by
      one "\n". */
  lemma RowTextIsJoined(fmt: Format, row: seq<real>)
    ensures RowText(fmt, row) == Joined(fmt, row)
  {
    CellsThenJoined(fmt, row, 0);
    assert row[0..] == row;
  }
}
