/** The ring-scan trajectory generator of src/ros_pathGen.cpp: inspection
    points on rings around the riser, a fixed 180-degree rotation about the
    vertical axis, conversion to latitude/longitude/altitude with a
    flat-earth approximation, a heading and a pitch per point, and one CSV
    row per point. The functions below say what the generator computes;
    class PathGenerate does it step by step on its member arrays. */
module PathGen {
  import opened Numerics

  /** `long R = 6371 * 1000`: the Earth radius in metres. */
  const EarthRadius: real := 6371000.0

  /** The reference fix and heading that every point is expressed against. */
  datatype Origin = Origin(lat0: real, lon0: real, alt0: real, head0: real)

  /** The arguments of createInspectionPoints: riser diameter, stand-off
      distance, angle between rings, number of rings, height step and number
      of heights per ring. nh and nv are floats in the source. */
  datatype Scan = Scan(phi: real, d: real, da: real, nh: real, dv: real, nv: real)

  /** What one inspection point leaves behind: the six entries of cart_array_
      (x, y, altitude, look x, look y, look z) and the five of coord_array_
      (latitude, longitude, altitude, heading, pitch). */
  datatype Emission = Emission(cart: seq<real>, coord: seq<real>)

  // ---------------------------------------------------------------------
  // Loop bounds
  // ---------------------------------------------------------------------

  /** How many times `for (int i = 0; i <= x - 1; i++)` runs when x is a float. */
  function Count(x: real): nat
  {
    if x < 1.0 then 0 else x.Floor
  }

  /** The float loop guard of createInspectionPoints holds exactly for the
      first Count(x) values of the integer counter. */
  lemma GuardIsCount(x: real, i: int)
    requires 0 <= i
    ensures (i as real <= x - 1.0) <==> i < Count(x)
  {
  }

  // ---------------------------------------------------------------------
  // Heading and coordinates (pointCartToCord)
  // ---------------------------------------------------------------------

  /** The single +-360 correction applied to the heading. */
  function WrapHeading(h: real): (r: real)
    ensures -540.0 <= h <= 540.0 ==> -180.0 <= r <= 180.0
    ensures r == h || r == h + 360.0 || r == h - 360.0
    ensures -180.0 <= h <= 180.0 ==> r == h
  {
    if h < -180.0 then h + 360.0
    else if h > 180.0 then h - 360.0
    else h
  }

  /** The heading before the normalisation: the bearing of the look vector
      (dx, dy) in degrees, turned by -270. */
  function RawHeading(m: Libm, dx: real, dy: real): real
  {
    Rad2Deg(Atan2(m, dy, dx)) - 180.0 - 90.0
  }

  /** The heading of point number nCount. firstHeading is a local reset to
      0 on every call, so only point 0 subtracts its own raw heading. */
  function Heading(m: Libm, dx: real, dy: real, nCount: int, head0: real): (h: real)
    ensures nCount == 0 ==> h == WrapHeading(head0)
    ensures Sane(m) && -90.0 <= head0 <= 540.0 ==> -180.0 <= h <= 180.0
  {
    var heading := RawHeading(m, dx, dy);
    var firstHeading := if nCount == 0 then heading else 0.0;
    WrapHeading(heading - firstHeading + head0)
  }

  /** The pitch written for a look vector whose vertical component is lookZ. */
  function Pitch(m: Libm, lookZ: real): (p: real)
    ensures Sane(m) && lookZ == 0.0 ==> p == 0.0
  {
    Deg2Rad(Asin(m, lookZ))
  }

  /** Latitude of a point y metres north of the reference, on a sphere of
      radius EarthRadius. */
  function Latitude(lat0: real, y: real): real
  {
    var y0 := EarthRadius * Deg2Rad(lat0);
    Rad2Deg((y + y0) / EarthRadius)
  }

  /** Longitude of a point x metres east of the reference, with the
      east-west scale taken from the cosine of the reference longitude. */
  function Longitude(m: Libm, lon0: real, x: real): real
  {
    var c := Cos(m, Deg2Rad(lon0));
    var x0 := EarthRadius * Deg2Rad(lon0) * c;
    Rad2Deg(Quot(x + x0, EarthRadius * c))
  }

  /** Altitude: z0 = -z + alt0, then z + z0. */
  function Altitude(alt0: real, z: real): (alt: real)
    ensures alt == alt0
  {
    var z0 := z * -1.0 + alt0;
    z + z0
  }

  /** The five values of coord_array_ computed from cart_array_ (cart) and
      the look components cart_wp[3], cart_wp[4] (dx, dy). */
  function CoordRow(m: Libm, o: Origin, cart: seq<real>, dx: real, dy: real, nCount: int): (row: seq<real>)
    requires |cart| == 6
    ensures |row| == 5
    ensures row[2] == o.alt0
  {
    [Latitude(o.lat0, cart[1]), Longitude(m, o.lon0, cart[0]), Altitude(o.alt0, cart[2]),
     Heading(m, dx, dy, nCount, o.head0), Pitch(m, cart[5])]
  }

  // ---------------------------------------------------------------------
  // Rotation (rotz_cartP and the product loop of createInspectionPoints)
  // ---------------------------------------------------------------------

  /** The matrix rotz_cartP(yaw) stores, every entry cast to int. */
  function RotZ(m: Libm, yaw: int): (rot: seq<seq<int>>)
    ensures |rot| == 3 && forall j :: 0 <= j < 3 ==> |rot[j]| == 3
    ensures rot[2] == [0, 0, 1] && rot[0][2] == 0 && rot[1][2] == 0
    ensures Sane(m) && yaw == 180 ==> rot == [[-1, 0, 0], [0, -1, 0], [0, 0, 1]]
  {
    var c := Cos(m, Deg2Rad(yaw as real));
    var s := Sin(m, Deg2Rad(yaw as real));
    [[Trunc(c), Trunc(s * -1.0), 0],
     [Trunc(s), Trunc(c), 0],
     [0, 0, 1]]
  }

  /** Well-formed 3x3 integer matrix. */
  predicate IsMatrix(rot: seq<seq<int>>)
  {
    |rot| == 3 && forall j :: 0 <= j < 3 ==> |rot[j]| == 3
  }

  /** Row j of the product loop as written, for x = v[j]: every entry of
      row j is multiplied by v[j], not by v[k]. */
  function RowProduct(rot: seq<seq<int>>, j: nat, x: real): real
    requires IsMatrix(rot) && j < 3
  {
    0.0 + rot[j][0] as real * x + rot[j][1] as real * x + rot[j][2] as real * x
  }

  /** The vector the product loop leaves in place of v. */
  function RotateAsWritten(rot: seq<seq<int>>, v: seq<real>): (w: seq<real>)
    requires IsMatrix(rot) && |v| == 3
    ensures |w| == 3
  {
    [RowProduct(rot, 0, v[0]), RowProduct(rot, 1, v[1]), RowProduct(rot, 2, v[2])]
  }

  /** v after the first n passes of the product loop. */
  function PartlyRotated(rot: seq<seq<int>>, v: seq<real>, n: nat): (w: seq<real>)
    requires IsMatrix(rot) && |v| == 3 && n <= 3
    ensures |w| == 3
  {
    [if 0 < n then RowProduct(rot, 0, v[0]) else v[0],
     if 1 < n then RowProduct(rot, 1, v[1]) else v[1],
     if 2 < n then RowProduct(rot, 2, v[2]) else v[2]]
  }

  /** The ordinary matrix-vector product, as a reference. */
  function MatVec(rot: seq<seq<int>>, v: seq<real>): (w: seq<real>)
    requires IsMatrix(rot) && |v| == 3
    ensures |w| == 3
  {
    seq(3, j requires 0 <= j < 3 =>
      rot[j][0] as real * v[0] + rot[j][1] as real * v[1] + rot[j][2] as real * v[2])
  }

  predicate IsDiagonal(rot: seq<seq<int>>)
    requires IsMatrix(rot)
  {
    forall j, k :: 0 <= j < 3 && 0 <= k < 3 && j != k ==> rot[j][k] == 0
  }

  // ---------------------------------------------------------------------
  // Inspection points (createInspectionPoints)
  // ---------------------------------------------------------------------

  /** Ring radius: stand-off distance plus half the riser diameter. */
  function Radius(s: Scan): real
  {
    s.d + s.phi / 2.0
  }

  /** hc = (nv - 1) * dv: the height of the last sample of a ring. */
  function Top(s: Scan): real
  {
    (s.nv - 1.0) * s.dv
  }

  /** hl: ring i starts at 0 when it is even and at hc when it is odd. */
  function HeightStart(s: Scan, i: nat): real
  {
    if i % 2 == 0 then 0.0 else Top(s)
  }

  /** hs: ring i climbs by dv when it is even and descends by dv when it is odd. */
  function HeightStep(s: Scan, i: nat): real
  {
    if i % 2 == 0 then s.dv else s.dv * -1.0
  }

  /** z = j * hs + hl: the height of sample j of ring i. */
  function Height(s: Scan, i: nat, j: nat): real
  {
    j as real * HeightStep(s, i) + HeightStart(s, i)
  }

  /** The height the inner loop computes from hs and hl is Height. */
  lemma HeightIs(s: Scan, i: nat, j: nat, hs: real, hl: real)
    requires hs == HeightStep(s, i) && hl == HeightStart(s, i)
    ensures j as real * hs + hl == Height(s, i, j)
  {
  }

  /** alpha = i * da: the angle of ring i, in degrees. */
  function Angle(s: Scan, i: nat): real
  {
    i as real * s.da
  }

  /** x = r * cos(alpha) and y = r * sin(alpha), alpha in degrees. */
  function RingX(m: Libm, r: real, alpha: real): real
  {
    r * Cos(m, Deg2Rad(alpha))
  }

  function RingY(m: Libm, r: real, alpha: real): real
  {
    r * Sin(m, Deg2Rad(alpha))
  }

  /** The unrotated point of sample j on ring i. */
  function RingPoint(m: Libm, s: Scan, i: nat, j: nat): (p: seq<real>)
    ensures |p| == 3
  {
    [RingX(m, Radius(s), Angle(s, i)), RingY(m, Radius(s), Angle(s, i)), Height(s, i, j)]
  }

  /** The look vector before normalisation: the axis point (0, 0, z) at the
      point's own height minus the point. */
  function Offset(p: seq<real>): (v: seq<real>)
    requires |p| == 3
    ensures |v| == 3 && v[2] == 0.0
  {
    [0.0 - p[0], 0.0 - p[1], p[2] - p[2]]
  }

  /** The length computed for a vector, with sqrt taken from the library. */
  function Norm(m: Libm, v: seq<real>): real
    requires |v| == 3
  {
    Sqrt(m, v[0] * v[0] + v[1] * v[1] + v[2] * v[2])
  }

  /** Every component of v divided by a. */
  function Scale(v: seq<real>, a: real): (w: seq<real>)
    requires |v| == 3
    ensures |w| == 3
  {
    [Quot(v[0], a), Quot(v[1], a), Quot(v[2], a)]
  }

  /** cart_array_ for the unrotated point p, before pointCartToCord: the
      rotated point, its altitude, the rotated look vector toward the axis
      and, last, dr2, the vertical look component divided once more by the
      length. */
  function SampleOf(m: Libm, p: seq<real>, alt0: real): (cart: seq<real>)
    requires |p| == 3
    ensures |cart| == 6
  {
    var raw := Offset(p);
    var absolute := Norm(m, raw);
    var dr := Scale(raw, absolute);
    var rot := RotZ(m, 180);
    var p' := RotateAsWritten(rot, p);
    var dr' := RotateAsWritten(rot, dr);
    [p'[0], p'[1], p[2] + alt0, dr'[0], dr'[1], Quot(dr[2], absolute)]
  }

  /** cart_array_ for sample j of ring i. */
  function Sample(m: Libm, s: Scan, alt0: real, i: nat, j: nat): (cart: seq<real>)
    ensures |cart| == 6
  {
    SampleOf(m, RingPoint(m, s, i, j), alt0)
  }

  /** Point number nCount, taken at sample j of ring i. */
  function Emit(m: Libm, s: Scan, o: Origin, i: nat, j: nat, nCount: int): Emission
  {
    var cart := Sample(m, s, o.alt0, i, j);
    Emission(cart, CoordRow(m, o, cart, cart[3], cart[4], nCount))
  }

  /** What cart_array_, coord_array_ and rotz_ hold once emission e has
      been produced. */
  function Leaves(m: Libm, e: Emission): (seq<real>, seq<real>, seq<seq<int>>)
  {
    (e.cart, e.coord, RotZ(m, 180))
  }

  /** The number of the first point of ring i when every ring has v points. */
  function FirstNumber(v: nat, i: nat): int
  {
    i * v
  }

  /** Which sample of which ring is emitted under which point number. */
  datatype Point = Point(ring: nat, sample: nat, number: int)

  /** The first n samples of ring i, numbered from base. */
  function RingSchedule(i: nat, n: nat, base: int): seq<Point>
  {
    if n == 0 then []
    else RingSchedule(i, n - 1, base) + [Point(i, n - 1, base + n - 1)]
  }

  /** Rings 0 .. n-1 of v samples each, ring after ring, numbered from 0. */
  function Schedule(v: nat, n: nat): seq<Point>
  {
    if n == 0 then []
    else Schedule(v, n - 1) + RingSchedule(n - 1, v, FirstNumber(v, n - 1))
  }

  /** What the given points emit, in order. */
  function Emits(m: Libm, s: Scan, o: Origin, pts: seq<Point>): seq<Emission>
  {
    if pts == [] then []
    else
      var p := pts[|pts| - 1];
      Emits(m, s, o, pts[..|pts| - 1]) + [Emit(m, s, o, p.ring, p.sample, p.number)]
  }

  /** Every point createInspectionPoints emits: Count(nh) rings of
      Count(nv) samples. */
  function Plan(m: Libm, s: Scan, o: Origin): seq<Emission>
  {
    Emits(m, s, o, Schedule(Count(s.nv), Count(s.nh)))
  }

  // ---------------------------------------------------------------------
  // CSV text (csv_save_wp)
  // ---------------------------------------------------------------------

  /** How `<<` prints a double on the CSV stream after setprecision(10),
      taken as given: the digits of each value it is given. */
  datatype Format = Format(digits: imap<real, string>)

  /** The characters written for x. */
  function Show(fmt: Format, x: real): string
  {
    if x in fmt.digits then fmt.digits[x] else ""
  }

  /** Value i of a row, followed by ", " or, after the last value, "\n". */
  function Cell(fmt: Format, row: seq<real>, i: nat): string
    requires i < |row|
  {
    Show(fmt, row[i]) + (if i != |row| - 1 then ", " else "\n")
  }

  /** The text of the first n cells of a row. */
  function Cells(fmt: Format, row: seq<real>, n: nat): string
    requires n <= |row|
  {
    if n == 0 then "" else Cells(fmt, row, n - 1) + Cell(fmt, row, n - 1)
  }

  /** One more cell. */
  lemma CellsNext(fmt: Format, row: seq<real>, n: nat)
    requires n < |row|
    ensures Cells(fmt, row, n + 1) == Cells(fmt, row, n) + Cell(fmt, row, n)
  {
  }

  /** What csv_save_wp writes for a whole row. */
  function RowText(fmt: Format, row: seq<real>): string
  {
    Cells(fmt, row, |row|)
  }

  /** The CSV lines written for a sequence of points, one per point. */
  function Lines(fmt: Format, rows: seq<Emission>): seq<string>
  {
    if rows == [] then []
    else Lines(fmt, rows[..|rows| - 1]) + [RowText(fmt, rows[|rows| - 1].coord)]
  }

  /** What each point emits and the CSV line written for it, looked up by
      ring, sample and point number: a ghost table through which the loops
      below refer to points without unfolding the computation of each.
      Table, Entry, Line, LinesOf, RingLines and PlanLines define the lines
      of the plan a second time, in the shape of the nested loops; they
      serve only the loop proofs, and PlanLinesArePlan shows that they agree
      with Lines(fmt, Plan(m, s, o)). */
  type Table = imap<(nat, nat, int), (Emission, string)>

  /** The emission for sample j of ring i, emitted as point number n. */
  function Entry(t: Table, i: nat, j: nat, n: int): Emission
  {
    if (i, j, n) in t then t[(i, j, n)].0 else Emission([], [])
  }

  /** The CSV line written for that point. */
  function Line(t: Table, i: nat, j: nat, n: int): string
  {
    if (i, j, n) in t then t[(i, j, n)].1 else ""
  }

  /** t holds every point of the plan for library m, scan s and reference
      o, and its line as fmt prints it. */
  ghost predicate Tabulates(t: Table, m: Libm, fmt: Format, s: Scan, o: Origin)
  {
    forall i: nat, j: nat, n: int {:trigger Emit(m, s, o, i, j, n)} ::
      && Entry(t, i, j, n) == Emit(m, s, o, i, j, n)
      && Line(t, i, j, n) == RowText(fmt, Emit(m, s, o, i, j, n).coord)
  }

  /** There is such a table. */
  lemma TableOf(m: Libm, fmt: Format, s: Scan, o: Origin) returns (t: Table)
    ensures Tabulates(t, m, fmt, s, o)
  {
    t := imap k: (nat, nat, int) :: (Emit(m, s, o, k.0, k.1, k.2), RowText(fmt, Emit(m, s, o, k.0, k.1, k.2).coord));
  }

  /** The table's lines for the given points, in order. */
  function LinesOf(t: Table, pts: seq<Point>): seq<string>
  {
    if pts == [] then []
    else
      var p := pts[|pts| - 1];
      LinesOf(t, pts[..|pts| - 1]) + [Line(t, p.ring, p.sample, p.number)]
  }

  /** The lines of the first n points of ring i, numbered from base, in the
      order the loop writes them. */
  function RingLines(t: Table, i: nat, n: nat, base: int): seq<string>
  {
    if n == 0 then []
    else RingLines(t, i, n - 1, base) + [Line(t, i, n - 1, base + n - 1)]
  }

  /** The lines of rings 0 .. n-1 of v points each, written ring by ring. */
  function PlanLines(t: Table, v: nat, n: nat): seq<string>
  {
    if n == 0 then []
    else PlanLines(t, v, n - 1) + RingLines(t, n - 1, v, FirstNumber(v, n - 1))
  }

  /** Rings alternate between climbing and descending. */
  lemma ParityNext(i: nat)
    ensures ((i + 1) % 2 == 0) == !(i % 2 == 0)
  {
  }

  /** The numbers of ring i + 1 start v after those of ring i. */
  lemma FirstNumberNext(v: nat, i: nat)
    ensures FirstNumber(v, i + 1) == FirstNumber(v, i) + v
  {
  }

  /** Appending in two steps appends the two parts in order. */
  lemma AppendAssoc<T>(a: seq<T>, b: seq<T>, c: seq<T>)
    ensures (a + b) + c == a + (b + c)
  {
  }

  /** One more point of a ring is one more line. */
  lemma RingLinesNext(t: Table, i: nat, n: nat, base: int)
    ensures RingLines(t, i, n + 1, base) == RingLines(t, i, n, base) + [Line(t, i, n, base + n)]
  {
  }

  /** One more ring is the lines of that ring. */
  lemma PlanLinesNext(t: Table, v: nat, n: nat)
    ensures PlanLines(t, v, n + 1) == PlanLines(t, v, n) + RingLines(t, n, v, FirstNumber(v, n))
  {
  }

  // ---------------------------------------------------------------------
  // The generator object
  // ---------------------------------------------------------------------

  /** A received fix: latitude, longitude and altitude. */
  datatype NavSatFix = NavSatFix(latitude: real, longitude: real, altitude: real)

  datatype Option<T> = None | Some(value: T)

  class PathGenerate {
    var lat0: real
    var lon0: real
    var alt0: real
    var head0: real
    /** Whether the next synchronised fix still has to latch the reference. */
    var firstTime: bool
    /** ptr_gps_position_ and ptr_rtk_position_: the last synchronised pair. */
    var gpsPosition: Option<NavSatFix>
    var rtkPosition: Option<NavSatFix>
    /** saved_wp_: whether the stream is open, and the lines written to it. */
    var savedOpen: bool
    var saved: seq<string>
    const cartArray: array<real>
    const coordArray: array<real>
    const rotz: array2<int>
    const waypointTask: array<real>

    ghost predicate Valid()
      reads this
    {
      && cartArray.Length == 6
      && coordArray.Length == 5
      && rotz.Length0 == 3 && rotz.Length1 == 3
      && waypointTask.Length == 8
      && cartArray != coordArray && cartArray != waypointTask && coordArray != waypointTask
    }

    /** The reference the next point is converted against. */
    function Reference(): Origin
      reads this
    {
      Origin(lat0, lon0, alt0, head0)
    }

    /** The matrix currently held in rotz_. */
    function RotzRows(): (rot: seq<seq<int>>)
      requires Valid()
      reads this, rotz
      ensures IsMatrix(rot)
      ensures forall a, b :: 0 <= a < 3 && 0 <= b < 3 ==> rot[a][b] == rotz[a, b]
    {
      [[rotz[0, 0], rotz[0, 1], rotz[0, 2]],
       [rotz[1, 0], rotz[1, 1], rotz[1, 2]],
       [rotz[2, 0], rotz[2, 1], rotz[2, 2]]]
    }

    /** What cart_array_, coord_array_ and rotz_ currently hold. */
    function Outputs(): (seq<real>, seq<real>, seq<seq<int>>)
      requires Valid()
      reads this, cartArray, coordArray, rotz
    {
      (cartArray[..], coordArray[..], RotzRows())
    }

    /** A generator before any fix has arrived and before the CSV file is
        opened. */
    constructor ()
      ensures Valid() && firstTime && !savedOpen && saved == []
      ensures gpsPosition == None && rtkPosition == None
      ensures fresh(cartArray) && fresh(coordArray) && fresh(rotz) && fresh(waypointTask)
    {
      lat0, lon0, alt0, head0 := 0.0, 0.0, 0.0, 0.0;
      firstTime := true;
      gpsPosition, rtkPosition := None, None;
      savedOpen, saved := false, [];
      cartArray := new real[6];
      coordArray := new real[5];
      rotz := new int[3, 3];
      waypointTask := new real[8];
    }

    /** setInitCoord: store the reference given by the caller. The altitude
        and the heading arrive as ints. */
    method SetInitCoord(lon: real, lat: real, alt: int, head: int)
      modifies this`lon0, this`lat0, this`alt0, this`head0
      ensures Reference() == Origin(lat, lon, alt as real, head as real)
    {
      lon0 := lon;
      lat0 := lat;
      alt0 := alt as real;
      head0 := head as real;
    }

    /** setDJIwaypointTask: the eight mission-level parameters, in order. */
    method SetDjiWaypointTask(velocityRange: real, idleVelocity: real, actionOnFinish: int,
                              missionExecTimes: int, yawMode: int, traceMode: int,
                              actionOnRcLost: int, gimbalPitchMode: int)
      requires Valid()
      modifies waypointTask
      ensures waypointTask[..] == [velocityRange, idleVelocity, actionOnFinish as real,
                                   missionExecTimes as real, yawMode as real, traceMode as real,
                                   actionOnRcLost as real, gimbalPitchMode as real]
    {
      waypointTask[0] := velocityRange;
      waypointTask[1] := idleVelocity;
      waypointTask[2] := actionOnFinish as real;
      waypointTask[3] := missionExecTimes as real;
      waypointTask[4] := yawMode as real;
      waypointTask[5] := traceMode as real;
      waypointTask[6] := actionOnRcLost as real;
      waypointTask[7] := gimbalPitchMode as real;
    }

    /** get_gps_position: keep the latest synchronised pair; the first pair
        also fixes the reference latitude, longitude and altitude, from the
        RTK message. */
    method GetGpsPosition(msgGps: NavSatFix, msgRtk: NavSatFix)
      modifies this`gpsPosition, this`rtkPosition, this`firstTime, this`lat0, this`lon0, this`alt0
      ensures gpsPosition == Some(msgGps) && rtkPosition == Some(msgRtk)
      ensures !firstTime
      ensures old(firstTime) ==> lat0 == msgRtk.latitude && lon0 == msgRtk.longitude && alt0 == msgRtk.altitude
      ensures !old(firstTime) ==> lat0 == old(lat0) && lon0 == old(lon0) && alt0 == old(alt0)
    {
      gpsPosition := Some(msgGps);
      rtkPosition := Some(msgRtk);
      if firstTime {
        lat0 := msgRtk.latitude;
        lon0 := msgRtk.longitude;
        alt0 := msgRtk.altitude;
        firstTime := false;
      }
    }

    /** rotz_cartP: store the integer rotation matrix for yaw degrees. */
    method RotzCartP(m: Libm, yaw: int)
      requires Valid()
      modifies rotz
      ensures RotzRows() == RotZ(m, yaw)
    {
      var c := Cos(m, Deg2Rad(yaw as real));
      var s := Sin(m, Deg2Rad(yaw as real));
      rotz[0, 0] := Trunc(c);
      rotz[0, 1] := Trunc(s * -1.0);
      rotz[0, 2] := 0;
      rotz[1, 0] := Trunc(s);
      rotz[1, 1] := Trunc(c);
      rotz[1, 2] := 0;
      rotz[2, 0] := 0;
      rotz[2, 1] := 0;
      rotz[2, 2] := 1;
    }

    /** The product loop of createInspectionPoints: p and dr are overwritten,
        row by row, with rotz_ applied as written. */
    method RotateInPlace(p: array<real>, dr: array<real>)
      requires Valid() && p.Length == 3 && dr.Length == 3 && p != dr
      modifies p, dr
      ensures p[..] == RotateAsWritten(RotzRows(), old(p[..]))
      ensures dr[..] == RotateAsWritten(RotzRows(), old(dr[..]))
    {
      ghost var rot := RotzRows();
      ghost var p0, dr0 := p[..], dr[..];
      for j := 0 to 3
        invariant p[..] == PartlyRotated(rot, p0, j)
        invariant dr[..] == PartlyRotated(rot, dr0, j)
      {
        RotateRow(p, dr, j);
      }
    }

    /** One pass of the outer product loop: the sums over row j of rotz_,
        written back to p[j] and dr[j] after the last column. */
    method RotateRow(p: array<real>, dr: array<real>, j: nat)
      requires Valid() && p.Length == 3 && dr.Length == 3 && p != dr && j < 3
      modifies p, dr
      ensures p[..] == old(p[..])[j := RowProduct(RotzRows(), j, old(p[j]))]
      ensures dr[..] == old(dr[..])[j := RowProduct(RotzRows(), j, old(dr[j]))]
    {
      ghost var rot := RotzRows();
      ghost var p0, dr0 := p[..], dr[..];
      var varP, varDr := 0.0, 0.0;
      for k := 0 to 3
        invariant varP == 0.0 + (if k > 0 then rot[j][0] as real * p0[j] else 0.0)
                              + (if k > 1 then rot[j][1] as real * p0[j] else 0.0)
                              + (if k > 2 then rot[j][2] as real * p0[j] else 0.0)
        invariant varDr == 0.0 + (if k > 0 then rot[j][0] as real * dr0[j] else 0.0)
                               + (if k > 1 then rot[j][1] as real * dr0[j] else 0.0)
                               + (if k > 2 then rot[j][2] as real * dr0[j] else 0.0)
        invariant p[..] == if k < 3 then p0 else p0[j := RowProduct(rot, j, p0[j])]
        invariant dr[..] == if k < 3 then dr0 else dr0[j := RowProduct(rot, j, dr0[j])]
      {
        varP := varP + rotz[j, k] as real * p[j];
        varDr := varDr + rotz[j, k] as real * dr[j];
        if k == 2 {
          assert varP == RowProduct(rot, j, p0[j]) && varDr == RowProduct(rot, j, dr0[j]);
          p[j] := varP;
          dr[j] := varDr;
        }
      }
    }

    /** csv_save_wp: the first `row` values of wpArray, separated by ", "
        and ended by "\n", written as one line while the stream is open. */
    method CsvSaveWp(fmt: Format, wpArray: array<real>, row: int)
      requires row <= wpArray.Length
      modifies this`saved
      ensures saved == (if savedOpen && row > 0 then old(saved) + [RowText(fmt, wpArray[..row])] else old(saved))
    {
      if row > 0 {
        ghost var values := wpArray[..row];
        var line := "";
        for i := 0 to row
          invariant line == Cells(fmt, values, i)
          invariant saved == old(saved)
        {
          assert values[i] == wpArray[i];
          CellsNext(fmt, values, i);
          if i != row - 1 {
            AppendAssoc(line, Show(fmt, wpArray[i]), ", ");
            line := line + Show(fmt, wpArray[i]) + ", ";
          } else {
            AppendAssoc(line, Show(fmt, wpArray[i]), "\n");
            line := line + Show(fmt, wpArray[i]) + "\n";
          }
        }
        assert line == RowText(fmt, values);
        if savedOpen {
          saved := saved + [line];
        }
      }
    }

    /** pointCartToCord: convert cart_array_ (with the look components of
        cartWp) to coord_array_ and append it to the CSV stream. */
    method PointCartToCord(m: Libm, fmt: Format, cartWp: array<real>, nCount: int)
      requires Valid() && cartWp.Length == 6 && cartWp != coordArray
      modifies coordArray, this`saved
      ensures coordArray[..] == CoordRow(m, Reference(), cartArray[..], cartWp[3], cartWp[4], nCount)
      ensures saved == (if savedOpen then old(saved) + [RowText(fmt, coordArray[..])] else old(saved))
    {
      var firstHeading := 0.0;
      var lat := Latitude(lat0, cartArray[1]);
      var lon := Longitude(m, lon0, cartArray[0]);
      var alt := Altitude(alt0, cartArray[2]);
      var heading := RawHeading(m, cartWp[3], cartWp[4]);
      if nCount == 0 {
        firstHeading := heading;
      }
      var pitch := Pitch(m, cartArray[5]);
      heading := heading - firstHeading + head0;
      if heading < -180.0 {
        heading := heading + 360.0;
      } else if heading > 180.0 {
        heading := heading - 360.0;
      }
      assert [lat, lon, alt, heading, pitch] == CoordRow(m, Reference(), cartArray[..], cartWp[3], cartWp[4], nCount);
      StoreCoord(lat, lon, alt, heading, pitch);
      CsvSaveWp(fmt, coordArray, coordArray.Length);
      assert coordArray[..coordArray.Length] == coordArray[..];
    }

    /** The five assignments to coord_array_. */
    method StoreCoord(lat: real, lon: real, alt: real, heading: real, pitch: real)
      requires Valid()
      modifies coordArray
      ensures coordArray[..] == [lat, lon, alt, heading, pitch]
    {
      coordArray[0] := lat;
      coordArray[1] := lon;
      coordArray[2] := alt;
      coordArray[3] := heading;
      coordArray[4] := pitch;
    }

    /** The first half of the inner loop of createInspectionPoints for
        sample j of ring i: the point at angle alpha and height z on the
        ring of radius r, its look vector toward the riser axis, the
        rotation, and cart_array_. p and dr are the loop's scratch arrays,
        every entry of which is written before it is read. */
    method FillCart(m: Libm, ghost s: Scan, ghost i: nat, ghost j: nat, r: real, alpha: real, z: real)
      requires Valid()
      requires r == Radius(s) && alpha == Angle(s, i) && z == Height(s, i, j)
      modifies cartArray, rotz
      ensures cartArray[..] == Sample(m, s, alt0, i, j)
      ensures RotzRows() == RotZ(m, 180)
    {
      ghost var point := RingPoint(m, s, i, j);
      var x := RingX(m, r, alpha);
      var y := RingY(m, r, alpha);
      var p := new real[3] [x, y, z];
      assert p[..] == point;
      var endPoint := [0.0, 0.0, z];
      var offset := [endPoint[0] - x, endPoint[1] - y, endPoint[2] - z];
      assert offset == Offset(point);
      var absolute := Norm(m, offset);
      var dr := new real[3] [Quot(offset[0], absolute), Quot(offset[1], absolute), Quot(offset[2], absolute)];
      var dr2 := Quot(dr[2], absolute);
      assert dr[..] == Scale(offset, absolute);
      RotzCartP(m, 180);
      RotateInPlace(p, dr);
      StoreCart(p[0], p[1], z + alt0, dr[0], dr[1], dr2);
    }

    /** The six assignments to cart_array_ at the end of the inner loop. */
    method StoreCart(x: real, y: real, alt: real, dx: real, dy: real, dz: real)
      requires Valid()
      modifies cartArray
      ensures cartArray[..] == [x, y, alt, dx, dy, dz]
    {
      cartArray[0] := x;
      cartArray[1] := y;
      cartArray[2] := alt;
      cartArray[3] := dx;
      cartArray[4] := dy;
      cartArray[5] := dz;
    }

    /** One pass of the inner loop of createInspectionPoints: sample j of
        ring i, emitted as point number nCount. */
    method InspectPoint(m: Libm, fmt: Format, ghost t: Table, ghost s: Scan, ghost o: Origin, ghost i: nat, ghost j: nat,
                        r: real, alpha: real, z: real, nCount: int)
      requires Valid() && Tabulates(t, m, fmt, s, o) && o == Reference()
      requires r == Radius(s) && alpha == Angle(s, i) && z == Height(s, i, j)
      modifies cartArray, coordArray, rotz, this`saved
      ensures Outputs() == Leaves(m, Entry(t, i, j, nCount))
      ensures saved == (if savedOpen then old(saved) + [Line(t, i, j, nCount)] else old(saved))
    {
      FillCart(m, s, i, j, r, alpha, z);
      PointCartToCord(m, fmt, cartArray, nCount);
      assert Entry(t, i, j, nCount) == Emit(m, s, o, i, j, nCount);
    }

    /** The inner loop of createInspectionPoints for ring i: nv points at
        angle alpha, the height starting at hl and moving by hs, numbered
        from nCount. */
    method InspectRing(m: Libm, fmt: Format, ghost t: Table, ghost s: Scan, ghost o: Origin, i: nat,
                       r: real, alpha: real, hs: real, hl: real, nv: real, nCount: int)
        returns (next: int)
      requires Valid() && Tabulates(t, m, fmt, s, o) && o == Reference()
      requires r == Radius(s) && alpha == Angle(s, i) && nv == s.nv
      requires hl == HeightStart(s, i) && hs == HeightStep(s, i)
      modifies cartArray, coordArray, rotz, this`saved
      ensures next == nCount + Count(nv)
      ensures saved == (if savedOpen then old(saved) + RingLines(t, i, Count(nv), nCount) else old(saved))
      ensures Outputs() == if Count(nv) > 0 then Leaves(m, Entry(t, i, Count(nv) - 1, next - 1)) else old(Outputs())
    {
      next := nCount;
      var j := 0;
      GuardIsCount(nv, j);
      while j as real <= nv - 1.0
        invariant 0 <= j <= Count(nv) && next == nCount + j
        invariant saved == (if savedOpen then old(saved) + RingLines(t, i, j, nCount) else old(saved))
        invariant Outputs() == if j > 0 then Leaves(m, Entry(t, i, j - 1, next - 1)) else old(Outputs())
        decreases Count(nv) - j
      {
        HeightIs(s, i, j, hs, hl);
        var z := j as real * hs + hl;
        InspectPoint(m, fmt, t, s, o, i, j, r, alpha, z, next);
        RingLinesNext(t, i, j, nCount);
        AppendAssoc(old(saved), RingLines(t, i, j, nCount), [Line(t, i, j, next)]);
        next := next + 1;
        j := j + 1;
        GuardIsCount(nv, j);
      }
    }

    /** The outer loop of createInspectionPoints: rings i = 0, 1, ... while
        i <= nh - 1, climbing on even rings and descending on odd ones. */
    method InspectRings(m: Libm, fmt: Format, ghost t: Table, ghost s: Scan, ghost o: Origin,
                        r: real, da: real, nh: real, hc: real, dv: real, nv: real)
      requires Valid() && Tabulates(t, m, fmt, s, o) && o == Reference()
      requires r == Radius(s) && da == s.da && nh == s.nh && dv == s.dv && nv == s.nv
      requires hc == Top(s)
      modifies this`saved, cartArray, coordArray, rotz
      ensures saved == (if savedOpen then old(saved) + PlanLines(t, Count(nv), Count(nh)) else old(saved))
      ensures Outputs() == if Count(nh) > 0 && Count(nv) > 0
        then Leaves(m, Entry(t, Count(nh) - 1, Count(nv) - 1, FirstNumber(Count(nv), Count(nh)) - 1))
        else old(Outputs())
    {
      ghost var v := Count(nv);
      var nCount := 0;
      var isVertical := true;
      var i := 0;
      GuardIsCount(nh, i);
      while i as real <= nh - 1.0
        invariant 0 <= i <= Count(nh)
        invariant isVertical == (i % 2 == 0)
        invariant nCount == FirstNumber(v, i)
        invariant saved == (if savedOpen then old(saved) + PlanLines(t, v, i) else old(saved))
        invariant Outputs() == if i > 0 && v > 0 then Leaves(m, Entry(t, i - 1, v - 1, nCount - 1)) else old(Outputs())
        decreases Count(nh) - i
      {
        var alpha, hs, hl := RingStart(s, i, da, dv, hc, isVertical);
        nCount := InspectRing(m, fmt, t, s, o, i, r, alpha, hs, hl, nv, nCount);
        FirstNumberNext(v, i);
        PlanLinesNext(t, v, i);
        AppendAssoc(old(saved), PlanLines(t, v, i), RingLines(t, i, v, FirstNumber(v, i)));
        ParityNext(i);
        isVertical := !isVertical;
        i := i + 1;
        GuardIsCount(nh, i);
      }
    }

    /** The head of the outer loop for ring i: its angle alpha = i * da, and
        hl and hs, chosen by whether the ring climbs or descends. */
    method RingStart(ghost s: Scan, i: nat, da: real, dv: real, hc: real, isVertical: bool)
        returns (alpha: real, hs: real, hl: real)
      requires da == s.da && dv == s.dv && hc == Top(s) && isVertical == (i % 2 == 0)
      ensures alpha == Angle(s, i) && hl == HeightStart(s, i) && hs == HeightStep(s, i)
    {
      alpha := i as real * da;
      if isVertical {
        hl := 0.0;
        hs := dv;
      } else {
        hl := hc;
        hs := dv * -1.0;
      }
    }

    /** createInspectionPoints: nh rings of nv points each, ring-major; every
        point is rotated, converted and written as one CSV row. */
    method CreateInspectionPoints(m: Libm, fmt: Format,
                                  phi: real, d: real, da: real, nh: real, dv: real, nv: real)
      requires Valid()
      modifies this`saved, cartArray, coordArray, rotz
      ensures var s := Scan(phi, d, da, nh, dv, nv);
        && saved == (if savedOpen then old(saved) + Lines(fmt, Plan(m, s, Reference())) else old(saved))
        && Outputs() == if Count(nh) > 0 && Count(nv) > 0
             then Leaves(m, Emit(m, s, Reference(), Count(nh) - 1, Count(nv) - 1, FirstNumber(Count(nv), Count(nh)) - 1))
             else old(Outputs())
    {
      ghost var s := Scan(phi, d, da, nh, dv, nv);
      ghost var o := Reference();
      ghost var t := TableOf(m, fmt, s, o);
      var r := d + phi / 2.0;
      var hc := (nv - 1.0) * dv;
      assert hc == Top(s);
      InspectRings(m, fmt, t, s, o, r, da, nh, hc, dv, nv);
      PlanLinesArePlan(m, fmt, t, s, o);
      if Count(nh) > 0 && Count(nv) > 0 {
        assert Entry(t, Count(nh) - 1, Count(nv) - 1, FirstNumber(Count(nv), Count(nh)) - 1)
          == Emit(m, s, o, Count(nh) - 1, Count(nv) - 1, FirstNumber(Count(nv), Count(nh)) - 1);
      }
    }
  }

  /** The lines of two runs of points are the lines of the first followed
      by the lines of the second. */
  lemma {:induction false} LinesOfAppend(t: Table, a: seq<Point>, b: seq<Point>)
    ensures LinesOf(t, a + b) == LinesOf(t, a) + LinesOf(t, b)
    decreases |b|
  {
    if b == [] {
      assert a + b == a;
    } else {
      var b' := b[..|b| - 1];
      assert (a + b)[..|a + b| - 1] == a + b';
      LinesOfAppend(t, a, b');
    }
  }

  /** Writing a ring point by point writes the lines of its schedule. */
  lemma {:induction false} RingLinesAreLinesOf(t: Table, i: nat, n: nat, base: int)
    ensures RingLines(t, i, n, base) == LinesOf(t, RingSchedule(i, n, base))
  {
    if n > 0 {
      var pts := RingSchedule(i, n, base);
      assert pts[..|pts| - 1] == RingSchedule(i, n - 1, base);
      forall k: nat | k < n
        ensures RingLines(t, i, k, base) == LinesOf(t, RingSchedule(i, k, base))
      {
        RingLinesAreLinesOf(t, i, k, base);
      }
    }
  }

  /** Writing the rings one after another writes the lines of the schedule. */
  lemma {:induction false} PlanLinesAreLinesOf(t: Table, v: nat, n: nat)
    ensures PlanLines(t, v, n) == LinesOf(t, Schedule(v, n))
  {
    if n > 0 {
      forall k: nat | k < n
        ensures PlanLines(t, v, k) == LinesOf(t, Schedule(v, k))
      {
        PlanLinesAreLinesOf(t, v, k);
      }
      forall i: nat, base: int
        ensures RingLines(t, i, v, base) == LinesOf(t, RingSchedule(i, v, base))
      {
        RingLinesAreLinesOf(t, i, v, base);
      }
      LinesOfAppend(t, Schedule(v, n - 1), RingSchedule(n - 1, v, FirstNumber(v, n - 1)));
    }
  }

  /** A table of the plan holds, for any points, the lines of what they emit. */
  lemma {:induction false} LinesOfAreLines(m: Libm, fmt: Format, t: Table, s: Scan, o: Origin, pts: seq<Point>)
    requires Tabulates(t, m, fmt, s, o)
    ensures LinesOf(t, pts) == Lines(fmt, Emits(m, s, o, pts))
    decreases |pts|
  {
    if pts != [] {
      var p := pts[|pts| - 1];
      var rows := Emits(m, s, o, pts);
      assert rows[..|rows| - 1] == Emits(m, s, o, pts[..|pts| - 1]);
      assert Line(t, p.ring, p.sample, p.number) == RowText(fmt, Emit(m, s, o, p.ring, p.sample, p.number).coord);
      LinesOfAreLines(m, fmt, t, s, o, pts[..|pts| - 1]);
    }
  }

  /** The lines the loops write are the lines of the plan. */
  lemma PlanLinesArePlan(m: Libm, fmt: Format, t: Table, s: Scan, o: Origin)
    requires Tabulates(t, m, fmt, s, o)
    ensures PlanLines(t, Count(s.nv), Count(s.nh)) == Lines(fmt, Plan(m, s, o))
  {
    PlanLinesAreLinesOf(t, Count(s.nv), Count(s.nh));
    LinesOfAreLines(m, fmt, t, s, o, Schedule(Count(s.nv), Count(s.nh)));
  }
}
