# Riser inspection: trajectory generator and waypoint mission controller

This project models the two pieces of the riser-inspection ROS package that
hold its logic:

- **The ring-scan trajectory generator** (`PathGenerate`, src/ros_pathGen.cpp).
  - `createInspectionPoints` walks `nh` rings around a riser of diameter
    `phi`, at stand-off distance `d` and `da` degrees apart. Each ring has
    `nv` heights, `dv` apart.
  - The heights climb on even rings and descend on odd ones.
  - Every point gets a horizontal look vector toward the riser axis.
  - Point and look vector are turned by the integer matrix `rotz_cartP(180)`.
  - `pointCartToCord` converts the point to latitude, longitude, altitude,
    heading and pitch against a reference fix. It appends them to the CSV
    stream as one `csv_save_wp` line.
  - `get_gps_position` latches the reference fix from the first RTK message.
- **The mission controller** (`RiserInspection`, src/ros/riser_inspection_wp.cpp).
  - It activates the DJI vehicle and asks for control authority, retrying
    once on the "in progress" acknowledgement.
  - It builds a waypoint list from the rows of a CSV file: the start
    waypoint, one waypoint per row, then a "return home" copy of the start.
  - It uploads the list and starts the mission.
  - During the mission it takes a photo whenever the altitude has moved by
    more than 0.2 m.

Both sources are imperative, and so is the model:

- `PathGen.PathGenerate` keeps the member arrays `cart_array_`,
  `coord_array_`, `rotz_` and `waypointTaskDJI_` as Dafny arrays. The
  `saved_wp_` stream is a sequence of lines.
- `RiserMission.RiserInspection` keeps the controller's fields.
- `WaypointStruct` keeps its two 16-entry command arrays.
- The DJI services are a `Vehicle` object. It answers the k-th call with
  `answer(k)` and logs every call. Every method states the calls it makes
  and what it returns as a function of those answers.

Each loop is a method with invariants, proved against a specification
function:

- the generator against `Plan` (every emitted point, in order) and
  `Lines(fmt, Plan(...))` (the CSV lines);
- the controller against `AuthorityEndOf`/`AuthorityCalls`, `WaypointList`,
  `Entries`, `MissionTaskOf`, `RunCalls` and `Launched`.

The lemmas in `PathGenProps` and `RiserMission` then prove what those
functions promise.

Files:

- `numerics.dfy`: the C maths library as given tables, the degree/radian
  macros, the float-to-int cast, and division.
- `path_gen.dfy`: the generator.
- `path_gen_props.dfy`: the properties of the plan.
- `riser_mission.dfy`: the controller.

Points where the model follows the code as written:

- `firstHeading` is a local variable of `pointCartToCord`, set to 0 on every
  call. So only point 0 subtracts its own raw heading. That point is written
  with the reference heading; every later point gets its raw heading plus the
  reference heading, wrapped once. The model follows the code, not a
  per-mission first heading.
- The product loop of the rotation multiplies every entry of row `j` by
  `v[j]` instead of `v[k]`. The model keeps this (`RotateAsWritten`).
  `AsWrittenOnDiagonal` shows that this equals the matrix product for
  diagonal matrices, and `rotz_cartP(180)` gives one. `AsWrittenOffDiagonal`
  shows that it does not for a quarter turn.
- The altitude written for every point is `alt0_` (`AltitudeIsReference`).
  `z0 = -z + alt0_` cancels the point's height.
- The "return home" waypoint's index is the number of columns of the header
  row plus one, not a count of waypoints. The index depends on the header
  alone (`ReturnIndexIgnoresRows`). When a row carries that number, two
  waypoints share an index (`ReturnIndexCanRepeat`).
- The single +-360 wrap is meant to keep every heading in [-180, 180], but
  it does so only for a reference heading from -90 to 540
  (`HeadingOfPoint`). Below -90 it fails: `HeadingEscapes` gives a heading
  below -180 for a reference heading of -100.
- uploadWaypoints sets `target_yaw` and `has_action` to 0 for every waypoint
  (`EntriesShape`). So the yaw read from each CSV row, and the 5000 ms
  stay and the photo action set by setWaypointDefaults, never reach the
  vehicle: they live only in the `WayPointSettings` list.
- The constructor writes the CSV header to `saved_wp_` before the stream is
  opened, so the header is never written. This assumes two things the model
  cannot see: that ros_pathGen.hh, which is not part of this model, declares
  `saved_wp_` as a default-constructed `std::ofstream`, and that `open()`
  (ros_pathGen.cpp:263) clears the failbit the early write set, as it does
  from C++11 on. The model starts with a closed stream and no lines.

## Model

| member | source | states |
|---|---|---|
| Numerics.Deg2Rad | include/local_position_control.h:34 | DEG2RAD (ros_pathGen.cpp takes it from ros_pathGen.hh, which is not part of this model, and it is assumed to be this definition): 180 degrees is pi; rad * 180 = deg * pi |
| Numerics.Rad2Deg | include/local_position_control.h:35 | RAD2DEG (assumed, like DEG2RAD, to be the macro ros_pathGen.cpp uses) is the inverse of DEG2RAD and maps [-pi, pi] into [-180, 180] |
| Numerics.Trunc | src/ros_pathGen.cpp:40-45 | the C cast to int truncates toward zero: the result is within 1 of x, on the side of 0 |
| Numerics.Quot | src/ros_pathGen.cpp:224-227 | division: q * b = a for a non-zero divisor, and 0 divided by anything is 0 |
| PathGen.GuardIsCount | src/ros_pathGen.cpp:191-206 | the float guard `i <= x - 1` holds exactly for i < Count(x) |
| PathGen.Count | src/ros_pathGen.cpp:191-206 | defines how often a loop `for (int i = 0; i <= x - 1; i++)` over a float x runs; GuardIsCount and CountOfWhole state it |
| PathGen.RawHeading | src/ros_pathGen.cpp:150-152 | defines the heading before correction: RAD2DEG(atan2(dy, dx)) - 180 - 90 |
| PathGen.WrapHeading | src/ros_pathGen.cpp:162-166 | the single +-360 correction maps [-540, 540] into [-180, 180], changes h by 0 or +-360, and keeps [-180, 180] unchanged |
| PathGen.Heading | src/ros_pathGen.cpp:135-166 | point 0 gets the wrapped reference heading; with the library's atan2 in [-pi, pi] and head0 in [-90, 540], every heading is in [-180, 180] |
| PathGen.Pitch | src/ros_pathGen.cpp:158 | a zero vertical look component gives pitch 0 |
| PathGen.Latitude | src/ros_pathGen.cpp:131-143 | defines the latitude of a point y metres north: RAD2DEG((y + R DEG2RAD(lat0_)) / R); ZeroOffsetLatitude states its value at y = 0 |
| PathGen.Longitude | src/ros_pathGen.cpp:130-142 | defines the longitude of a point x metres east, scaled by cos(lon0_) as the code does; ZeroOffsetLongitude states its value at x = 0 |
| PathGen.Altitude | src/ros_pathGen.cpp:132-139 | the altitude written is alt0_, whatever the point's z |
| PathGen.CoordRow | src/ros_pathGen.cpp:130-169 | coord_array_ has five entries, and its altitude is alt0_ |
| PathGen.RotateAsWritten | src/ros_pathGen.cpp:231-241 | defines what the product loop leaves in a 3-vector: row j of the matrix multiplied by v[j]; HalfTurn, AsWrittenOnDiagonal and AsWrittenOffDiagonal state what it computes |
| PathGen.RotZ | src/ros_pathGen.cpp:38-51 | rotz_cartP's matrix is 3x3, with row 2 = (0, 0, 1) and [0][2] = [1][2] = 0; at yaw 180 it is diag(-1, -1, 1) |
| PathGen.Offset | src/ros_pathGen.cpp:217-219 | the look vector toward (0, 0, z) is horizontal: its z component is 0 |
| PathGen.Height | src/ros_pathGen.cpp:198-207 | defines the height of sample j of ring i; EvenRingClimbs, OddRingDescends and OddRingRetraces state it |
| PathGen.SampleOf | src/ros_pathGen.cpp:217-248 | defines cart_array_ for an unrotated point: the rotated point, its altitude, the rotated unit look vector and dr2; SampleIsTurnedPoint states it |
| PathGen.Sample | src/ros_pathGen.cpp:207-248 | defines cart_array_ for sample j of ring i; SampleIsTurnedPoint states it |
| PathGen.Emit | src/ros_pathGen.cpp:243-249 | defines what point number nCount leaves in cart_array_ and coord_array_; AltitudeIsReference, PitchIsZero and HeadingOfPoint state it |
| PathGen.RowText | src/ros_pathGen.cpp:113-120 | defines the text csv_save_wp writes for a row; RowTextIsJoined states it |
| PathGen.Lines | src/ros_pathGen.cpp:172 | defines the lines written for a run of points, one per point; LinesShape states it |
| PathGen.PathGenerate.constructor | src/ros_pathGen.cpp:7-11 | a new generator has not latched a fix, holds no messages, and its stream is closed and empty |
| PathGen.PathGenerate.SetInitCoord | src/ros_pathGen.cpp:17-22 | the reference becomes (lat, lon, alt, head) |
| PathGen.PathGenerate.SetDjiWaypointTask | src/ros_pathGen.cpp:24-36 | waypointTaskDJI_ holds the eight parameters in order |
| PathGen.PathGenerate.GetGpsPosition | src/ros_pathGen.cpp:88-99 | keeps both messages; the first call latches the RTK latitude, longitude and altitude and clears first_time; later calls leave the reference unchanged |
| PathGen.PathGenerate.RotzCartP | src/ros_pathGen.cpp:38-51 | rotz_ holds RotZ(yaw) |
| PathGen.PathGenerate.RotateInPlace | src/ros_pathGen.cpp:231-241 | p and dr are replaced by the loop's product with rotz_ |
| PathGen.PathGenerate.RotateRow | src/ros_pathGen.cpp:232-240 | one outer pass changes only entry j of p and of dr |
| PathGen.PathGenerate.CsvSaveWp | src/ros_pathGen.cpp:113-120 | appends exactly one line, the row's text, when the stream is open and row > 0; otherwise writes nothing |
| PathGen.PathGenerate.PointCartToCord | src/ros_pathGen.cpp:122-173 | coord_array_ is the point's latitude, longitude, altitude, heading and pitch; the line for it is appended when the stream is open |
| PathGen.PathGenerate.StoreCoord | src/ros_pathGen.cpp:145-169 | coord_array_ holds the five values |
| PathGen.PathGenerate.FillCart | src/ros_pathGen.cpp:210-248 | cart_array_ is the sample of ring i at height j, and rotz_ is the 180-degree matrix |
| PathGen.PathGenerate.StoreCart | src/ros_pathGen.cpp:243-248 | cart_array_ holds the six values |
| PathGen.PathGenerate.InspectPoint | src/ros_pathGen.cpp:207-253 | one inner pass leaves that point's arrays and appends its line |
| PathGen.PathGenerate.InspectRing | src/ros_pathGen.cpp:206-254 | the inner loop emits Count(nv) points of ring i, numbered on from nCount, and appends their lines in order |
| PathGen.PathGenerate.InspectRings | src/ros_pathGen.cpp:191-256 | the outer loop writes the lines of rings 0 .. Count(nh)-1, ring after ring, with isVertical flipping per ring |
| PathGen.PathGenerate.RingStart | src/ros_pathGen.cpp:193-204 | alpha = i * da; even rings start at 0 and climb by dv, odd rings start at hc and descend |
| PathGen.PathGenerate.CreateInspectionPoints | src/ros_pathGen.cpp:175-257 | the stream receives exactly Lines(Plan), one per point, when open; the arrays hold the last point's values |
| PathGen.Plan | src/ros_pathGen.cpp:175-257 | defines every point createInspectionPoints converts, in emission order; PlanShape states its length and order |
| PathGen.PlanLinesArePlan | src/ros_pathGen.cpp:191-256 | the lines the nested loops write are the lines of the plan's points, in order |
| PathGenProps.CountOfWhole | src/ros_pathGen.cpp:191 | for whole nh or nv the float loop runs exactly that often |
| PathGenProps.RingScheduleShape | src/ros_pathGen.cpp:206-253 | ring i emits samples 0 .. n-1 in order, numbered base, base+1, ... |
| PathGenProps.ScheduleShape | src/ros_pathGen.cpp:191-256 | n rings of v samples give n*v points, ring-major; place k is sample k % v of ring k / v and is numbered k |
| PathGenProps.LinesShape | src/ros_pathGen.cpp:172 | one CSV line per point, each the text of its coord_array_ |
| PathGenProps.PlanShape | src/ros_pathGen.cpp:175-257 | createInspectionPoints converts Count(nh)*Count(nv) points; point k is sample k % Count(nv) of ring k / Count(nv), with nCount = k |
| PathGenProps.WrittenLines | src/ros_pathGen.cpp:175-257 | the CSV file gets Count(nh)*Count(nv) lines; line k is the coordinates of that point |
| PathGenProps.EvenRingClimbs | src/ros_pathGen.cpp:198-207 | even rings: z = j * dv |
| PathGenProps.OddRingDescends | src/ros_pathGen.cpp:201-207 | odd rings: z = (nv - 1 - j) * dv |
| PathGenProps.OddRingRetraces | src/ros_pathGen.cpp:184-207 | for whole nv, an odd ring visits the even-ring heights in reverse order |
| PathGenProps.HalfTurn | src/ros_pathGen.cpp:229-241 | with cos(pi) = -1 and abs(sin(pi)) < 1, the loop negates x and y and keeps z |
| PathGenProps.AsWrittenOnDiagonal | src/ros_pathGen.cpp:231-241 | multiplying row j by v[j] equals the matrix product when the matrix is diagonal |
| PathGenProps.AsWrittenOffDiagonal | src/ros_pathGen.cpp:234-235 | for a quarter turn the loop is not the matrix product |
| PathGenProps.SampleIsTurnedPoint | src/ros_pathGen.cpp:210-248 | cart_array_ is (-r cos(alpha), -r sin(alpha), z + alt0_, ...), with a zero last entry dr2 |
| PathGenProps.AltitudeIsReference | src/ros_pathGen.cpp:132-147 | every point's written altitude is alt0_ |
| PathGenProps.PitchIsZero | src/ros_pathGen.cpp:158 | every point's pitch is 0 |
| PathGenProps.HeadingOfPoint | src/ros_pathGen.cpp:150-166 | point 0's heading is the wrapped head0_; any other point's is its raw heading plus head0_, wrapped; all lie in [-180, 180] for head0_ in [-90, 540] |
| PathGenProps.HeadingEscapes | src/ros_pathGen.cpp:160-166 | with a library that has the facts of `Sane`, head0_ = -100 and a later point whose look vector is (-1, -0.1) give a heading below -180: the single wrap does not bound headings for head0_ < -90 |
| PathGenProps.ZeroOffsetLatitude | src/ros_pathGen.cpp:131-143 | a zero northward offset gives lat0_ |
| PathGenProps.ZeroOffsetLongitude | src/ros_pathGen.cpp:130-142 | a zero eastward offset gives lon0_ when cos(lon0_) is not 0 |
| PathGenProps.RowTextIsJoined | src/ros_pathGen.cpp:113-120 | a CSV line is the values separated by ", " and ended by a single "\n" |
| RiserMission.Vehicle.Send | src/ros/riser_inspection_wp.cpp:248 | a DJI service call: logged once, answered by the script |
| RiserMission.AuthorityEndOf | src/ros/riser_inspection_wp.cpp:245-277 | defines how askControlAuthority ends, from the activation answer and the first authority answer; AuthorityProtocol states its properties |
| RiserMission.AuthorityProtocol | src/ros/riser_inspection_wp.cpp:245-277 | no authority request without activation; true iff activation and the first request succeed; a second request iff the ack is (3, 1, 0); never a third; false exactly on failed activation or another failure |
| RiserMission.Defaulted | src/ros/riser_inspection_wp.cpp:371-390 | defines what setWaypointDefaults leaves in a waypoint; DefaultsAre states it |
| RiserMission.DefaultsAre | src/ros/riser_inspection_wp.cpp:371-390 | damping, yaw, gimbalPitch, turnMode and hasAction are 0; all 16 commands and parameters are 0 except commandParameter[0] = 5000, commandList[2] = 1 and commandParameter[2] = 1; actionNumber 2, actionTimeLimit 100, actionRepeat 1; index and position kept; idempotent |
| RiserMission.DefaultedThenSet | src/ros/riser_inspection_wp.cpp:285-305 | a defaulted struct given index, position and yaw is the same waypoint whatever it held before |
| RiserMission.Byte | src/ros/riser_inspection_wp.cpp:309 | a uint8_t index field lies in [0, 256) and keeps values that fit |
| RiserMission.StartWaypoint | src/ros/riser_inspection_wp.cpp:285-293 | defines the start waypoint; WaypointListShape states its fields |
| RiserMission.RowWaypoint | src/ros/riser_inspection_wp.cpp:299-305 | defines the waypoint read from one row; UploadedMission states what reaches the upload |
| RiserMission.RowWaypoints | src/ros/riser_inspection_wp.cpp:297-307 | defines the waypoints of the data rows; RowWaypointsShape states them |
| RiserMission.ReturnIndex | src/ros/riser_inspection_wp.cpp:309 | defines the return-home index; ReturnIndexIgnoresRows and ReturnIndexCanRepeat state it |
| RiserMission.RowWaypointsShape | src/ros/riser_inspection_wp.cpp:297-307 | one waypoint per row after the header, in row order |
| RiserMission.WaypointList | src/ros/riser_inspection_wp.cpp:282-311 | defines the list createWayPoint returns; WaypointListShape states its shape |
| RiserMission.WaypointListShape | src/ros/riser_inspection_wp.cpp:282-311 | csv.size() + 1 waypoints: start (index 0, altitude 10, start fix), the rows in order, the start again with index csv[0].size() + 1 |
| RiserMission.ReturnIndexIgnoresRows | src/ros/riser_inspection_wp.cpp:309 | the return-home index depends on the header width only |
| RiserMission.ReturnIndexCanRepeat | src/ros/riser_inspection_wp.cpp:301-310 | a row numbered like the return-home waypoint gives two waypoints with the same index |
| RiserMission.Entries | src/ros/riser_inspection_wp.cpp:355-368 | defines the entries uploadWaypoints appends; EntriesShape states them |
| RiserMission.EntriesShape | src/ros/riser_inspection_wp.cpp:352-369 | one entry per waypoint, in order, with its latitude, longitude and altitude and damping, yaw, gimbal pitch, turn mode and action zero |
| RiserMission.MissionTaskOf | src/ros/riser_inspection_wp.cpp:319-331 | defines the task runWaypointMission uploads; UploadedMission states its waypoints |
| RiserMission.RunCalls | src/ros/riser_inspection_wp.cpp:335-349 | defines the calls after the task is built: the upload, and the start action only after an accepted upload |
| RiserMission.UploadedMission | src/ros/riser_inspection_wp.cpp:315-331 | the uploaded task has csv.size() + 1 waypoints, starts and ends at the start fix at altitude 10, and flies rows 1.. in between |
| RiserMission.PhotoDue | src/ros/riser_inspection_wp.cpp:181-182 | defines when gps_callback asks for a photo; PhotoThreshold states its properties |
| RiserMission.Launched | src/ros/riser_inspection_wp.cpp:159-175 | defines the calls and result of the end of startMission_serviceCB; the contracts of Launch and StartMission are stated with it |
| RiserMission.PhotoThreshold | src/ros/riser_inspection_wp.cpp:179-189 | a photo is due only during a mission and only when the altitude moved by strictly more than 0.2 m |
| RiserMission.WaypointStruct.constructor | src/ros/riser_inspection_wp.cpp:285 | a local struct has two 16-entry command arrays of unknown contents |
| RiserMission.MissionTask.constructor | src/ros/riser_inspection_wp.cpp:319 | a new task message is all zero with no waypoints |
| RiserMission.RiserInspection.constructor | include/riser_inspection_wp.hh:86 | use_rtk and doing_mission start false |
| RiserMission.RiserInspection.GpsCallback | src/ros/riser_inspection_wp.cpp:179-189 | current_gps_ is always replaced; a camera call exactly when a photo is due; old_gps_ moves only when the photo is taken |
| RiserMission.RiserInspection.RtkCallback | src/ros/riser_inspection_wp.cpp:191-193 | current_rtk_ is replaced |
| RiserMission.RiserInspection.AttiCallback | src/ros/riser_inspection_wp.cpp:195-198 | current_atti_ is replaced |
| RiserMission.RiserInspection.TakePicture | src/ros/riser_inspection_wp.cpp:200-205 | one camera action 0; its result |
| RiserMission.RiserInspection.MissionActionCall | src/ros/riser_inspection_wp.cpp:207-227 | waypoint missions send the action and return its ack; hotpoint missions send nothing and return no value |
| RiserMission.RiserInspection.InitWaypointMission | src/ros/riser_inspection_wp.cpp:229-242 | one upload of the task; its ack |
| RiserMission.RiserInspection.AskControlAuthority | src/ros/riser_inspection_wp.cpp:245-277 | the calls made and the reply are those of AuthorityEndOf on the first two answers |
| RiserMission.RiserInspection.AskControl | src/ros/riser_inspection_wp.cpp:65-95 | activate, then one authority request if activated; true when both succeed, no value otherwise |
| RiserMission.RiserInspection.SetWaypointDefaults | src/ros/riser_inspection_wp.cpp:371-390 | the struct becomes Defaulted of what it held |
| RiserMission.RiserInspection.ResetCommands | src/ros/riser_inspection_wp.cpp:380-387 | after the clearing loop and the four stores the arrays hold the default commands and parameters |
| RiserMission.RiserInspection.SetWaypointInitDefaults | src/ros/riser_inspection_wp.cpp:392-401 | the eight mission parameters are set and the waypoints kept |
| RiserMission.RiserInspection.CreateWayPoint | src/ros/riser_inspection_wp.cpp:279-312 | returns WaypointList of the file, the start fix and the start yaw |
| RiserMission.RiserInspection.RowStruct | src/ros/riser_inspection_wp.cpp:299-306 | the waypoint of one row |
| RiserMission.RiserInspection.SetPosition | src/ros/riser_inspection_wp.cpp:287-305 | only index, position and yaw change |
| RiserMission.RiserInspection.UploadWaypoints | src/ros/riser_inspection_wp.cpp:352-369 | appends Entries(list) to the task, and earlier entries are unchanged |
| RiserMission.RiserInspection.RunWaypointMission | src/ros/riser_inspection_wp.cpp:315-350 | uploads MissionTaskOf(WaypointList); the start action only after an accepted upload; true iff both are accepted |
| RiserMission.RiserInspection.StartMission | src/ros/riser_inspection_wp.cpp:117-176 | clears doing_mission; takes the start fix from RTK iff requested; a generator failure makes no call; otherwise Launched; doing_mission and old_gps_ are set only on success |
| RiserMission.RiserInspection.Launch | src/ros/riser_inspection_wp.cpp:159-175 | no mission without authority; after granted authority, the mission's calls and ok iff upload and start both succeed; after the retry either outcome |

## Left out

- Numerics.Quot: floating division by zero (NaN or an infinity in IEEE arithmetic) is given the value 0. This matters when the look vector has zero length or cos(lon0_) is 0.
- The C maths library (`cos`, `sin`, `atan2`, `asin`, `sqrt`) is an arbitrary table (`Libm`). Only the facts in `Sane` are assumed where a lemma says so. `Pi` is the decimal 3.141592653589793, a little below the double `M_PI`, so `Sane`'s bound on atan2 excludes an answer of exactly `M_PI`, as IEEE atan2(0, -1) gives. The heading bounds of `Heading` and `HeadingOfPoint` at a reference heading of exactly -90 hold only up to that gap of about 1e-14 degrees. Double and float rounding is not modelled: all arithmetic is over the reals.
- The `<<` formatting of doubles with `setprecision(10)` is an arbitrary table (`Format`). Only the separators and the line end are modelled.
- PathGen.PathGenerate.CreateInspectionPoints: the local array `p`, declared once before the loops, is allocated per point in the model rather than reused across iterations. Every entry is written before it is read, so no value depends on the reuse.
- `nh` and `nv` are floats in the source and reals here. The loop count is `Count`, the floor of the value, or 0 below 1.
- `saved_wp_` is modelled as the sequence of lines written while the stream is open. Opening and closing the file (`PathGen_serviceCB`), the folder services, `exists`, `print_wp`, ROS logging, services and subscribers are left out as I/O.
- `read_csv`, `reset`, `setInspectionParam`, `setInitCoord` and `createInspectionPoints(3)` of the generator class declared in path_generator.hh, which riser_inspection_wp.cpp calls: path_generator.hh is not part of this model. The CSV rows are an input (`csv`), a thrown exception is the input `generatorThrows`, and the generator's own state is not modelled.
- RiserMission.RiserInspection.StartMission: the arguments passed to the generator's `setInitCoord` are not modelled, because they only reach the generator state of path_generator.hh.
- `ros::spinOnce` in runWaypointMission is taken to dispatch no callback. Callbacks run one at a time, as method calls.
- `std::stoi`, `std::stod` and `std::stof` are given functions (`Parsers`). Their exceptions on malformed text are not modelled, and neither is the undefined float-to-`int16_t` conversion of an out-of-range yaw (modelled as truncation).
- RiserMission.Byte: the `uint8_t` waypoint index is the value modulo 256. This is exact: conversion to an unsigned type is reduction modulo 2^8 in every C++ standard.
- The `float` fields (`idle_velocity = 0.2`, the waypoint altitude) are reals; their float rounding is ignored.
- The DJI constants (`FINISH_NO_ACTION`, `YAW_MODE_WAYPOINT`, ...) and field widths come from the DJI SDK message definitions, which are not part of this model. The values used are those of the DJI SDK headers.
- RiserMission.RiserInspection.UploadWaypoints: `responseTimeout` is accepted and ignored, as in the source.
- The other `MissionWaypoint` fields (those uploadWaypoints does not set) keep their defaults and are not modelled.
- The quaternion-to-Euler `Yaw()` of ignition math is a given function (`yawOf`). `current_atti_euler_` is therefore not stored.
- RiserMission.RiserInspection.CreateWayPoint: an empty file (`csv_file[0]` at line 309) or a data row with fewer than five fields (`csv_file[k][0..4]` at lines 301-305) is an out-of-bounds access, undefined behaviour in the source. `WellFormed` excludes both, so the model says nothing about such files.
- RiserMission.RiserInspection.RunWaypointMission: requires `WellFormed` for the same reason, since it passes the file to createWayPoint.
- RiserMission.RiserInspection.StartMission: requires `WellFormed` for the same reason, since it reaches runWaypointMission.
- RiserMission.RiserInspection.Launch: requires `WellFormed` for the same reason, since it calls runWaypointMission.
- The paths that fall off the end of a non-`void` function (`ask_control`, the HOTPOINT case of `missionAction`, the retry path of `askControlAuthority`) return `FallsOffEnd`. Where startMission uses that value, either branch may follow.
- The debug viewers (read_gps_atti.cpp, read_gps_local_atti.cpp) and the node's `main` are left out as I/O.
