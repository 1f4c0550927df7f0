/** The mission controller of src/ros/riser_inspection_wp.cpp: it activates
    the vehicle and asks for control authority, turns the rows of the
    generated CSV file into a DJI waypoint list, uploads it, starts the
    mission, and then takes a photo whenever the altitude has moved by more
    than 0.2 m. The DJI services are a Vehicle object that answers from a
    given script and keeps a log of every call. */
module RiserMission {
  import opened Numerics
  import opened PathGen

  // ---------------------------------------------------------------------
  // The DJI side
  // ---------------------------------------------------------------------

  /** The response of a DJI service: result flag, cmd_set, cmd_id, ack_data. */
  datatype Ack = Ack(result: bool, cmdSet: int, cmdId: int, ackData: int)

  datatype MissionType = Waypoint | Hotpoint
  datatype MissionAction = Start | Stop | Pause | Resume

  /** One waypoint as the upload service receives it: the fields
      uploadWaypoints sets. */
  datatype MissionWaypoint = MissionWaypoint(
    latitude: real, longitude: real, altitude: real,
    dampingDistance: real, targetYaw: int, targetGimbalPitch: int,
    turnMode: int, hasAction: int)

  /** dji_sdk::MissionWaypointTask: the mission parameters and the waypoints. */
  datatype WaypointTask = WaypointTask(
    velocityRange: real, idleVelocity: real, actionOnFinish: int,
    missionExecTimes: int, yawMode: int, traceMode: int,
    actionOnRcLost: int, gimbalPitchMode: int,
    missionWaypoint: seq<MissionWaypoint>)

  /** A call to one of the DJI services, with what it sends. */
  datatype Call =
    | Activate
    | RequestAuthority(controlEnable: int)
    | Upload(task: WaypointTask)
    | Action(action: MissionAction)
    | Camera(cameraAction: int)

  /** The vehicle behind the DJI services. The answer to the k-th call ever
      made is answer(k); calls lists the calls made so far. */
  class Vehicle {
    const answer: nat -> Ack
    var calls: seq<Call>

    constructor (answer: nat -> Ack)
      ensures this.answer == answer && calls == []
    {
      this.answer := answer;
      calls := [];
    }

    /** One service call and its response. */
    method Send(c: Call) returns (a: Ack)
      modifies this`calls
      ensures calls == old(calls) + [c]
      ensures a == answer(|old(calls)|)
    {
      a := answer(|calls|);
      calls := calls + [c];
    }
  }

  /** What a C++ function that may fall off its end without a return
      statement gives its caller: a value, or nothing defined. */
  datatype Reply<T> = Returns(value: T) | FallsOffEnd

  // ---------------------------------------------------------------------
  // Control authority
  // ---------------------------------------------------------------------

  /** control_enable = 1: ask for authority. */
  const ControlEnable: int := 1

  /** The acknowledgement (ack_data 3, cmd_set 1, cmd_id 0) with which the
      vehicle says that obtaining authority is in progress. */
  predicate InProgress(a: Ack)
  {
    a.ackData == 3 && a.cmdSet == 1 && a.cmdId == 0
  }

  /** How askControlAuthority ends. */
  datatype AuthorityEnd = NotActivated | Granted | Refused | AskedAgain

  /** Its end, from the activation answer and the first authority answer. */
  function AuthorityEndOf(activation: Ack, first: Ack): AuthorityEnd
  {
    if !activation.result then NotActivated
    else if first.result then Granted
    else if InProgress(first) then AskedAgain
    else Refused
  }

  /** The calls it makes. */
  function AuthorityCalls(e: AuthorityEnd): seq<Call>
  {
    match e
    case NotActivated => [Activate]
    case Granted => [Activate, RequestAuthority(ControlEnable)]
    case Refused => [Activate, RequestAuthority(ControlEnable)]
    case AskedAgain => [Activate, RequestAuthority(ControlEnable), RequestAuthority(ControlEnable)]
  }

  /** What it returns: after the second authority request the function
      falls off its end. */
  function AuthorityReply(e: AuthorityEnd): Reply<bool>
  {
    match e
    case NotActivated => Returns(false)
    case Granted => Returns(true)
    case Refused => Returns(false)
    case AskedAgain => FallsOffEnd
  }

  /** How many authority requests a run of calls holds. */
  function Requests(calls: seq<Call>): nat
  {
    if calls == [] then 0
    else Requests(calls[..|calls| - 1]) + if calls[|calls| - 1].RequestAuthority? then 1 else 0
  }

  /** No authority request without activation; true exactly when the first
      request succeeds; a second request exactly on the in-progress
      acknowledgement, and never a third. */
  lemma {:induction false} AuthorityProtocol(activation: Ack, first: Ack)
    ensures var e := AuthorityEndOf(activation, first);
      && (!activation.result ==> Requests(AuthorityCalls(e)) == 0 && AuthorityReply(e) == Returns(false))
      && (AuthorityReply(e) == Returns(true) <==> activation.result && first.result)
      && (Requests(AuthorityCalls(e)) == 2 <==> activation.result && !first.result && InProgress(first))
      && Requests(AuthorityCalls(e)) <= 2
      && (AuthorityReply(e) == Returns(false) <==> !activation.result || (!first.result && !InProgress(first)))
  {
    var one := [Activate];
    var two := [Activate, RequestAuthority(ControlEnable)];
    var three := [Activate, RequestAuthority(ControlEnable), RequestAuthority(ControlEnable)];
    assert one[..0] == [] && two[..1] == one && three[..2] == two;
    assert Requests(one) == 0;
    assert Requests(two) == 1;
    assert Requests(three) == 2;
  }

  // ---------------------------------------------------------------------
  // Waypoints
  // ---------------------------------------------------------------------

  /** DJI::OSDK::WayPointSettings, the fields this controller sets. */
  datatype WaypointSettings = WaypointSettings(
    index: int, latitude: real, longitude: real, altitude: real,
    damping: real, yaw: int, gimbalPitch: int, turnMode: int, hasAction: int,
    actionTimeLimit: int, actionNumber: int, actionRepeat: int,
    commandList: seq<int>, commandParameter: seq<int>)

  /** The number of entries of commandList and commandParameter. */
  const Commands: nat := 16

  /** commandList after setWaypointDefaults: a stay (0) and, third, a shot (1). */
  function DefaultCommandList(): (cl: seq<int>)
    ensures |cl| == Commands
  {
    [0, 0, 1, 0, 0, 0, 0, 0, 0, 0, 0, 0, 0, 0, 0, 0]
  }

  /** commandParameter after setWaypointDefaults: stay 5000 ms, take 1 photo. */
  function DefaultCommandParameter(): (cp: seq<int>)
    ensures |cp| == Commands
  {
    [5000, 0, 1, 0, 0, 0, 0, 0, 0, 0, 0, 0, 0, 0, 0, 0]
  }

  /** What setWaypointDefaults leaves in a waypoint: index and position are
      kept, everything else is set. */
  function Defaulted(w: WaypointSettings): WaypointSettings
  {
    w.(damping := 0.0, yaw := 0, gimbalPitch := 0, turnMode := 0, hasAction := 0,
       actionTimeLimit := 100, actionNumber := 2, actionRepeat := 1,
       commandList := DefaultCommandList(), commandParameter := DefaultCommandParameter())
  }

  /** A defaulted waypoint at the given index, position and yaw. */
  function Configured(index: int, lat: real, lon: real, alt: real, yaw: int): WaypointSettings
  {
    WaypointSettings(index, lat, lon, alt, 0.0, yaw, 0, 0, 0, 100, 2, 1,
                     DefaultCommandList(), DefaultCommandParameter())
  }

  /** The defaults: damping, yaw, gimbal pitch, turn mode and action flag 0;
      all 16 commands 0 except commandList[2] = 1, all parameters 0 except
      commandParameter[0] = 5000 and commandParameter[2] = 1; index and
      position are kept; setting them twice changes nothing. */
  lemma DefaultsAre(w: WaypointSettings)
    ensures var d := Defaulted(w);
      && |d.commandList| == Commands && |d.commandParameter| == Commands
      && (forall k :: 0 <= k < Commands ==> d.commandList[k] == if k == 2 then 1 else 0)
      && (forall k :: 0 <= k < Commands ==> d.commandParameter[k] == if k == 0 then 5000 else if k == 2 then 1 else 0)
      && d.damping == 0.0 && d.yaw == 0 && d.gimbalPitch == 0 && d.turnMode == 0 && d.hasAction == 0
      && d.actionNumber == 2 && d.actionTimeLimit == 100 && d.actionRepeat == 1
      && d.index == w.index && d.latitude == w.latitude && d.longitude == w.longitude && d.altitude == w.altitude
      && Defaulted(d) == d
  {
  }

  /** A defaulted waypoint whose index, position and yaw are then set is the
      configured one, whatever it held before. */
  lemma DefaultedThenSet(w: WaypointSettings, index: int, lat: real, lon: real, alt: real, yaw: int)
    ensures Defaulted(w).(index := index, latitude := lat, longitude := lon, altitude := alt, yaw := yaw)
      == Configured(index, lat, lon, alt, yaw)
  {
  }

  /** A struct field of type uint8_t: the value modulo 256. */
  function Byte(x: int): (b: int)
    ensures 0 <= b < 256
    ensures 0 <= x < 256 ==> b == x
  {
    x % 256
  }

  /** std::stoi, std::stod and std::stof, taken as given. */
  datatype Parsers = Parsers(stoi: string -> int, stod: string -> real, stof: string -> real)

  /** The file as read_csv returns it: a header row, then rows of at least
      five columns (WP, latitude, longitude, altitude, yaw). */
  predicate WellFormed(csv: seq<seq<string>>)
  {
    |csv| >= 1 && forall k :: 1 <= k < |csv| ==> |csv[k]| >= 5
  }

  /** The start waypoint: index 0, the start fix's latitude and longitude,
      altitude 10, the start yaw. */
  function StartWaypoint(start: NavSatFix, yaw: real): WaypointSettings
  {
    Configured(0, start.latitude, start.longitude, 10.0, Trunc(yaw))
  }

  /** The waypoint read from one CSV row. */
  function RowWaypoint(p: Parsers, row: seq<string>): WaypointSettings
    requires |row| >= 5
  {
    Configured(Byte(p.stoi(row[0])), p.stod(row[1]), p.stod(row[2]), p.stof(row[3]), Trunc(p.stof(row[4])))
  }

  /** The waypoints of rows 1 .. n-1. */
  function RowWaypoints(p: Parsers, csv: seq<seq<string>>, n: nat): seq<WaypointSettings>
    requires WellFormed(csv) && n <= |csv|
  {
    if n <= 1 then [] else RowWaypoints(p, csv, n - 1) + [RowWaypoint(p, csv[n - 1])]
  }

  /** The index the return-home copy is given: the number of columns of the
      header row, plus one. */
  function ReturnIndex(csv: seq<seq<string>>): int
    requires |csv| >= 1
  {
    Byte(|csv[0]| + 1)
  }

  /** The list createWayPoint returns. */
  function WaypointList(p: Parsers, csv: seq<seq<string>>, start: NavSatFix, yaw: real): seq<WaypointSettings>
    requires WellFormed(csv)
  {
    var first := StartWaypoint(start, yaw);
    [first] + RowWaypoints(p, csv, |csv|) + [first.(index := ReturnIndex(csv))]
  }

  /** One more row. */
  lemma RowWaypointsNext(p: Parsers, csv: seq<seq<string>>, n: nat)
    requires WellFormed(csv) && 1 <= n < |csv|
    ensures RowWaypoints(p, csv, n + 1) == RowWaypoints(p, csv, n) + [RowWaypoint(p, csv[n])]
  {
  }

  /** The waypoints of rows 1 .. n-1, in the rows' order. */
  lemma {:induction false} RowWaypointsShape(p: Parsers, csv: seq<seq<string>>, n: nat)
    requires WellFormed(csv) && n <= |csv|
    ensures |RowWaypoints(p, csv, n)| == if n <= 1 then 0 else n - 1
    ensures forall k :: 1 <= k < n ==> RowWaypoints(p, csv, n)[k - 1] == RowWaypoint(p, csv[k])
  {
    if n > 1 {
      RowWaypointsShape(p, csv, n - 1);
    }
  }

  /** createWayPoint returns |csv| + 1 waypoints: the start waypoint (index
      0, altitude 10), then the waypoint of every row after the header in
      the rows' order, then the start waypoint again with index
      |csv[0]| + 1. */
  lemma WaypointListShape(p: Parsers, csv: seq<seq<string>>, start: NavSatFix, yaw: real)
    requires WellFormed(csv)
    ensures var list := WaypointList(p, csv, start, yaw);
      && |list| == |csv| + 1
      && list[0].index == 0 && list[0].altitude == 10.0
      && list[0].latitude == start.latitude && list[0].longitude == start.longitude
      && (forall k :: 1 <= k < |csv| ==> list[k] == RowWaypoint(p, csv[k]))
      && list[|csv|] == list[0].(index := ReturnIndex(csv))
  {
    RowWaypointsShape(p, csv, |csv|);
  }

  /** The return-home index depends on the header alone: two files with
      headers of the same width give it the same index, however many rows
      they hold. */
  lemma ReturnIndexIgnoresRows(csv: seq<seq<string>>, other: seq<seq<string>>)
    requires |csv| >= 1 && |other| >= 1 && |csv[0]| == |other[0]|
    ensures ReturnIndex(csv) == ReturnIndex(other)
  {
  }

  /** So when a row carries that index as its WP number, two waypoints of
      the list share an index. */
  lemma ReturnIndexCanRepeat(p: Parsers, csv: seq<seq<string>>, start: NavSatFix, yaw: real, k: nat)
    requires WellFormed(csv) && 1 <= k < |csv| && Byte(p.stoi(csv[k][0])) == ReturnIndex(csv)
    ensures var list := WaypointList(p, csv, start, yaw);
      |list| == |csv| + 1 && list[k].index == list[|csv|].index && k != |csv|
  {
    WaypointListShape(p, csv, start, yaw);
  }

  /** The entry uploadWaypoints makes for one waypoint. */
  function MissionEntry(w: WaypointSettings): MissionWaypoint
  {
    MissionWaypoint(w.latitude, w.longitude, w.altitude, 0.0, 0, 0, 0, 0)
  }

  /** The entries for a list of waypoints, in order. */
  function Entries(list: seq<WaypointSettings>): seq<MissionWaypoint>
  {
    if list == [] then [] else Entries(list[..|list| - 1]) + [MissionEntry(list[|list| - 1])]
  }

  /** One entry per waypoint, in order, with its latitude, longitude and
      altitude and with damping, yaw, gimbal pitch, turn mode and action
      zero. */
  lemma {:induction false} EntriesShape(list: seq<WaypointSettings>)
    ensures |Entries(list)| == |list|
    ensures forall k :: 0 <= k < |list| ==>
      var e := Entries(list)[k];
      && e.latitude == list[k].latitude && e.longitude == list[k].longitude && e.altitude == list[k].altitude
      && e.dampingDistance == 0.0 && e.targetYaw == 0 && e.targetGimbalPitch == 0
      && e.turnMode == 0 && e.hasAction == 0
    decreases |list|
  {
    if list != [] {
      var front := list[..|list| - 1];
      EntriesShape(front);
      forall k | 0 <= k < |front|
        ensures list[k] == front[k]
      {
      }
    }
  }

  /** The DJI constants of dji_sdk::MissionWaypointTask used here. */
  const FinishNoAction: int := 0
  const YawModeWaypoint: int := 3
  const TracePoint: int := 0
  const ActionFree: int := 0
  const GimbalPitchFree: int := 0

  /** The task runWaypointMission uploads for a waypoint list. */
  function MissionTaskOf(list: seq<WaypointSettings>): WaypointTask
  {
    WaypointTask(2.0, 0.2, FinishNoAction, 1, YawModeWaypoint, TracePoint, ActionFree, GimbalPitchFree,
                 Entries(list))
  }

  /** The uploaded mission starts and ends at the start fix at altitude 10
      and flies the rows in between, |csv| + 1 waypoints in all. */
  lemma UploadedMission(p: Parsers, csv: seq<seq<string>>, start: NavSatFix, yaw: real)
    requires WellFormed(csv)
    ensures var w := MissionTaskOf(WaypointList(p, csv, start, yaw)).missionWaypoint;
      && |w| == |csv| + 1
      && w[0].latitude == start.latitude && w[0].longitude == start.longitude && w[0].altitude == 10.0
      && w[|csv|] == w[0]
      && forall k :: 1 <= k < |csv| ==>
           w[k].latitude == p.stod(csv[k][1]) && w[k].longitude == p.stod(csv[k][2]) && w[k].altitude == p.stof(csv[k][3])
  {
    var list := WaypointList(p, csv, start, yaw);
    WaypointListShape(p, csv, start, yaw);
    EntriesShape(list);
  }

  /** The calls runWaypointMission makes once it uploads task: the start
      action follows only an accepted upload. */
  function RunCalls(task: WaypointTask, upload: Ack): seq<Call>
  {
    if upload.result then [Upload(task), Action(Start)] else [Upload(task)]
  }

  /** The calls startMission_serviceCB makes after generating the plan,
      from before to after, and its result ok: no mission without
      authority; after a granted authority, the mission's calls, and ok
      exactly when upload and start are both accepted; after the second
      authority request either outcome. */
  ghost predicate Launched(before: seq<Call>, after: seq<Call>, answer: nat -> Ack, task: WaypointTask, ok: bool)
  {
    var n := |before|;
    var e := AuthorityEndOf(answer(n), answer(n + 1));
    var asked := before + AuthorityCalls(e);
    var run := asked + RunCalls(task, answer(|asked|));
    var started := answer(|asked|).result && answer(|asked| + 1).result;
    && ((e == NotActivated || e == Refused) ==> !ok && after == asked)
    && (e == Granted ==> after == run && ok == started)
    && (e == AskedAgain ==> (after == asked && !ok) || (after == run && ok == started))
  }

  // ---------------------------------------------------------------------
  // Photos
  // ---------------------------------------------------------------------

  function Abs(x: real): real
  {
    if x < 0.0 then -x else x
  }

  /** gps_callback asks for a photo during a mission once the altitude has
      moved by more than 0.2 m since the last photo. */
  predicate PhotoDue(doingMission: bool, last: NavSatFix, fix: NavSatFix)
  {
    doingMission && Abs(fix.altitude - last.altitude) > 0.2
  }

  /** The threshold is strict and symmetric, and a fix at the altitude of
      the last photo never asks for another. */
  lemma PhotoThreshold(last: NavSatFix, fix: NavSatFix)
    ensures PhotoDue(true, last, fix) <==> fix.altitude > last.altitude + 0.2 || fix.altitude < last.altitude - 0.2
    ensures fix.altitude == last.altitude + 0.2 ==> !PhotoDue(true, last, fix)
    ensures !PhotoDue(true, fix, fix) && !PhotoDue(false, last, fix)
  {
  }

  // ---------------------------------------------------------------------
  // The controller object
  // ---------------------------------------------------------------------

  /** The orientation reported on the attitude topic. */
  datatype Quaternion = Quaternion(w: real, x: real, y: real, z: real)

  /** A WayPointSettings struct: the scalar fields and the two 16-entry
      command arrays. */
  class WaypointStruct {
    var index: int
    var latitude: real
    var longitude: real
    var altitude: real
    var damping: real
    var yaw: int
    var gimbalPitch: int
    var turnMode: int
    var hasAction: int
    var actionTimeLimit: int
    var actionNumber: int
    var actionRepeat: int
    const commandList: array<int>
    const commandParameter: array<int>

    ghost predicate Valid()
      reads this
    {
      commandList.Length == Commands && commandParameter.Length == Commands && commandList != commandParameter
    }

    /** The struct's current contents, as pushed onto a vector. */
    function Value(): WaypointSettings
      requires Valid()
      reads this, commandList, commandParameter
    {
      WaypointSettings(index, latitude, longitude, altitude, damping, yaw, gimbalPitch, turnMode, hasAction,
                       actionTimeLimit, actionNumber, actionRepeat, commandList[..], commandParameter[..])
    }

    /** A local struct: its contents are whatever the memory held. */
    constructor ()
      ensures Valid() && fresh(commandList) && fresh(commandParameter)
    {
      commandList := new int[Commands];
      commandParameter := new int[Commands];
    }
  }

  /** A dji_sdk::MissionWaypointTask message. */
  class MissionTask {
    var velocityRange: real
    var idleVelocity: real
    var actionOnFinish: int
    var missionExecTimes: int
    var yawMode: int
    var traceMode: int
    var actionOnRcLost: int
    var gimbalPitchMode: int
    var missionWaypoint: seq<MissionWaypoint>

    function Value(): WaypointTask
      reads this
    {
      WaypointTask(velocityRange, idleVelocity, actionOnFinish, missionExecTimes, yawMode, traceMode,
                   actionOnRcLost, gimbalPitchMode, missionWaypoint)
    }

    /** A message as constructed: every field zero, no waypoints. */
    constructor ()
      ensures Value() == WaypointTask(0.0, 0.0, 0, 0, 0, 0, 0, 0, [])
    {
      velocityRange, idleVelocity := 0.0, 0.0;
      actionOnFinish, missionExecTimes, yawMode, traceMode, actionOnRcLost, gimbalPitchMode := 0, 0, 0, 0, 0, 0;
      missionWaypoint := [];
    }
  }

  class RiserInspection {
    /** The last fixes and attitude received, and those the mission was
        started from. */
    var currentGps: NavSatFix
    var oldGps: NavSatFix
    var currentRtk: NavSatFix
    var currentAtti: Quaternion
    var startGnss: NavSatFix
    var startAtti: Quaternion
    var useRtk: bool
    var doingMission: bool
    /** The DJI services. */
    const vehicle: Vehicle
    /** ignition's quaternion-to-Euler Yaw(), taken as given. */
    const yawOf: Quaternion -> real
    const parse: Parsers

    /** The controller with the defaults of its declaration: not using RTK
        and not on a mission. */
    constructor (vehicle: Vehicle, yawOf: Quaternion -> real, parse: Parsers)
      ensures this.vehicle == vehicle && this.yawOf == yawOf && this.parse == parse
      ensures !useRtk && !doingMission
    {
      this.vehicle := vehicle;
      this.yawOf := yawOf;
      this.parse := parse;
      useRtk, doingMission := false, false;
    }

    /** gps_callback: keep the fix; during a mission, once the altitude has
        moved by more than 0.2 m, take a photo and, if it was taken,
        remember the fix. */
    method GpsCallback(msg: NavSatFix)
      modifies this`currentGps, this`oldGps, vehicle`calls
      ensures currentGps == msg
      ensures var due := PhotoDue(doingMission, old(oldGps), msg);
        && vehicle.calls == old(vehicle.calls) + (if due then [Camera(0)] else [])
        && oldGps == if due && vehicle.answer(|old(vehicle.calls)|).result then msg else old(oldGps)
    {
      currentGps := msg;
      if doingMission {
        if Abs(currentGps.altitude - oldGps.altitude) > 0.2 {
          var taken := TakePicture();
          if taken {
            oldGps := currentGps;
          }
        }
      }
    }

    /** rtk_callback: keep the RTK fix. */
    method RtkCallback(msg: NavSatFix)
      modifies this`currentRtk
      ensures currentRtk == msg
    {
      currentRtk := msg;
    }

    /** atti_callback: keep the attitude. */
    method AttiCallback(q: Quaternion)
      modifies this`currentAtti
      ensures currentAtti == q
    {
      currentAtti := q;
    }

    /** takePicture: one camera action 0; its result. */
    method TakePicture() returns (taken: bool)
      modifies vehicle`calls
      ensures vehicle.calls == old(vehicle.calls) + [Camera(0)]
      ensures taken == vehicle.answer(|old(vehicle.calls)|).result
    {
      var ack := vehicle.Send(Camera(0));
      taken := ack.result;
    }

    /** missionAction: for a waypoint mission, send the action and pass the
        acknowledgement on; for a hotpoint mission nothing is sent and the
        function falls off its end. */
    method MissionActionCall(kind: MissionType, action: MissionAction) returns (r: Reply<Ack>)
      modifies vehicle`calls
      ensures kind == Waypoint ==> vehicle.calls == old(vehicle.calls) + [Action(action)]
                                   && r == Returns(vehicle.answer(|old(vehicle.calls)|))
      ensures kind == Hotpoint ==> vehicle.calls == old(vehicle.calls) && r == FallsOffEnd
    {
      match kind
      case Waypoint =>
        var ack := vehicle.Send(Action(action));
        r := Returns(ack);
      case Hotpoint =>
        r := FallsOffEnd;
    }

    /** initWaypointMission: upload the task; the acknowledgement. */
    method InitWaypointMission(task: MissionTask) returns (ack: Ack)
      modifies vehicle`calls
      ensures vehicle.calls == old(vehicle.calls) + [Upload(task.Value())]
      ensures ack == vehicle.answer(|old(vehicle.calls)|)
    {
      ack := vehicle.Send(Upload(task.Value()));
    }

    /** askControlAuthority: activate; if activated, ask for authority, and
        ask once more on the in-progress acknowledgement. */
    method AskControlAuthority() returns (r: Reply<bool>)
      modifies vehicle`calls
      ensures var n := |old(vehicle.calls)|;
        var e := AuthorityEndOf(vehicle.answer(n), vehicle.answer(n + 1));
        && vehicle.calls == old(vehicle.calls) + AuthorityCalls(e)
        && r == AuthorityReply(e)
    {
      var activation := vehicle.Send(Activate);
      if !activation.result {
        return Returns(false);
      }
      var authority := vehicle.Send(RequestAuthority(ControlEnable));
      if authority.result {
        return Returns(true);
      }
      if authority.ackData == 3 && authority.cmdSet == 1 && authority.cmdId == 0 {
        authority := vehicle.Send(RequestAuthority(ControlEnable));
        return FallsOffEnd;
      }
      return Returns(false);
    }

    /** ask_control, the service: activate and ask for authority once. It
        returns true when both succeed and falls off its end otherwise. */
    method AskControl() returns (r: Reply<bool>)
      modifies vehicle`calls
      ensures var n := |old(vehicle.calls)|;
        && vehicle.calls == old(vehicle.calls) + (if vehicle.answer(n).result then [Activate, RequestAuthority(ControlEnable)] else [Activate])
        && r == if vehicle.answer(n).result && vehicle.answer(n + 1).result then Returns(true) else FallsOffEnd
    {
      var activation := vehicle.Send(Activate);
      if !activation.result {
        return FallsOffEnd;
      }
      var authority := vehicle.Send(RequestAuthority(ControlEnable));
      if !authority.result {
        return FallsOffEnd;
      }
      return Returns(true);
    }

    /** setWaypointDefaults: everything but index and position, the command
        arrays cleared in a loop and then the stay and the shot set. */
    method SetWaypointDefaults(wp: WaypointStruct)
      requires wp.Valid()
      modifies wp, wp.commandList, wp.commandParameter
      ensures wp.Valid() && wp.Value() == Defaulted(old(wp.Value()))
    {
      wp.damping := 0.0;
      wp.yaw := 0;
      wp.gimbalPitch := 0;
      wp.turnMode := 0;
      wp.hasAction := 0;
      wp.actionTimeLimit := 100;
      wp.actionNumber := 2;
      wp.actionRepeat := 1;
      ResetCommands(wp.commandList, wp.commandParameter);
    }

    /** The command arrays of setWaypointDefaults: all cleared in a loop,
        then the stay and the shot set. */
    method ResetCommands(commandList: array<int>, commandParameter: array<int>)
      requires commandList.Length == Commands && commandParameter.Length == Commands
      requires commandList != commandParameter
      modifies commandList, commandParameter
      ensures commandList[..] == DefaultCommandList() && commandParameter[..] == DefaultCommandParameter()
    {
      for i := 0 to Commands
        invariant forall k :: 0 <= k < i ==> commandList[k] == 0 && commandParameter[k] == 0
      {
        commandList[i] := 0;
        commandParameter[i] := 0;
      }
      commandList[0] := 0;
      commandParameter[0] := 5000;
      commandList[2] := 1;
      commandParameter[2] := 1;
    }

    /** setWaypointInitDefaults: the mission-level parameters. */
    method SetWaypointInitDefaults(task: MissionTask)
      modifies task
      ensures task.Value() == old(task.Value()).(
        velocityRange := 2.0, idleVelocity := 0.2, actionOnFinish := FinishNoAction,
        missionExecTimes := 1, yawMode := YawModeWaypoint, traceMode := TracePoint,
        actionOnRcLost := ActionFree, gimbalPitchMode := GimbalPitchFree)
    {
      task.velocityRange := 2.0;
      task.idleVelocity := 0.2;
      task.actionOnFinish := FinishNoAction;
      task.missionExecTimes := 1;
      task.yawMode := YawModeWaypoint;
      task.traceMode := TracePoint;
      task.actionOnRcLost := ActionFree;
      task.gimbalPitchMode := GimbalPitchFree;
    }

    /** createWayPoint: the start waypoint, one waypoint per row after the
        header, and the start waypoint again as the way home. */
    method CreateWayPoint(csv: seq<seq<string>>, task: MissionTask) returns (list: seq<WaypointSettings>)
      requires WellFormed(csv)
      ensures list == WaypointList(parse, csv, startGnss, yawOf(startAtti))
    {
      list := [];
      var startWp := new WaypointStruct();
      SetWaypointDefaults(startWp);
      ghost var d := startWp.Value();
      SetPosition(startWp, 0, startGnss.latitude, startGnss.longitude, 10.0, Trunc(yawOf(startAtti)));
      DefaultedThenSet(d, 0, startGnss.latitude, startGnss.longitude, 10.0, Trunc(yawOf(startAtti)));
      ghost var first := startWp.Value();
      list := list + [startWp.Value()];
      for k := 1 to |csv|
        invariant startWp.Valid() && startWp.Value() == first
        invariant list == [first] + RowWaypoints(parse, csv, k)
      {
        var wp := RowStruct(csv[k]);
        RowWaypointsNext(parse, csv, k);
        list := list + [wp];
      }
      startWp.index := Byte(|csv[0]| + 1);
      list := list + [startWp.Value()];
    }

    /** The loop body of createWayPoint: a fresh struct, defaulted, then
        given the row's WP number, latitude, longitude, altitude and yaw. */
    method RowStruct(row: seq<string>) returns (v: WaypointSettings)
      requires |row| >= 5
      ensures v == RowWaypoint(parse, row)
    {
      var wp := new WaypointStruct();
      SetWaypointDefaults(wp);
      ghost var d := wp.Value();
      SetPosition(wp, Byte(parse.stoi(row[0])), parse.stod(row[1]), parse.stod(row[2]), parse.stof(row[3]),
                  Trunc(parse.stof(row[4])));
      DefaultedThenSet(d, Byte(parse.stoi(row[0])), parse.stod(row[1]), parse.stod(row[2]), parse.stof(row[3]),
                       Trunc(parse.stof(row[4])));
      v := wp.Value();
    }

    /** The field assignments of createWayPoint. */
    method SetPosition(wp: WaypointStruct, index: int, lat: real, lon: real, alt: real, yaw: int)
      requires wp.Valid()
      modifies wp
      ensures wp.Valid()
      ensures wp.Value() == old(wp.Value()).(index := index, latitude := lat, longitude := lon, altitude := alt, yaw := yaw)
    {
      wp.index := index;
      wp.latitude := lat;
      wp.longitude := lon;
      wp.altitude := alt;
      wp.yaw := yaw;
    }

    /** uploadWaypoints: one entry per waypoint appended to the task, in
        order. */
    method UploadWaypoints(list: seq<WaypointSettings>, responseTimeout: int, task: MissionTask)
      modifies task`missionWaypoint
      ensures task.missionWaypoint == old(task.missionWaypoint) + Entries(list)
    {
      for i := 0 to |list|
        invariant task.missionWaypoint == old(task.missionWaypoint) + Entries(list[..i])
      {
        var wp := list[i];
        var waypoint := MissionWaypoint(wp.latitude, wp.longitude, wp.altitude, 0.0, 0, 0, 0, 0);
        assert list[..i + 1][..i] == list[..i];
        task.missionWaypoint := task.missionWaypoint + [waypoint];
      }
      assert list[..|list|] == list;
    }

    /** runWaypointMission: build the task from the file's rows, upload it,
        and start the mission only if the upload was accepted. */
    method RunWaypointMission(csv: seq<seq<string>>, responseTimeout: int) returns (ok: bool)
      requires WellFormed(csv)
      modifies vehicle`calls
      ensures var n := |old(vehicle.calls)|;
        var task := MissionTaskOf(WaypointList(parse, csv, startGnss, yawOf(startAtti)));
        && vehicle.calls == old(vehicle.calls) + RunCalls(task, vehicle.answer(n))
        && ok == (vehicle.answer(n).result && vehicle.answer(n + 1).result)
    {
      var task := new MissionTask();
      SetWaypointInitDefaults(task);
      var generated := CreateWayPoint(csv, task);
      UploadWaypoints(generated, responseTimeout, task);
      assert [] + Entries(generated) == Entries(generated);
      assert task.Value() == MissionTaskOf(generated);
      var upload := InitWaypointMission(task);
      if !upload.result {
        return false;
      }
      var start := MissionActionCall(Waypoint, Start);
      if !start.value.result {
        return false;
      }
      return true;
    }

    /** startMission_serviceCB: leave any mission, take the start fix (RTK
        or GPS as requested) and attitude, generate the plan, then get
        authority and run the mission from the rows of the generated file.
        Only a started mission sets doing_mission and the photo reference. */
    method StartMission(useRtkRequest: bool, generatorThrows: bool, csv: seq<seq<string>>) returns (ok: bool)
      requires WellFormed(csv)
      modifies this`doingMission, this`startGnss, this`startAtti, this`oldGps, vehicle`calls
      ensures startGnss == (if useRtkRequest then currentRtk else currentGps) && startAtti == currentAtti
      ensures doingMission == ok
      ensures oldGps == if ok then currentGps else old(oldGps)
      ensures generatorThrows ==> !ok && vehicle.calls == old(vehicle.calls)
      ensures !generatorThrows ==>
        Launched(old(vehicle.calls), vehicle.calls, vehicle.answer,
                 MissionTaskOf(WaypointList(parse, csv, startGnss, yawOf(startAtti))), ok)
    {
      doingMission := false;
      if !useRtkRequest {
        startGnss := currentGps;
      } else {
        startGnss := currentRtk;
      }
      startAtti := currentAtti;
      if generatorThrows {
        return false;
      }
      ok := Launch(csv);
    }

    /** The end of startMission_serviceCB: authority, then the mission.
        When askControlAuthority falls off its end, either branch may
        follow. */
    method Launch(csv: seq<seq<string>>) returns (ok: bool)
      requires WellFormed(csv) && !doingMission
      modifies this`doingMission, this`oldGps, vehicle`calls
      ensures doingMission == ok
      ensures oldGps == if ok then currentGps else old(oldGps)
      ensures Launched(old(vehicle.calls), vehicle.calls, vehicle.answer,
                       MissionTaskOf(WaypointList(parse, csv, startGnss, yawOf(startAtti))), ok)
    {
      var reply := AskControlAuthority();
      var granted: bool;
      if reply.Returns? {
        granted := reply.value;
      } else {
        granted :| true;
      }
      if !granted {
        return false;
      }
      ok := RunWaypointMission(csv, 100);
      if ok {
        doingMission := true;
        oldGps := currentGps;
      }
    }
  }
}
