/** The daemon as its clients see it: method string and parameters in; the effect on the drone, and the
    bytes of the reply as a client reads them, out. */
module Service {
  import opened Common
  import opened Text
  import opened Rpc
  import opened Handler
  import opened ReplyLengths
  import opened Client
  import opened Pipeline

  // ---- Being answered ----

  /** Serving `d` after the run `ds` adds one reply: to the peer that asked, whole, and read by it as
      an error or a result with the id of its request. */
  ghost predicate Answered(lib: JsonC, ds: seq<Datagram>, d: Datagram, isError: bool, body: string) {
    var rs, more := Serve(lib, ds).1, Serve(lib, ds + [d]).1;
    && Fields(lib, d).Some? && |more| == |rs| + 1 && more[..|rs|] == rs
    && more[|rs|].peer == d.peer && more[|rs|].Whole() && more[|rs|].len < 4096
    && Decode(more[|rs|].buf) == Some(Decoded(isError, IdIn(lib, Fields(lib, d).value), body))
  }

  ghost predicate Leaves(lib: JsonC, ds: seq<Datagram>, d: Datagram, drone: Drone) {
    Serve(lib, ds + [d]).0.drone == drone
  }

  /** An error, and nothing has changed. */
  ghost predicate Rejected(lib: JsonC, ds: seq<Datagram>, d: Datagram, message: string) {
    Answered(lib, ds, d, true, message) && Leaves(lib, ds, d, Serve(lib, ds).0.drone)
  }

  /** An empty result, and the drone is now `drone`. */
  ghost predicate Accepted(lib: JsonC, ds: seq<Datagram>, d: Datagram, drone: Drone) {
    Answered(lib, ds, d, false, "{}") && Leaves(lib, ds, d, drone)
  }

  /** A result that reads as an object with these entries, and nothing has changed. */
  ghost predicate Informed(lib: JsonC, ds: seq<Datagram>, d: Datagram, es: seq<Entry>) {
    && (exists body :: Answered(lib, ds, d, false, body) && ReadObject(body) == Some(es))
    && Leaves(lib, ds, d, Serve(lib, ds).0.drone)
  }

  /** What the handler `m` makes of the request. */
  function Handled(lib: JsonC, ds: seq<Datagram>, d: Datagram, m: Method): (State, Outcome)
    requires Fields(lib, d).Some?
  {
    Exec(lib, Serve(lib, ds).0, m, Params(Fields(lib, d).value), d.inp)
  }

  lemma Served(lib: JsonC, ds: seq<Datagram>, d: Datagram, m: Method)
    requires Fields(lib, d).Some? && Dispatch(MethodIn(lib, Fields(lib, d).value)) == m
    ensures var (st, o) := Handled(lib, ds, d, m);
            Serve(lib, ds + [d]) == (st, Serve(lib, ds).1 + [ReplyOf(d.peer, IdIn(lib, Fields(lib, d).value), o)])
  {
    hide Serve, Exec, Dispatch, ReplyOf, Fields, MethodIn, IdIn, Params, ParseRequest, Line;
    ServeSnoc(lib, ds, d);
    RequestReads(lib, d);
  }

  ghost predicate Conveyed(lib: JsonC, ds: seq<Datagram>, d: Datagram, o: Outcome) {
    match o
    case Result(body) => Answered(lib, ds, d, false, if body.None? || body.value == [] then "{}" else body.value)
    case Error(message) => Answered(lib, ds, d, true, message)
  }

  /** The outcome reaches the client. */
  lemma Conveys(lib: JsonC, ds: seq<Datagram>, d: Datagram, m: Method)
    requires Fields(lib, d).Some? && Dispatch(MethodIn(lib, Fields(lib, d).value)) == m
    requires !LongName(lib, Query(d.peer, Fields(lib, d).value, d.inp))
    ensures Conveyed(lib, ds, d, Handled(lib, ds, d, m).1) && Leaves(lib, ds, d, Handled(lib, ds, d, m).0.drone)
  {
    hide Serve, Exec, Dispatch, ReplyOf, Fields, MethodIn, IdIn, Params, LongName, LongUpload, Decode;
    var f := Fields(lib, d).value;
    var id, o := IdIn(lib, f), Handled(lib, ds, d, m).1;
    Served(lib, ds, d, m);
    LongNameIs(lib, Query(d.peer, f, d.inp));
    ReplyWholeUnlessLongUpload(lib, Serve(lib, ds).0, d.peer, id, m, Params(f), d.inp);
    WholeFits(d.peer, id, o);
    ReplyDecodes(d.peer, id, o);
    ReplyPeer(d.peer, id, o);
  }

  lemma ReplyPeer(peer: Peer, id: Int32, o: Outcome)
    ensures ReplyOf(peer, id, o).peer == peer
  {
  }

  /** The same for a method given by its name. */
  lemma ConveysNamed(lib: JsonC, ds: seq<Datagram>, d: Datagram, m: Method)
    requires !m.Unknown? && !m.UploadKmz? && Asks(lib, d, Name(m))
    ensures Conveyed(lib, ds, d, Handled(lib, ds, d, m).1) && Leaves(lib, ds, d, Handled(lib, ds, d, m).0.drone)
  {
    hide Dispatch, Name, Conveyed, Handled, Leaves, Fields, MethodIn;
    Named(m, Name(m));
    Named(UploadKmz, Name(m));
    assert Name(UploadKmz) == "drone.upload_kmz" by { UploadsName(); }
    Conveys(lib, ds, d, m);
  }

  lemma UploadsName()
    ensures Name(UploadKmz) == "drone.upload_kmz"
  {
  }

  // ---- Commands ----

  lemma AltitudeServed(lib: JsonC, ds: seq<Datagram>, d: Datagram)
    requires Asks(lib, d, "drone.set_rth_altitude")
    ensures var x, drone := Measure(lib, Fields(lib, d).value, "altitude_m"), Serve(lib, ds).0.drone;
            if x.None? || x.value.Val() < 0.0 then Rejected(lib, ds, d, "missing param: altitude_m")
            else if !d.inp.ok then Rejected(lib, ds, d, "PSDK set rth altitude failed")
            else Accepted(lib, ds, d, drone.(rthAlt := x.value))
  {
    hide Dispatch, Answered, Leaves, Fields, MethodIn, Params, Given, ParamDouble, ExecRead, ExecPing, Serve;
    ConveysNamed(lib, ds, d, SetRth);
    ParamGiven(lib, Fields(lib, d).value, "altitude_m", MINUS_ONE, 0);
  }

  lemma GimbalServed(lib: JsonC, ds: seq<Datagram>, d: Datagram)
    requires Asks(lib, d, "drone.set_gimbal_angle")
    ensures var x, drone := Measure(lib, Fields(lib, d).value, "pitch"), Serve(lib, ds).0.drone;
            if !d.inp.ok then Rejected(lib, ds, d, "PSDK set gimbal angle failed")
            else Accepted(lib, ds, d, drone.(pitch := if x.Some? then x.value else Finite(false, 0.0)))
  {
    hide Dispatch, Answered, Leaves, Fields, MethodIn, Params, Given, ParamDouble, ExecRead, ExecPing, Serve;
    ConveysNamed(lib, ds, d, SetGimbal);
    ParamGiven(lib, Fields(lib, d).value, "pitch", ZERO, 0);
  }

  lemma ModeServed(lib: JsonC, ds: seq<Datagram>, d: Datagram)
    requires Asks(lib, d, "drone.set_camera_mode")
    ensures var v, drone := Given(Fields(lib, d).value, "mode"), Serve(lib, ds).0.drone;
            if v.None? || lib.asInt(v.value) < 0 then Rejected(lib, ds, d, "missing param: mode (0=photo, 1=video)")
            else if !d.inp.ok then Rejected(lib, ds, d, "PSDK set camera mode failed")
            else Accepted(lib, ds, d, drone.(mode := lib.asInt(v.value)))
  {
    hide Dispatch, Answered, Leaves, Fields, MethodIn, Params, Given, ParamInt, ExecRead, ExecPing, Serve;
    ConveysNamed(lib, ds, d, SetMode);
    ParamGiven(lib, Fields(lib, d).value, "mode", ZERO, -1);
  }

  lemma ZoomServed(lib: JsonC, ds: seq<Datagram>, d: Datagram)
    requires Asks(lib, d, "drone.set_camera_zoom")
    ensures var x, drone := Measure(lib, Fields(lib, d).value, "zoom_factor"), Serve(lib, ds).0.drone;
            if x.None? || x.value.Val() < 1.0 then Rejected(lib, ds, d, "missing or invalid param: zoom_factor (>= 1.0)")
            else if !d.inp.ok then Rejected(lib, ds, d, "PSDK set camera zoom failed")
            else Accepted(lib, ds, d, drone.(zoom := x.value))
  {
    hide Dispatch, Answered, Leaves, Fields, MethodIn, Params, Given, ParamDouble, ExecRead, ExecPing, Serve;
    ConveysNamed(lib, ds, d, SetZoom);
    ParamGiven(lib, Fields(lib, d).value, "zoom_factor", MINUS_ONE, 0);
  }

  lemma RecordingServed(lib: JsonC, ds: seq<Datagram>, d: Datagram, start: bool)
    requires Asks(lib, d, if start then "drone.start_recording" else "drone.stop_recording")
    ensures var drone := Serve(lib, ds).0.drone;
            if d.inp.ok then Accepted(lib, ds, d, drone.(recording := start))
            else Rejected(lib, ds, d, if start then "PSDK start recording failed" else "PSDK stop recording failed")
  {
    hide Dispatch, Answered, Leaves, Fields, MethodIn, Params, ExecRead, ExecPing, Serve;
    ConveysNamed(lib, ds, d, if start then StartRec else StopRec);
  }

  /** A coordinate that is given and within its range. */
  predicate Within(lib: JsonC, v: Option<Json>, bound: real) {
    v.Some? && -bound <= lib.asDouble(v.value).Val() <= bound
  }

  lemma HomeServed(lib: JsonC, ds: seq<Datagram>, d: Datagram)
    requires Asks(lib, d, "drone.set_home_location")
    ensures var f := Fields(lib, d).value;
            if !Within(lib, Given(f, "lat"), 90.0) || !Within(lib, Given(f, "lon"), 180.0)
            then Rejected(lib, ds, d, "missing or invalid params: lat, lon")
            else if !d.inp.ok then Rejected(lib, ds, d, "PSDK set home location failed")
            else Accepted(lib, ds, d, Serve(lib, ds).0.drone)
  {
    hide Dispatch, Answered, Leaves, Fields, MethodIn, Params, Given, ParamDouble, ExecWrite, ExecPing, Serve;
    ConveysNamed(lib, ds, d, SetHome);
    ParamGiven(lib, Fields(lib, d).value, "lat", OFF_MAP, 0);
    ParamGiven(lib, Fields(lib, d).value, "lon", OFF_MAP, 0);
  }

  lemma ObstacleServed(lib: JsonC, ds: seq<Datagram>, d: Datagram)
    requires Asks(lib, d, "drone.set_obstacle_avoidance")
    ensures var v := Given(Fields(lib, d).value, "mode");
            if v.None? || lib.asInt(v.value) < 0 then Rejected(lib, ds, d, "missing param: mode (0=off, 1=on, 2=brake)")
            else if !d.inp.ok then Rejected(lib, ds, d, "PSDK set obstacle avoidance failed")
            else Accepted(lib, ds, d, Serve(lib, ds).0.drone)
  {
    hide Dispatch, Answered, Leaves, Fields, MethodIn, Params, Given, ParamInt, ExecWrite, ExecPing, Serve;
    ConveysNamed(lib, ds, d, SetObstacle);
    ParamGiven(lib, Fields(lib, d).value, "mode", ZERO, -1);
  }

  lemma PhotoServed(lib: JsonC, ds: seq<Datagram>, d: Datagram)
    requires Asks(lib, d, "drone.shoot_photo")
    ensures if d.inp.ok then Accepted(lib, ds, d, Serve(lib, ds).0.drone) else Rejected(lib, ds, d, "PSDK shoot photo failed")
  {
    hide Dispatch, Answered, Leaves, Fields, MethodIn, Params, ExecWrite, ExecPing, Serve;
    ConveysNamed(lib, ds, d, Shoot);
  }

  const METHODS: seq<string> := [
    "system.ping", "drone.get_telemetry", "drone.get_battery_info", "drone.get_gimbal_angle", "drone.get_camera_state",
    "drone.get_rtk_status", "drone.upload_kmz", "drone.set_rth_altitude", "drone.set_gimbal_angle", "drone.set_camera_mode",
    "drone.set_camera_zoom", "drone.set_home_location", "drone.set_obstacle_avoidance", "drone.shoot_photo",
    "drone.start_recording", "drone.stop_recording"]

  lemma NamesListed(m: Method)
    requires !m.Unknown?
    ensures Name(m) in METHODS
  {
    match m
    case Ping => assert METHODS[0] == Name(m);
    case GetTelemetry => assert METHODS[1] == Name(m);
    case GetBattery => assert METHODS[2] == Name(m);
    case GetGimbal => assert METHODS[3] == Name(m);
    case GetCamera => assert METHODS[4] == Name(m);
    case GetRtk => assert METHODS[5] == Name(m);
    case UploadKmz => assert METHODS[6] == Name(m);
    case SetRth => assert METHODS[7] == Name(m);
    case SetGimbal => assert METHODS[8] == Name(m);
    case SetMode => assert METHODS[9] == Name(m);
    case SetZoom => assert METHODS[10] == Name(m);
    case SetHome => assert METHODS[11] == Name(m);
    case SetObstacle => assert METHODS[12] == Name(m);
    case Shoot => assert METHODS[13] == Name(m);
    case StartRec => assert METHODS[14] == Name(m);
    case StopRec => assert METHODS[15] == Name(m);
  }

  /** Any other method is refused, and what is no request at all goes unanswered. */
  lemma OthersServed(lib: JsonC, ds: seq<Datagram>, d: Datagram)
    requires Fields(lib, d).Some? ==> MethodIn(lib, Fields(lib, d).value) !in METHODS
    ensures if Fields(lib, d).Some? then Rejected(lib, ds, d, "method not found") else Serve(lib, ds + [d]) == Serve(lib, ds)
  {
    hide Dispatch, Name, Answered, Leaves, MethodIn, Params, ExecWrite, ExecPing, Serve, METHODS;
    if Fields(lib, d).Some? {
      hide Fields;
      var name := MethodIn(lib, Fields(lib, d).value);
      var m := Dispatch(name);
      if !m.Unknown? { NamesListed(m); }
      NotUpload(lib, d);
      Conveys(lib, ds, d, m);
    } else {
      ServeSnoc(lib, ds, d);
      RequestReads(lib, d);
      var (st, rs) := Serve(lib, ds);
      assert Take(lib, st, d) == (st, []);
      assert rs + [] == rs;
    }
  }

  lemma NotUpload(lib: JsonC, d: Datagram)
    requires Fields(lib, d).Some? && MethodIn(lib, Fields(lib, d).value) !in METHODS
    ensures !LongName(lib, Query(d.peer, Fields(lib, d).value, d.inp))
  {
    hide MethodIn, Fields;
    assert METHODS[6] == "drone.upload_kmz";
  }

  // ---- Upload ----

  lemma UploadOutcome(lib: JsonC, f: map<string, Json>, ok: bool)
    ensures var name, o := FileName(lib, f), ExecUpload(lib, Params(f), ok);
            if name.None? || name.value == [] then o == Error("missing param: file")
            else if !Safe(name.value) then o == Error("invalid file name")
            else if !ok then o == Error("kmz upload failed")
            else 2 * |name.value| <= 4011 ==> o == Result(Some(Uploaded(name.value)))
  {
    hide CStr, Given, Params, ParamStr;
    ParamGiven(lib, f, "file", ZERO, 0);
  }

  /** The reply to an upload, with the path the file was taken from. */
  function Uploaded(name: string): string {
    "{\"uploaded\":true,\"file\":\"" + name + "\",\"path\":\"" + ("/home/orangepi/PSDK/kmz_data" + "/" + name) + "\"}"
  }

  lemma UploadServed(lib: JsonC, ds: seq<Datagram>, d: Datagram)
    requires Asks(lib, d, "drone.upload_kmz")
    ensures var f := Fields(lib, d).value;
            var name := FileName(lib, f);
            if name.None? || name.value == [] then Rejected(lib, ds, d, "missing param: file")
            else if !Safe(name.value) then Rejected(lib, ds, d, "invalid file name")
            else if !d.inp.ok then Rejected(lib, ds, d, "kmz upload failed")
            else 2 * |name.value| + |Int(IdIn(lib, f))| <= 4012 ==>
              Answered(lib, ds, d, false, Uploaded(name.value)) && Leaves(lib, ds, d, Serve(lib, ds).0.drone)
  {
    hide Dispatch, Answered, Leaves, Fields, MethodIn, Params, ExecWrite, ExecPing, Serve, ExecUpload, FileName, Safe, Int, IdIn, Uploaded;
    var f := Fields(lib, d).value;
    Named(UploadKmz, MethodIn(lib, f));
    UploadsName();
    UploadOutcome(lib, f, d.inp.ok);
    SomeDigits(IdIn(lib, f));
    UploadRead(lib, Serve(lib, ds).0.drone, Params(f), d.inp);
    if !LongName(lib, Query(d.peer, f, d.inp)) {
      Conveys(lib, ds, d, UploadKmz);
      assert Uploaded(if FileName(lib, f).Some? then FileName(lib, f).value else []) != [] by { UploadedSome(if FileName(lib, f).Some? then FileName(lib, f).value else []); }
    }
  }

  lemma UploadedSome(name: string)
    ensures Uploaded(name) != []
  {
  }

  lemma SomeDigits(n: int)
    ensures |Int(n)| >= 1
  {
  }

  // ---- Reading ----

  /** A read the drone cannot serve is an error. */
  lemma ReadFails(lib: JsonC, ds: seq<Datagram>, d: Datagram)
    requires !d.inp.ok
    ensures Asks(lib, d, "drone.get_telemetry") ==> Rejected(lib, ds, d, "failed to read telemetry")
    ensures Asks(lib, d, "drone.get_battery_info") ==> Rejected(lib, ds, d, "failed to read battery info")
    ensures Asks(lib, d, "drone.get_gimbal_angle") ==> Rejected(lib, ds, d, "failed to read gimbal angle")
    ensures Asks(lib, d, "drone.get_camera_state") ==> Rejected(lib, ds, d, "failed to read camera state")
    ensures Asks(lib, d, "drone.get_rtk_status") ==> Rejected(lib, ds, d, "failed to read RTK status")
  {
    hide Dispatch, Answered, Leaves, Fields, MethodIn, Params, ExecWrite, ExecPing, Serve;
    hide TelemetryText, BatteryText, GimbalText, CameraText;
    if Asks(lib, d, "drone.get_telemetry") { ConveysNamed(lib, ds, d, GetTelemetry); }
    if Asks(lib, d, "drone.get_battery_info") { ConveysNamed(lib, ds, d, GetBattery); }
    if Asks(lib, d, "drone.get_gimbal_angle") { ConveysNamed(lib, ds, d, GetGimbal); }
    if Asks(lib, d, "drone.get_camera_state") { ConveysNamed(lib, ds, d, GetCamera); }
    if Asks(lib, d, "drone.get_rtk_status") { ConveysNamed(lib, ds, d, GetRtk); }
  }

  /** A read handler's object reaches the client as its entries. */
  lemma ObjectServed(lib: JsonC, ds: seq<Datagram>, d: Datagram, m: Method, es: seq<Entry>)
    requires m.GetTelemetry? || m.GetBattery? || m.GetGimbal? || m.GetCamera? || m.GetRtk?
    requires Asks(lib, d, Name(m)) && d.inp.ok && (m.GetTelemetry? ==> OnEarth(d.inp.telemetry))
    requires Formatted(Serve(lib, ds).0.drone, m, d.inp) == Obj(es) && es != [] && forall e :: e in es ==> Plain(e)
    ensures Informed(lib, ds, d, es)
  {
    hide Dispatch, Name, Answered, Leaves, Fields, MethodIn, Params, ExecRead, ExecWrite, ExecPing, Serve, ReadObject, Items, Plain, Formatted;
    ConveysNamed(lib, ds, d, m);
    ResultsUncut(lib, Serve(lib, ds).0.drone, m, Params(Fields(lib, d).value), d.inp);
    ObjectReads(es);
    assert Answered(lib, ds, d, false, Obj(es));
  }

  /** drone.get_camera_state after any run: the mode, recording choice and zoom last written. */
  lemma CameraReplyTellsLastWrites(lib: JsonC, ds: seq<Datagram>, d: Datagram) returns (mode: string, rec: string, zoom: string)
    requires Asks(lib, d, "drone.get_camera_state") && d.inp.ok
    ensures Informed(lib, ds, d, [("mode", mode), ("is_recording", rec), ("zoom_factor", zoom)])
    ensures ReadInt(mode) == Some(LastWrite(lib, ds, Mode).n)
    ensures rec == if LastWrite(lib, ds, Recording).n == 1 then "true" else "false"
    ensures Shows(zoom, LastWrite(lib, ds, Zoom).x, 0.005)
  {
    hide Serve, Informed, LastWrite, Fixed, Int, Obj, ReadInt, Shows, Asks, Truth, Plain;
    var drone := Serve(lib, ds).0.drone;
    mode, rec, zoom := Int(drone.mode), Truth(drone.recording), Fixed(drone.zoom, 2);
    HoldsLastWrite(lib, ds, Mode);
    HoldsLastWrite(lib, ds, Recording);
    HoldsLastWrite(lib, ds, Zoom);
    CameraReads(drone);
    ObjectServed(lib, ds, d, GetCamera, [("mode", mode), ("is_recording", rec), ("zoom_factor", zoom)]);
  }

  lemma CameraReads(drone: Drone)
    ensures ReadInt(Int(drone.mode)) == Some(drone.mode) && Shows(Fixed(drone.zoom, 2), drone.zoom, 0.005)
    ensures Truth(drone.recording) == if drone.recording then "true" else "false"
    ensures Plain(("mode", Int(drone.mode))) && Plain(("is_recording", Truth(drone.recording)))
    ensures Plain(("zoom_factor", Fixed(drone.zoom, 2)))
  {
    hide Fixed, Int, ReadInt, Shows;
    IntReads(drone.mode);
    FixedReads(drone.zoom, 2);
    Halves();
  }

  /** drone.get_gimbal_angle after any run: the pitch last written, and no roll or yaw. */
  lemma GimbalReplyTellsLastWrite(lib: JsonC, ds: seq<Datagram>, d: Datagram) returns (pitch: string)
    requires Asks(lib, d, "drone.get_gimbal_angle") && d.inp.ok
    ensures Informed(lib, ds, d, [("pitch", pitch), ("roll", "0.00"), ("yaw", "0.00")])
    ensures Shows(pitch, LastWrite(lib, ds, Pitch).x, 0.005)
  {
    hide Serve, Informed, LastWrite, Fixed, Obj, Shows, Asks;
    var drone := Serve(lib, ds).0.drone;
    pitch := Fixed(drone.pitch, 2);
    HoldsLastWrite(lib, ds, Pitch);
    FixedReads(drone.pitch, 2);
    Halves();
    ZeroText();
    ObjectServed(lib, ds, d, GetGimbal, [("pitch", pitch), ("roll", "0.00"), ("yaw", "0.00")]);
  }

  /** drone.get_battery_info: the battery figures, each under its own key. */
  lemma BatteryReplyTellsFigures(lib: JsonC, ds: seq<Datagram>, d: Datagram)
      returns (mv: string, ma: string, pct: string, temp: string, cycles: string)
    requires Asks(lib, d, "drone.get_battery_info") && d.inp.ok
    ensures Informed(lib, ds, d, [("voltage_mv", mv), ("current_ma", ma), ("remaining_pct", pct),
                                  ("temperature_dc", temp), ("cycle_count", cycles)])
    ensures var b := d.inp.battery;
            && ReadInt(mv) == Some(b.mv) && ReadInt(ma) == Some(b.ma) && ReadInt(pct) == Some(b.pct)
            && ReadInt(temp) == Some(b.temp) && ReadInt(cycles) == Some(b.cycles)
  {
    hide Serve, Informed, Dec, Int, Obj, ReadInt, Asks;
    var b := d.inp.battery;
    mv, ma, pct, temp, cycles := Dec(b.mv), Int(b.ma), Dec(b.pct), Int(b.temp), Dec(b.cycles);
    DecReads(b.mv);
    IntReads(b.ma);
    DecReads(b.pct);
    IntReads(b.temp);
    DecReads(b.cycles);
    ObjectServed(lib, ds, d, GetBattery, [("voltage_mv", mv), ("current_ma", ma), ("remaining_pct", pct),
                                          ("temperature_dc", temp), ("cycle_count", cycles)]);
  }

  /** drone.get_rtk_status of the development drone: there is none. */
  lemma RtkReply(lib: JsonC, ds: seq<Datagram>, d: Datagram)
    requires Asks(lib, d, "drone.get_rtk_status") && d.inp.ok
    ensures Informed(lib, ds, d, [("enabled", "false"), ("fix_type", "0"), ("satellites", "0"),
                                  ("lat", "0.00000000"), ("lon", "0.00000000"), ("alt_m", "0.00")])
  {
    hide Serve, Informed, Obj, Asks;
    ObjectServed(lib, ds, d, GetRtk, [("enabled", "false"), ("fix_type", "0"), ("satellites", "0"),
                                      ("lat", "0.00000000"), ("lon", "0.00000000"), ("alt_m", "0.00")]);
  }

  // ---- Telemetry ----

  predicate PositionTold(t: Telemetry, es: seq<Entry>) {
    && |es| == 4 && es[0].0 == "lat" && es[1].0 == "lon" && es[2].0 == "alt_msl_m" && es[3].0 == "alt_rel_m"
    && Shows(es[0].1, t.lat, 0.000000005) && Shows(es[1].1, t.lon, 0.000000005)
    && Shows(es[2].1, t.altMsl, 0.005) && Shows(es[3].1, t.altRel, 0.005)
  }

  predicate MotionTold(t: Telemetry, es: seq<Entry>) {
    && |es| == 4 && es[0].0 == "vx_ms" && es[1].0 == "vy_ms" && es[2].0 == "vz_ms" && es[3].0 == "heading_deg"
    && Shows(es[0].1, t.vx, 0.005) && Shows(es[1].1, t.vy, 0.005) && Shows(es[2].1, t.vz, 0.005)
    && Shows(es[3].1, t.heading, 0.05)
  }

  predicate StatusTold(t: Telemetry, es: seq<Entry>) {
    && |es| == 6 && es[0].0 == "battery_pct" && es[1].0 == "battery_mv" && es[2].0 == "gps_sats" && es[3].0 == "gps_fix"
    && es[4].0 == "flight_status" && es[5].0 == "motors_on"
    && ReadInt(es[0].1) == Some(t.pct) && ReadInt(es[1].1) == Some(t.mv) && ReadInt(es[2].1) == Some(t.sats)
    && ReadInt(es[3].1) == Some(t.fix) && ReadInt(es[4].1) == Some(t.status)
    && es[5].1 == if t.motors then "true" else "false"
  }

  lemma PositionReads(t: Telemetry)
    ensures PositionTold(t, PositionFields(t)) && forall e :: e in PositionFields(t) ==> Plain(e)
  {
    hide Fixed, Shows;
    Halves();
    FixedReads(t.lat, 8);
    FixedReads(t.lon, 8);
    FixedReads(t.altMsl, 2);
    FixedReads(t.altRel, 2);
  }

  lemma MotionReads(t: Telemetry)
    ensures MotionTold(t, MotionFields(t)) && forall e :: e in MotionFields(t) ==> Plain(e)
  {
    hide Fixed, Shows;
    Halves();
    FixedReads(t.vx, 2);
    FixedReads(t.vy, 2);
    FixedReads(t.vz, 2);
    FixedReads(t.heading, 1);
  }

  lemma StatusReads(t: Telemetry)
    ensures StatusTold(t, StatusFields(t)) && forall e :: e in StatusFields(t) ==> Plain(e)
  {
    hide Dec, ReadInt;
    DecReads(t.pct);
    DecReads(t.mv);
    DecReads(t.sats);
    DecReads(t.fix);
    DecReads(t.status);
  }

  /** drone.get_telemetry: every figure under its own key, to the precision printed. */
  lemma TelemetryReplyTellsFigures(lib: JsonC, ds: seq<Datagram>, d: Datagram)
      returns (position: seq<Entry>, motion: seq<Entry>, status: seq<Entry>)
    requires Asks(lib, d, "drone.get_telemetry") && d.inp.ok && OnEarth(d.inp.telemetry)
    ensures Informed(lib, ds, d, position + motion + status)
    ensures PositionTold(d.inp.telemetry, position) && MotionTold(d.inp.telemetry, motion) && StatusTold(d.inp.telemetry, status)
  {
    hide Serve, Informed, Obj, Asks, PositionFields, MotionFields, StatusFields, PositionTold, MotionTold, StatusTold, Plain;
    var t := d.inp.telemetry;
    position, motion, status := PositionFields(t), MotionFields(t), StatusFields(t);
    PositionReads(t);
    MotionReads(t);
    StatusReads(t);
    SomeFields(t);
    ObjectServed(lib, ds, d, GetTelemetry, position + motion + status);
  }

  // ---- Ping ----

  /** system.ping after any run: the uptime of that moment, modulo 2^64. */
  lemma PingReplyReports(lib: JsonC, ds: seq<Datagram>, d: Datagram) returns (ms: string)
    requires Asks(lib, d, "system.ping")
    ensures Informed(lib, ds, d, [("pong", "true"), ("uptime_ms", ms)])
    ensures ReadInt(ms) == Some(Reported(lib, ds + [d], |ds|) % 0x1_0000_0000_0000_0000)
  {
    hide Serve, Dec, Obj, ReadInt, UptimeMs, Dispatch, Fields, MethodIn, Answered, Leaves, ReadObject, ExecRead, ExecWrite, Params;
    var n := Reported(lib, ds + [d], |ds|) % 0x1_0000_0000_0000_0000;
    ms := Dec(n);
    assert (ds + [d])[..|ds|] == ds;
    DecReads(n);
    PingLength(n);
    ConveysNamed(lib, ds, d, Ping);
    var es := [("pong", "true"), ("uptime_ms", ms)];
    ObjectReads(es);
    assert Obj(es) != [] by { ObjLength(es); }
    assert Answered(lib, ds, d, false, Obj(es));
  }
}
