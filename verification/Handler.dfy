/** handler.c over the development drone of drone_ctrl.c: one request in, one outcome out. */
module Handler {
  import opened Common
  import opened Text
  import opened Rpc

  const MAX_MSG_LEN: nat := 4096
  const PATH_MAX: nat := 4096
  const KMZ_BASE_DIR: string := "/home/orangepi/PSDK/kmz_data"

  // ---- Uptime ----

  datatype Timespec = Timespec(sec: nat, nsec: nat) {
    /** As clock_gettime fills it: time_t has 64 bits. */
    predicate Normal() { sec < 0x8000_0000_0000_0000 && nsec < 1_000_000_000 }
    function Ns(): nat { sec * 1_000_000_000 + nsec }
  }

  /** The cast to uint64_t: a negative number becomes a huge one. */
  function U64(x: int): nat { x % 0x1_0000_0000_0000_0000 }

  /** uptime_ms once the start time is known, before the sum wraps. */
  function UptimeMs(start: Timespec, now: Timespec): int {
    var sec, nsec := now.sec - start.sec, now.nsec - start.nsec;
    var (s, n) := if nsec < 0 then (sec - 1, nsec + 1_000_000_000) else (sec, nsec);
    U64(s) * 1000 + U64(n) / 1_000_000
  }

  /** It is the elapsed time in whole milliseconds. */
  lemma UptimeExact(start: Timespec, now: Timespec)
    requires start.Normal() && now.Normal() && start.Ns() <= now.Ns()
    ensures UptimeMs(start, now) == (now.Ns() - start.Ns()) / 1_000_000 >= 0
  {
    hide U64;
    var sec, nsec := now.sec - start.sec, now.nsec - start.nsec;
    var (s, n) := if nsec < 0 then (sec - 1, nsec + 1_000_000_000) else (sec, nsec);
    CastKeeps(s);
    CastKeeps(n);
  }

  lemma CastKeeps(x: int)
    ensures 0 <= x < 0x1_0000_0000_0000_0000 ==> U64(x) == x
  {
  }

  lemma UptimeMonotone(start: Timespec, a: Timespec, b: Timespec)
    requires start.Normal() && a.Normal() && b.Normal() && start.Ns() <= a.Ns() <= b.Ns()
    ensures 0 <= UptimeMs(start, a) <= UptimeMs(start, b)
  {
    UptimeExact(start, a);
    UptimeExact(start, b);
  }

  // ---- The drone and its surroundings ----

  /** The g_stub_* variables. */
  datatype Drone = Drone(rthAlt: Single, pitch: Single, zoom: Single, mode: Int32, recording: bool)

  const FRESH_DRONE: Drone := Drone(Finite(false, 30.0), Finite(true, 30.0), Finite(false, 1.0), 0, false)

  datatype Telemetry = Telemetry(
    lat: Float, lon: Float, altMsl: Single, altRel: Single, vx: Single, vy: Single, vz: Single, heading: Single,
    pct: U8, mv: U32, sats: U8, fix: U8, status: U8, motors: bool)

  datatype Battery = Battery(mv: U32, ma: Int32, pct: U8, temp: I16, cycles: U32)

  /** What the outside contributes to one request: the two clock readings of uptime_ms, whether the
      drone call succeeds (always, in the stub build), and the values the sensors would show. */
  datatype Inputs = Inputs(t0: Timespec, t1: Timespec, ok: bool, telemetry: Telemetry, battery: Battery)

  datatype State = State(drone: Drone, start: Option<Timespec>)

  const INITIAL: State := State(FRESH_DRONE, None)

  // ---- Dispatch ----

  datatype Method =
    | Ping | GetTelemetry | GetBattery | GetGimbal | GetCamera | GetRtk | UploadKmz
    | SetRth | SetGimbal | SetMode | SetZoom | SetHome | SetObstacle | Shoot | StartRec | StopRec
    | Unknown

  /** The name a method goes by. */
  function Name(m: Method): string
    requires !m.Unknown?
  {
    match m
    case Ping => "system.ping"
    case GetTelemetry => "drone.get_telemetry"
    case GetBattery => "drone.get_battery_info"
    case GetGimbal => "drone.get_gimbal_angle"
    case GetCamera => "drone.get_camera_state"
    case GetRtk => "drone.get_rtk_status"
    case UploadKmz => "drone.upload_kmz"
    case SetRth => "drone.set_rth_altitude"
    case SetGimbal => "drone.set_gimbal_angle"
    case SetMode => "drone.set_camera_mode"
    case SetZoom => "drone.set_camera_zoom"
    case SetHome => "drone.set_home_location"
    case SetObstacle => "drone.set_obstacle_avoidance"
    case Shoot => "drone.shoot_photo"
    case StartRec => "drone.start_recording"
    case StopRec => "drone.stop_recording"
  }

  function DispatchAction(name: string): (m: Method)
    ensures !m.Unknown? ==> name == Name(m)
  {
    if name == "drone.shoot_photo" then Shoot
    else if name == "drone.start_recording" then StartRec
    else if name == "drone.stop_recording" then StopRec
    else Unknown
  }

  function DispatchSet(name: string): (m: Method)
    ensures !m.Unknown? ==> name == Name(m)
  {
    if name == "drone.set_rth_altitude" then SetRth
    else if name == "drone.set_gimbal_angle" then SetGimbal
    else if name == "drone.set_camera_mode" then SetMode
    else if name == "drone.set_camera_zoom" then SetZoom
    else if name == "drone.set_home_location" then SetHome
    else if name == "drone.set_obstacle_avoidance" then SetObstacle
    else DispatchAction(name)
  }

  /** The chain of comparisons in handle_rpc. */
  function Dispatch(name: string): (m: Method)
    ensures !m.Unknown? ==> name == Name(m)
  {
    if name == "system.ping" then Ping
    else if name == "drone.get_telemetry" then GetTelemetry
    else if name == "drone.get_battery_info" then GetBattery
    else if name == "drone.get_gimbal_angle" then GetGimbal
    else if name == "drone.get_camera_state" then GetCamera
    else if name == "drone.get_rtk_status" then GetRtk
    else if name == "drone.upload_kmz" then UploadKmz
    else DispatchSet(name)
  }

  /** Cutting the method name to the 63 bytes of its field never changes the handler chosen. */
  lemma TruncationInvisible(name: string)
    ensures Dispatch(Snprintf(METHOD_LEN, name).buf) == Dispatch(name)
  {
    hide Dispatch;
    if |name| >= METHOD_LEN {
      LongNameUnknown(name);
      LongNameUnknown(name[..METHOD_LEN - 1]);
    }
  }

  /** Hence a parsed request is dispatched as its full method string would be. */
  lemma RequestDispatch(lib: JsonC, root: Json)
    requires root.Object? && "method" in root.fields
    ensures Dispatch(RequestOf(lib, root).name) == Dispatch(CStr(lib.asString(root.fields["method"])))
  {
    hide Dispatch, CStr;
    TruncationInvisible(CStr(lib.asString(root.fields["method"])));
  }

  lemma NameDispatches(m: Method)
    requires !m.Unknown?
    ensures Dispatch(Name(m)) == m
  {
    var s := Name(m);
    assert m.GetRtk? ==> s[6] == 'g';
    assert m.StopRec? ==> s[6] == 's';
    assert m.SetMode? ==> s[17] == 'm';
    assert m.SetZoom? ==> s[17] == 'z';
    assert m.StartRec? ==> s[17] == 'd';
    assert m.GetBattery? ==> s[6] == 'g' && s[10] == 'b';
    assert m.GetGimbal? ==> s[6] == 'g' && s[10] == 'g';
    assert m.GetCamera? ==> s[6] == 'g' && s[10] == 'c';
    assert m.SetRth? ==> s[6] == 's' && s[10] == 'r';
    assert m.SetGimbal? ==> s[6] == 's' && s[10] == 'g';
  }

  /** Each handler is reached by its own name and by no other. */
  lemma Named(m: Method, name: string)
    requires !m.Unknown?
    ensures Dispatch(name) == m <==> name == Name(m)
  {
    hide Dispatch, Name;
    NameDispatches(m);
  }

  lemma LongNameUnknown(name: string)
    requires |name| >= METHOD_LEN - 1
    ensures Dispatch(name) == Unknown
  {
  }

  // ---- Results ----

  function Truth(b: bool): string { if b then "true" else "false" }

  function PingText(ms: nat): string {
    Obj([("pong", "true"), ("uptime_ms", Dec(ms))])
  }

  function PositionFields(t: Telemetry): seq<Entry> {
    [("lat", Fixed(t.lat, 8)), ("lon", Fixed(t.lon, 8)), ("alt_msl_m", Fixed(t.altMsl, 2)), ("alt_rel_m", Fixed(t.altRel, 2))]
  }

  function MotionFields(t: Telemetry): seq<Entry> {
    [("vx_ms", Fixed(t.vx, 2)), ("vy_ms", Fixed(t.vy, 2)), ("vz_ms", Fixed(t.vz, 2)), ("heading_deg", Fixed(t.heading, 1))]
  }

  function StatusFields(t: Telemetry): seq<Entry> {
    [("battery_pct", Dec(t.pct)), ("battery_mv", Dec(t.mv)), ("gps_sats", Dec(t.sats)), ("gps_fix", Dec(t.fix)),
     ("flight_status", Dec(t.status)), ("motors_on", Truth(t.motors))]
  }

  function TelemetryText(t: Telemetry): string {
    Obj(PositionFields(t) + MotionFields(t) + StatusFields(t))
  }

  function BatteryText(b: Battery): string {
    Obj([("voltage_mv", Dec(b.mv)), ("current_ma", Int(b.ma)), ("remaining_pct", Dec(b.pct)),
         ("temperature_dc", Int(b.temp)), ("cycle_count", Dec(b.cycles))])
  }

  function GimbalText(pitch: Single, roll: Single, yaw: Single): string {
    Obj([("pitch", Fixed(pitch, 2)), ("roll", Fixed(roll, 2)), ("yaw", Fixed(yaw, 2))])
  }

  function CameraText(mode: Int32, recording: bool, zoom: Single): string {
    Obj([("mode", Int(mode)), ("is_recording", Truth(recording)), ("zoom_factor", Fixed(zoom, 2))])
  }

  /** The development drone has no RTK. */
  const RTK_TEXT: string :=
    Obj([("enabled", "false"), ("fix_type", "0"), ("satellites", "0"),
         ("lat", "0.00000000"), ("lon", "0.00000000"), ("alt_m", "0.00")])

  function UploadText(name: string): string {
    var path := Snprintf(PATH_MAX, KMZ_BASE_DIR + "/" + name).buf;
    "{\"uploaded\":true,\"file\":\"" + name + "\",\"path\":\"" + path + "\"}"
  }

  // ---- Handlers ----

  datatype Outcome = Result(body: Option<string>) | Error(message: string)

  const ZERO: Float := Finite(false, 0.0)
  const MINUS_ONE: Float := Finite(true, 1.0)
  const OFF_MAP: Float := Finite(false, 999.0)

  /** A command the drone carried out, or its failure message. */
  function Done(ok: bool, failure: string): Outcome {
    if ok then Result(None) else Error(failure)
  }

  function Show(ok: bool, size: nat, text: string, failure: string): Outcome
    requires size >= 1
  {
    if ok then Result(Some(Snprintf(size, text).buf)) else Error(failure)
  }

  /** strstr(name, "..") || strchr(name, '/') */
  predicate BadName(name: string) {
    '/' in name || exists i :: 0 <= i < |name| - 1 && name[i] == '.' && name[i + 1] == '.'
  }

  function ExecUpload(lib: JsonC, params: Option<Json>, ok: bool): Outcome {
    var name := ParamStr(lib, params, "file");
    if name.None? || name.value == [] then Error("missing param: file")
    else if BadName(name.value) then Error("invalid file name")
    else Show(ok, PATH_MAX + 64, UploadText(name.value), "kmz upload failed")
  }

  function ExecSetHome(lib: JsonC, params: Option<Json>, ok: bool): Outcome {
    var lat := ParamDouble(lib, params, "lat", OFF_MAP).Val();
    var lon := ParamDouble(lib, params, "lon", OFF_MAP).Val();
    if lat > 90.0 || lat < -90.0 || lon > 180.0 || lon < -180.0 then Error("missing or invalid params: lat, lon")
    else Done(ok, "PSDK set home location failed")
  }

  /** The handlers that write the drone: its new state and the outcome. */
  function ExecWrite(lib: JsonC, d: Drone, m: Method, params: Option<Json>, ok: bool): (Drone, Outcome)
    requires m.SetRth? || m.SetGimbal? || m.SetMode? || m.SetZoom? || m.StartRec? || m.StopRec?
  {
    match m
    case SetRth =>
      var alt := lib.single(ParamDouble(lib, params, "altitude_m", MINUS_ONE));
      if alt.Val() < 0.0 then (d, Error("missing param: altitude_m"))
      else (if ok then d.(rthAlt := alt) else d, Done(ok, "PSDK set rth altitude failed"))
    case SetGimbal =>
      var pitch := lib.single(ParamDouble(lib, params, "pitch", ZERO));
      (if ok then d.(pitch := pitch) else d, Done(ok, "PSDK set gimbal angle failed"))
    case SetMode =>
      var mode := ParamInt(lib, params, "mode", -1);
      if mode < 0 then (d, Error("missing param: mode (0=photo, 1=video)"))
      else (if ok then d.(mode := mode) else d, Done(ok, "PSDK set camera mode failed"))
    case SetZoom =>
      var zoom := lib.single(ParamDouble(lib, params, "zoom_factor", MINUS_ONE));
      if zoom.Val() < 1.0 then (d, Error("missing or invalid param: zoom_factor (>= 1.0)"))
      else (if ok then d.(zoom := zoom) else d, Done(ok, "PSDK set camera zoom failed"))
    case StartRec => (if ok then d.(recording := true) else d, Done(ok, "PSDK start recording failed"))
    case StopRec => (if ok then d.(recording := false) else d, Done(ok, "PSDK stop recording failed"))
  }

  predicate Writes(m: Method) {
    m.SetRth? || m.SetGimbal? || m.SetMode? || m.SetZoom? || m.StartRec? || m.StopRec?
  }

  /** The handlers that only look. */
  function ExecRead(lib: JsonC, d: Drone, m: Method, params: Option<Json>, inp: Inputs): Outcome
    requires !Writes(m) && !m.Ping?
  {
    match m
    case GetTelemetry => Show(inp.ok, 512, TelemetryText(inp.telemetry), "failed to read telemetry")
    case GetBattery => Show(inp.ok, 256, BatteryText(inp.battery), "failed to read battery info")
    case GetGimbal => Show(inp.ok, 128, GimbalText(d.pitch, ZERO, ZERO), "failed to read gimbal angle")
    case GetCamera => Show(inp.ok, 128, CameraText(d.mode, d.recording, d.zoom), "failed to read camera state")
    case GetRtk => Show(inp.ok, 256, RTK_TEXT, "failed to read RTK status")
    case UploadKmz => ExecUpload(lib, params, inp.ok)
    case SetHome => ExecSetHome(lib, params, inp.ok)
    case SetObstacle =>
      if ParamInt(lib, params, "mode", -1) < 0 then Error("missing param: mode (0=off, 1=on, 2=brake)")
      else Done(inp.ok, "PSDK set obstacle avoidance failed")
    case Shoot => Done(inp.ok, "PSDK shoot photo failed")
    case _ => Error("method not found")
  }

  /** The start time a ping works with: the first reading ever taken, never replaced. */
  function StartOf(start: Option<Timespec>, inp: Inputs): Timespec {
    if start.Some? then start.value else inp.t0
  }

  function ExecPing(st: State, inp: Inputs): Outcome {
    var ms := UptimeMs(StartOf(st.start, inp), inp.t1) % 0x1_0000_0000_0000_0000;
    Result(Some(Snprintf(128, PingText(ms)).buf))
  }

  function Exec(lib: JsonC, st: State, m: Method, params: Option<Json>, inp: Inputs): (State, Outcome) {
    if m.Ping? then (st.(start := Some(StartOf(st.start, inp))), ExecPing(st, inp))
    else if Writes(m) then
      var (d, o) := ExecWrite(lib, st.drone, m, params, inp.ok);
      (st.(drone := d), o)
    else (st, ExecRead(lib, st.drone, m, params, inp))
  }

  // ---- Replies ----

  type Peer = (nat, nat)

  /** A call of udp_server_send: `buf` is what the builder left in the message buffer, `len` the
      length passed on, which is the builder's return value. */
  datatype Reply = Reply(peer: Peer, buf: string, len: nat) {
    /** The length sent is the number of bytes written. */
    predicate Whole() { len == |buf| }
  }

  function OutcomeText(id: Int32, o: Outcome): string {
    match o
    case Result(body) => ResultText(id, body)
    case Error(message) => ErrorText(id, message)
  }

  function ReplyOf(peer: Peer, id: Int32, o: Outcome): Reply {
    var p := Snprintf(MAX_MSG_LEN, OutcomeText(id, o));
    Reply(peer, p.buf, p.ret)
  }

  /** handle_rpc, as a function of the request line. */
  function Handle(lib: JsonC, st: State, peer: Peer, line: string, inp: Inputs): (State, seq<Reply>) {
    match ParseRequest(lib, line)
    case None => (st, [])
    case Some(req) =>
      var (st', o) := Exec(lib, st, Dispatch(req.name), req.params, inp);
      (st', [ReplyOf(peer, req.id, o)])
  }

  /** A reply that went out whole tells the client the id of its request and the outcome. */
  lemma ReplyDecodes(peer: Peer, id: Int32, o: Outcome)
    requires ReplyOf(peer, id, o).Whole()
    ensures Decode(ReplyOf(peer, id, o).buf) ==
      Some(match o case Result(body) => Decoded(false, id, Body(body)) case Error(m) => Decoded(true, id, m))
  {
    hide Decode, ResultText, ErrorText;
    match o
    case Result(body) => DecodeResult(id, body);
    case Error(m) => DecodeError(id, m);
  }
}
