/** Every reply of fixed shape fits the buffers it passes through, so nothing is cut and the length
    sent is the number of bytes written. */
module ReplyLengths {
  import opened Common
  import opened Text
  import opened Rpc
  import opened Handler

  lemma Powers()
    ensures Pow10(3) == 1000 && Pow10(5) == 100_000 && Pow10(10) == 10_000_000_000
  {
  }

  lemma {:induction false} Pow10Sum(a: nat, b: nat)
    ensures Pow10(a + b) == Pow10(a) * Pow10(b)
    decreases a
  {
    if a > 0 {
      Pow10Sum(a - 1, b);
    }
  }

  /** A single-precision magnitude has at most 39 digits before the point. */
  lemma SingleBound()
    ensures FLT_MAX <= (Pow10(39) - 1) as real
    ensures 0x1_0000_0000_0000_0000 <= Pow10(20)
  {
    Powers();
    assert Pow10(9) == 1_000_000_000;
    hide Pow10;
    Pow10Sum(10, 10);
    Pow10Sum(20, 10);
    Pow10Sum(30, 9);
  }

  lemma SingleLength(x: Single, d: nat)
    ensures |Fixed(x, d)| <= 41 + d
  {
    hide Fixed, Pow10;
    SingleBound();
    FixedLength(x, d, 39);
  }

  lemma AngleLength(x: Float)
    requires x.mag <= 180.0
    ensures |Fixed(x, 8)| <= 13
  {
    hide Fixed;
    Powers();
    FixedLength(x, 8, 3);
  }

  lemma ByteLength(n: U8)
    ensures |Dec(n)| <= 3
  {
    Powers();
    hide Dec;
    DecLength(n, 3);
  }

  lemma WordLength(n: U32, i: Int32, t: I16)
    ensures |Dec(n)| <= 10 && |Int(i)| <= 11 && |Int(t)| <= 6
  {
    Powers();
    hide Dec, Int;
    DecLength(n, 10);
    IntLength(i, 10);
    IntLength(t, 5);
  }

  // ---- Telemetry ----

  predicate OnEarth(t: Telemetry) { t.lat.mag <= 180.0 && t.lon.mag <= 180.0 }

  lemma PositionLength(t: Telemetry)
    requires OnEarth(t)
    ensures Weight(PositionFields(t)) <= 152
  {
    hide Fixed;
    AngleLength(t.lat);
    AngleLength(t.lon);
    SingleLength(t.altMsl, 2);
    SingleLength(t.altRel, 2);
    Weigh(PositionFields(t));
  }

  lemma MotionLength(t: Telemetry)
    ensures Weight(MotionFields(t)) <= 213
  {
    hide Fixed;
    SingleLength(t.vx, 2);
    SingleLength(t.vy, 2);
    SingleLength(t.vz, 2);
    SingleLength(t.heading, 1);
    Weigh(MotionFields(t));
  }

  lemma StatusLength(t: Telemetry)
    ensures Weight(StatusFields(t)) <= 109
  {
    hide Dec;
    ByteLength(t.pct);
    WordLength(t.mv, 0, 0);
    ByteLength(t.sats);
    ByteLength(t.fix);
    ByteLength(t.status);
    Weigh(StatusFields(t));
  }

  function WeightOf(e: Entry): nat { |e.0| + |e.1| + 4 }

  function WeightFrom(es: seq<Entry>, i: nat): nat { if i < |es| then WeightOf(es[i]) else 0 }

  /** The weight of a short object, entry by entry. */
  lemma Weigh(es: seq<Entry>)
    requires |es| <= 6
    ensures Weight(es) == WeightFrom(es, 0) + WeightFrom(es, 1) + WeightFrom(es, 2) + WeightFrom(es, 3) + WeightFrom(es, 4) + WeightFrom(es, 5)
    decreases |es|
  {
    if es != [] {
      Weigh(es[1..]);
    }
  }

  lemma SomeFields(t: Telemetry)
    ensures PositionFields(t) + MotionFields(t) + StatusFields(t) != []
  {
    hide Fixed, Dec;
    assert |PositionFields(t)| == 4;
  }

  /** The longest telemetry object is 475 characters; its buffer holds 511. */
  lemma TelemetryLength(t: Telemetry)
    requires OnEarth(t)
    ensures |TelemetryText(t)| <= 475 < 512
  {
    hide PositionFields, MotionFields, StatusFields, Obj, Weight;
    PositionLength(t);
    MotionLength(t);
    StatusLength(t);
    WeightConcat(PositionFields(t) + MotionFields(t), StatusFields(t));
    WeightConcat(PositionFields(t), MotionFields(t));
    assert PositionFields(t) + MotionFields(t) + StatusFields(t) != [] by { SomeFields(t); }
    ObjLength(PositionFields(t) + MotionFields(t) + StatusFields(t));
  }

  // ---- The other results ----

  lemma BatteryLength(b: Battery)
    ensures |BatteryText(b)| < 256
  {
    hide Dec, Int, Weight, Obj;
    WordLength(b.mv, b.ma, b.temp);
    WordLength(b.cycles, 0, 0);
    ByteLength(b.pct);
    var es := [("voltage_mv", Dec(b.mv)), ("current_ma", Int(b.ma)), ("remaining_pct", Dec(b.pct)),
               ("temperature_dc", Int(b.temp)), ("cycle_count", Dec(b.cycles))];
    Weigh(es);
    ObjLength(es);
  }

  lemma ZeroText()
    ensures Fixed(ZERO, 2) == "0.00"
  {
    assert Pow10(2) == 100;
    assert Scaled(0.0, 100) == 0;
    assert Pad(0, 2) == "00";
  }

  lemma GimbalLength(pitch: Single)
    ensures |GimbalText(pitch, ZERO, ZERO)| < 128
  {
    ZeroText();
    hide Fixed, Weight, Obj;
    SingleLength(pitch, 2);
    var es := [("pitch", Fixed(pitch, 2)), ("roll", Fixed(ZERO, 2)), ("yaw", Fixed(ZERO, 2))];
    Weigh(es);
    ObjLength(es);
  }

  lemma CameraLength(mode: Int32, recording: bool, zoom: Single)
    ensures |CameraText(mode, recording, zoom)| < 128
  {
    hide Fixed, Int, Weight, Obj;
    WordLength(0, mode, 0);
    SingleLength(zoom, 2);
    var es := [("mode", Int(mode)), ("is_recording", Truth(recording)), ("zoom_factor", Fixed(zoom, 2))];
    Weigh(es);
    ObjLength(es);
  }

  lemma PingLength(ms: nat)
    requires ms < 0x1_0000_0000_0000_0000
    ensures |PingText(ms)| < 128
  {
    SingleBound();
    hide Dec, Pow10, Weight, Obj;
    DecLength(ms, 20);
    var es := [("pong", "true"), ("uptime_ms", Dec(ms))];
    Weigh(es);
    ObjLength(es);
  }

  lemma RtkLength()
    ensures |RTK_TEXT| < 256
  {
    hide Weight, Obj;
    var es := [("enabled", "false"), ("fix_type", "0"), ("satellites", "0"),
               ("lat", "0.00000000"), ("lon", "0.00000000"), ("alt_m", "0.00")];
    Weigh(es);
    ObjLength(es);
  }

  /** The result text a read handler formats, before any buffer. */
  function Formatted(d: Drone, m: Method, inp: Inputs): string
    requires m.GetTelemetry? || m.GetBattery? || m.GetGimbal? || m.GetCamera? || m.GetRtk?
  {
    match m
    case GetTelemetry => TelemetryText(inp.telemetry)
    case GetBattery => BatteryText(inp.battery)
    case GetGimbal => GimbalText(d.pitch, ZERO, ZERO)
    case GetCamera => CameraText(d.mode, d.recording, d.zoom)
    case GetRtk => RTK_TEXT
  }

  /** No result is cut by its local buffer. */
  lemma ResultsUncut(lib: JsonC, d: Drone, m: Method, params: Option<Json>, inp: Inputs)
    requires m.GetTelemetry? || m.GetBattery? || m.GetGimbal? || m.GetCamera? || m.GetRtk?
    requires inp.ok && (m.GetTelemetry? ==> OnEarth(inp.telemetry))
    ensures ExecRead(lib, d, m, params, inp) == Result(Some(Formatted(d, m, inp)))
    ensures |Formatted(d, m, inp)| <= 475
  {
    hide TelemetryText, BatteryText, GimbalText, CameraText;
    match m
    case GetTelemetry => TelemetryLength(inp.telemetry);
    case GetBattery => BatteryLength(inp.battery);
    case GetGimbal => GimbalLength(d.pitch);
    case GetCamera => CameraLength(d.mode, d.recording, d.zoom);
    case GetRtk => RtkLength();
  }

  /** Size of what an outcome puts into the reply. */
  function PayloadLength(o: Outcome): nat {
    match o case Result(body) => |Body(body)| case Error(message) => |message|
  }

  lemma SmallPayloadWhole(peer: Peer, id: Int32, o: Outcome)
    requires PayloadLength(o) <= 4000
    ensures ReplyOf(peer, id, o).Whole() && ReplyOf(peer, id, o).len < MAX_MSG_LEN
  {
    hide Int;
    WordLength(0, id, 0);
  }

  lemma WritePayload(lib: JsonC, d: Drone, m: Method, params: Option<Json>, ok: bool)
    requires Writes(m)
    ensures PayloadLength(ExecWrite(lib, d, m, params, ok).1) <= 100
  {
  }

  lemma CommandPayload(lib: JsonC, d: Drone, m: Method, params: Option<Json>, inp: Inputs)
    requires m.SetHome? || m.SetObstacle? || m.Shoot? || m.Unknown?
    ensures PayloadLength(ExecRead(lib, d, m, params, inp)) <= 100
  {
  }

  /** The buffer alone bounds what a read handler shows. */
  lemma ReadPayload(lib: JsonC, d: Drone, m: Method, params: Option<Json>, inp: Inputs)
    requires m.GetTelemetry? || m.GetBattery? || m.GetGimbal? || m.GetCamera? || m.GetRtk?
    ensures PayloadLength(ExecRead(lib, d, m, params, inp)) <= 511
  {
    hide TelemetryText, BatteryText, GimbalText, CameraText;
  }

  /** The file name of an upload request that reaches the drone. */
  function UploadName(lib: JsonC, params: Option<Json>): Option<string> {
    var name := ParamStr(lib, params, "file");
    if name.None? || name.value == [] || BadName(name.value) then None else name
  }

  /** A successful upload of a file whose name, echoed twice, is too long for one reply. */
  predicate LongUpload(lib: JsonC, id: Int32, m: Method, params: Option<Json>, ok: bool) {
    m.UploadKmz? && ok && UploadName(lib, params).Some? && 2 * |UploadName(lib, params).value| + |Int(id)| > 4012
  }

  lemma UploadReplyWhole(peer: Peer, id: Int32, name: string)
    ensures var o := Show(true, PATH_MAX + 64, UploadText(name), "kmz upload failed");
            ReplyOf(peer, id, o).Whole() <==> 2 * |name| + |Int(id)| <= 4012
  {
    hide Int;
    WordLength(0, id, 0);
  }

  lemma UploadWhole(lib: JsonC, peer: Peer, id: Int32, params: Option<Json>, ok: bool)
    ensures ReplyOf(peer, id, ExecUpload(lib, params, ok)).Whole() <==> !LongUpload(lib, id, UploadKmz, params, ok)
  {
    hide ReplyOf, UploadText, BadName, Int, ParamStr;
    var name := UploadName(lib, params);
    if name.Some? && ok {
      UploadReplyWhole(peer, id, name.value);
    } else {
      SmallPayloadWhole(peer, id, ExecUpload(lib, params, ok));
    }
  }

  lemma WholeFits(peer: Peer, id: Int32, o: Outcome)
    ensures ReplyOf(peer, id, o).Whole() <==> ReplyOf(peer, id, o).len < MAX_MSG_LEN
  {
  }

  /** Whatever the request, the drone's state and the surroundings, the reply goes out whole unless it
      reports a successful upload under a long name. */
  lemma ReplyWholeUnlessLongUpload(
      lib: JsonC, st: State, peer: Peer, id: Int32, m: Method, params: Option<Json>, inp: Inputs)
    ensures var r := ReplyOf(peer, id, Exec(lib, st, m, params, inp).1);
            r.Whole() <==> !LongUpload(lib, id, m, params, inp.ok)
  {
    hide ReplyOf, ExecUpload, ExecRead, ExecWrite, PingText, UptimeMs, UploadName;
    var o := Exec(lib, st, m, params, inp).1;
    if m.UploadKmz? {
      assert o == ExecUpload(lib, params, inp.ok) by { UploadRead(lib, st.drone, params, inp); }
      UploadWhole(lib, peer, id, params, inp.ok);
    } else {
      if m.Ping? {
        PingLength(UptimeMs(StartOf(st.start, inp), inp.t1) % 0x1_0000_0000_0000_0000);
      } else if Writes(m) {
        WritePayload(lib, st.drone, m, params, inp.ok);
      } else if m.SetHome? || m.SetObstacle? || m.Shoot? || m.Unknown? {
        CommandPayload(lib, st.drone, m, params, inp);
      } else {
        ReadPayload(lib, st.drone, m, params, inp);
      }
      SmallPayloadWhole(peer, id, o);
    }
  }

  lemma UploadRead(lib: JsonC, d: Drone, params: Option<Json>, inp: Inputs)
    ensures ExecRead(lib, d, UploadKmz, params, inp) == ExecUpload(lib, params, inp.ok)
  {
  }
}
