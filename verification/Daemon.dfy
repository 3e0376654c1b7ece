/** The live daemon: udp_server.c feeding handler.c, with its globals, its receive buffer and the
    json-c trees it borrows, proved to compute the runs of Pipeline. */
module Daemon {
  import opened Common
  import opened Text
  import opened Rpc
  import opened Handler
  import opened Pipeline

  /** handler.c together with the g_stub_* variables of drone_ctrl.c. */
  class RpcHandler {
    const lib: JsonC
    const heap: JsonHeap
    var rthAlt: Single
    var pitch: Single
    var zoom: Single
    var camMode: Int32
    var recording: bool
    var started: bool
    var start: Timespec
    var sent: seq<Reply>

    constructor (lib: JsonC)
      ensures this.lib == lib && fresh(heap) && heap.Settled() && View() == INITIAL && sent == []
    {
      this.lib := lib;
      heap := new JsonHeap();
      rthAlt, pitch, zoom := Finite(false, 30.0), Finite(true, 30.0), Finite(false, 1.0);
      camMode, recording := 0, false;
      started, start := false, Timespec(0, 0);
      sent := [];
    }

    ghost function View(): State
      reads this
    {
      State(Drone(rthAlt, pitch, zoom, camMode, recording), if started then Some(start) else None)
    }

    /** uptime_ms */
    method Uptime(inp: Inputs) returns (ms: int)
      modifies this`started, this`start
      ensures View() == old(View()).(start := Some(StartOf(old(View().start), inp)))
      ensures ms == UptimeMs(StartOf(old(View().start), inp), inp.t1)
    {
      if !started {
        start := inp.t0;
        started := true;
      }
      var now := inp.t1;
      var sec, nsec := now.sec - start.sec, now.nsec - start.nsec;
      if nsec < 0 {
        sec := sec - 1;
        nsec := nsec + 1_000_000_000;
      }
      ms := U64(sec) * 1000 + U64(nsec) / 1_000_000;
    }

    /** The handlers that change the drone. They follow the borrowed pointer `p` at each parameter. */
    method Change(m: Method, p: Option<nat>, ok: bool) returns (o: Outcome)
      requires Writes(m) && heap.Borrowable(p)
      modifies this`rthAlt, this`pitch, this`zoom, this`camMode, this`recording
      ensures (View().drone, o) == ExecWrite(lib, old(View().drone), m, heap.Params(p), ok)
    {
      match m
      case SetRth =>
        var alt := lib.single(heap.DoubleParam(lib, p, "altitude_m", MINUS_ONE));
        if alt.Val() < 0.0 { return Error("missing param: altitude_m"); }
        if ok { rthAlt := alt; }
        o := Done(ok, "PSDK set rth altitude failed");
      case SetGimbal =>
        var a := lib.single(heap.DoubleParam(lib, p, "pitch", ZERO));
        var _, _ := heap.DoubleParam(lib, p, "roll", ZERO), heap.DoubleParam(lib, p, "yaw", ZERO);
        if ok { pitch := a; }
        o := Done(ok, "PSDK set gimbal angle failed");
      case SetMode =>
        var mode := heap.IntParam(lib, p, "mode", -1);
        if mode < 0 { return Error("missing param: mode (0=photo, 1=video)"); }
        if ok { camMode := mode; }
        o := Done(ok, "PSDK set camera mode failed");
      case SetZoom =>
        var z := lib.single(heap.DoubleParam(lib, p, "zoom_factor", MINUS_ONE));
        if z.Val() < 1.0 { return Error("missing or invalid param: zoom_factor (>= 1.0)"); }
        if ok { zoom := z; }
        o := Done(ok, "PSDK set camera zoom failed");
      case StartRec =>
        if ok { recording := true; }
        o := Done(ok, "PSDK start recording failed");
      case StopRec =>
        if ok { recording := false; }
        o := Done(ok, "PSDK stop recording failed");
    }

    /** h_drone_upload_kmz: the name, too, belongs to the tree. */
    method Upload(p: Option<nat>, ok: bool) returns (o: Outcome)
      requires heap.Borrowable(p)
      ensures o == ExecUpload(lib, heap.Params(p), ok)
    {
      var name := heap.StringParam(lib, p, "file");
      if name.None? || name.value == [] { return Error("missing param: file"); }
      if BadName(name.value) { return Error("invalid file name"); }
      o := Show(ok, PATH_MAX + 64, UploadText(name.value), "kmz upload failed");
    }

    /** h_drone_set_home_location */
    method SetHomeLocation(p: Option<nat>, ok: bool) returns (o: Outcome)
      requires heap.Borrowable(p)
      ensures o == ExecSetHome(lib, heap.Params(p), ok)
    {
      var lat := heap.DoubleParam(lib, p, "lat", OFF_MAP).Val();
      var lon := heap.DoubleParam(lib, p, "lon", OFF_MAP).Val();
      var _ := heap.DoubleParam(lib, p, "alt_m", ZERO);
      if lat > 90.0 || lat < -90.0 || lon > 180.0 || lon < -180.0 {
        return Error("missing or invalid params: lat, lon");
      }
      o := Done(ok, "PSDK set home location failed");
    }

    /** The handlers that leave the drone as it is. Those not given the pointer are not passed it. */
    method Look(m: Method, p: Option<nat>, inp: Inputs) returns (o: Outcome)
      requires !Writes(m) && !m.Ping? && heap.Borrowable(p)
      ensures o == ExecRead(lib, View().drone, m, heap.Params(p), inp)
    {
      hide ExecUpload, ExecSetHome, Show;
      if m.UploadKmz? {
        o := Upload(p, inp.ok);
      } else if m.SetHome? {
        o := SetHomeLocation(p, inp.ok);
      } else if m.SetObstacle? {
        if heap.IntParam(lib, p, "mode", -1) < 0 { return Error("missing param: mode (0=off, 1=on, 2=brake)"); }
        o := Done(inp.ok, "PSDK set obstacle avoidance failed");
      } else {
        o := ExecRead(lib, Drone(rthAlt, pitch, zoom, camMode, recording), m, None, inp);
      }
    }

    method Execute(m: Method, p: Option<nat>, inp: Inputs) returns (o: Outcome)
      requires heap.Borrowable(p)
      modifies this`rthAlt, this`pitch, this`zoom, this`camMode, this`recording, this`started, this`start
      ensures (View(), o) == Exec(lib, old(View()), m, heap.Params(p), inp)
    {
      hide ExecWrite, ExecRead, PingText;
      if m.Ping? {
        var ms := Uptime(inp);
        o := Result(Some(Snprintf(128, PingText(ms % 0x1_0000_0000_0000_0000)).buf));
      } else if Writes(m) {
        o := Change(m, p, inp.ok);
      } else {
        o := Look(m, p, inp);
      }
    }

    /** send_result and send_error */
    method Send(peer: Peer, id: Int32, o: Outcome)
      modifies this`sent
      ensures sent == old(sent) + [ReplyOf(peer, id, o)]
    {
      var p := Snprintf(MAX_MSG_LEN, OutcomeText(id, o));
      sent := sent + [Reply(peer, p.buf, p.ret)];
    }

    /** handle_rpc: every tree handed out is released exactly once. The handlers follow the borrowed
        pointer, which demands a live tree, so the release can only come after them. */
    method HandleRpc(peer: Peer, line: string, inp: Inputs)
      requires heap.Settled()
      modifies this, heap
      ensures heap.Settled()
      ensures View() == Handle(lib, old(View()), peer, line, inp).0
      ensures sent == old(sent) + Handle(lib, old(View()), peer, line, inp).1
    {
      hide ParseRequest, Exec, ReplyOf;
      var req := new RpcRequest();
      var rc := req.Parse(lib, heap, line);
      if rc != 0 {
        return;
      }
      var o := Execute(Dispatch(req.name), req.params, inp);
      Send(peer, req.id, o);
      req.Free(heap);
    }
  }

  // ---- The receive buffer ----

  lemma {:induction false} CStrOfBuffer(a: string, b: string)
    requires a <= b && |a| < |b| && b[|a|] == '\0'
    ensures CStr(b) == CStr(a)
  {
    if a != [] && a[0] != '\0' {
      CStrOfBuffer(a[1..], b[1..]);
    }
  }

  /** Only the C string in the buffer matters to the parser. */
  lemma BufferIsLine(lib: JsonC, a: string, b: string)
    requires a <= b && |a| < |b| && b[|a|] == '\0'
    ensures ParseRequest(lib, b) == ParseRequest(lib, a)
  {
    CStrOfBuffer(a, b);
  }

  class UdpServer {
    const recvBuf: array<char>
    const handler: RpcHandler

    constructor (lib: JsonC)
      ensures Valid() && fresh(recvBuf) && fresh(handler) && fresh(handler.heap)
      ensures handler.lib == lib && handler.View() == INITIAL && handler.sent == []
    {
      recvBuf := new char[MAX_MSG_LEN];
      handler := new RpcHandler(lib);
    }

    ghost predicate Valid()
      reads handler.heap
    {
      recvBuf.Length == MAX_MSG_LEN && handler.heap.Settled()
    }

    /** The bounded receive: at most 4095 bytes and the terminator. */
    method Receive(bytes: string) returns (len: nat)
      requires recvBuf.Length == MAX_MSG_LEN
      modifies recvBuf
      ensures len < recvBuf.Length && recvBuf[..len] == Received(bytes) && recvBuf[len] == '\0'
    {
      len := if |bytes| < MAX_MSG_LEN then |bytes| else MAX_MSG_LEN - 1;
      forall k | 0 <= k < len { recvBuf[k] := bytes[k]; }
      recvBuf[len] := '\0';
    }

    /** The trimming loop, in place. */
    method TrimBuffer(n: nat) returns (len: nat)
      requires n < recvBuf.Length && recvBuf[n] == '\0'
      modifies recvBuf
      ensures len <= n && recvBuf[..len] == Trim(old(recvBuf[..n])) && recvBuf[len] == '\0'
    {
      len := n;
      while len > 0 && Blank(recvBuf[len - 1])
        invariant len <= n && recvBuf[len] == '\0'
        invariant recvBuf[..len] == old(recvBuf[..len])
        invariant Trim(recvBuf[..len]) == Trim(old(recvBuf[..n]))
      {
        assert recvBuf[..len][..len - 1] == recvBuf[..len - 1];
        len := len - 1;
        recvBuf[len] := '\0';
        assert recvBuf[..len] == old(recvBuf[..len]);
      }
    }

    /** udp_server_poll, once poll() has reported the datagram `d`. */
    method Poll(d: Datagram)
      requires Valid()
      modifies recvBuf, handler, handler.heap
      ensures Valid()
      ensures handler.View() == Take(handler.lib, old(handler.View()), d).0
      ensures handler.sent == old(handler.sent) + Take(handler.lib, old(handler.View()), d).1
    {
      hide Trim, Received, ParseRequest, Exec, ReplyOf;
      var len := Receive(d.bytes);
      if len == 0 {
        assert Trim([]) == [] by { TrimLongest([]); }
        assert recvBuf[..len] == [];
        return;
      }
      len := TrimBuffer(len);
      if len == 0 {
        assert recvBuf[..len] == [];
        return;
      }
      BufferIsLine(handler.lib, recvBuf[..len], recvBuf[..]);
      handler.HandleRpc(d.peer, recvBuf[..], d.inp);
    }
  }

  /** The main loop over any sequence of datagrams computes exactly Serve, and no json-c tree is
      leaked or released twice. */
  method Run(lib: JsonC, ds: seq<Datagram>) returns (srv: UdpServer)
    ensures srv.Valid()
    ensures (srv.handler.View(), srv.handler.sent) == Serve(lib, ds)
  {
    hide Take;
    srv := new UdpServer(lib);
    for n := 0 to |ds|
      invariant srv.Valid() && srv.handler.lib == lib
      invariant fresh(srv) && fresh(srv.recvBuf) && fresh(srv.handler) && fresh(srv.handler.heap)
      invariant (srv.handler.View(), srv.handler.sent) == Serve(lib, ds[..n])
    {
      srv.Poll(ds[n]);
      assert ds[..n + 1] == ds[..n] + [ds[n]];
      ServeSnoc(lib, ds[..n], ds[n]);
    }
    assert ds[..|ds|] == ds;
  }
}
