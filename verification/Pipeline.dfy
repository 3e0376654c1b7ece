/** Whole runs of the daemon: datagrams in, replies out. */
module Pipeline {
  import opened Common
  import opened Text
  import opened Rpc
  import opened Handler
  import opened ReplyLengths

  /** One datagram that poll() and recvfrom() delivered, with what the outside does while it is handled. */
  datatype Datagram = Datagram(peer: Peer, bytes: string, inp: Inputs)

  predicate Blank(c: char) { c == '\n' || c == '\r' || c == ' ' }

  predicate AllBlank(s: string) { forall i :: 0 <= i < |s| ==> Blank(s[i]) }

  /** recvfrom into a buffer that keeps one byte for the terminator. */
  function Received(bytes: string): (r: string)
    ensures r <= bytes && |r| == if |bytes| < 4095 then |bytes| else 4095
  {
    if |bytes| < MAX_MSG_LEN then bytes else bytes[..MAX_MSG_LEN - 1]
  }

  function Trim(s: string): string {
    if s != [] && Blank(s[|s| - 1]) then Trim(s[..|s| - 1]) else s
  }

  /** The message the handler is given; none if empty. */
  function Line(d: Datagram): string { Trim(Received(d.bytes)) }

  function RequestIn(lib: JsonC, d: Datagram): Option<Request> {
    if Line(d) == [] then None else ParseRequest(lib, Line(d))
  }

  /** The members of the JSON object a datagram carries, if it is a request: an object with a method. */
  function Fields(lib: JsonC, d: Datagram): Option<map<string, Json>> {
    if Line(d) == [] then None
    else
      match lib.parse(CStr(Line(d)))
      case Some(Object(f)) => if "method" in f then Some(f) else None
      case _ => None
  }

  function IdIn(lib: JsonC, f: map<string, Json>): Int32 { if "id" in f then lib.asInt(f["id"]) else -1 }

  /** The full method string, however long. */
  function MethodIn(lib: JsonC, f: map<string, Json>): string {
    if "method" in f then CStr(lib.asString(f["method"])) else []
  }

  function Params(f: map<string, Json>): Option<Json> { if "params" in f then Some(f["params"]) else None }

  /** A member of the parameters, if these are an object that has it. */
  function Given(f: map<string, Json>, key: string): Option<Json> {
    if "params" in f && f["params"].Object? && key in f["params"].fields then Some(f["params"].fields[key]) else None
  }

  /** What the parser makes of a datagram is what its members say. */
  lemma RequestReads(lib: JsonC, d: Datagram)
    ensures RequestIn(lib, d).Some? <==> Fields(lib, d).Some?
    ensures Fields(lib, d).Some? ==>
              var f, req := Fields(lib, d).value, RequestIn(lib, d).value;
              && req.id == IdIn(lib, f) && req.params == Params(f) && Dispatch(req.name) == Dispatch(MethodIn(lib, f))
              && "method" in f
  {
    hide Dispatch, Line, CStr;
    if Fields(lib, d).Some? {
      RequestDispatch(lib, Object(Fields(lib, d).value));
    }
  }

  /** The datagram asks for the method of that name. */
  predicate Asks(lib: JsonC, d: Datagram, name: string) {
    Fields(lib, d).Some? && MethodIn(lib, Fields(lib, d).value) == name
  }

  /** One turn of the main loop. */
  function Take(lib: JsonC, st: State, d: Datagram): (State, seq<Reply>) {
    if Line(d) == [] then (st, []) else Handle(lib, st, d.peer, Line(d), d.inp)
  }

  /** All turns: the state reached and every reply sent, in order. */
  function Serve(lib: JsonC, ds: seq<Datagram>): (State, seq<Reply>) {
    if ds == [] then (INITIAL, [])
    else
      var (st, rs) := Serve(lib, ds[..|ds| - 1]);
      var (st', r) := Take(lib, st, ds[|ds| - 1]);
      (st', rs + r)
  }

  lemma ServeSnoc(lib: JsonC, ds: seq<Datagram>, d: Datagram)
    ensures Serve(lib, ds + [d]) ==
      (Take(lib, Serve(lib, ds).0, d).0, Serve(lib, ds).1 + Take(lib, Serve(lib, ds).0, d).1)
  {
    assert (ds + [d])[..|ds + [d]| - 1] == ds;
  }

  // ---- Trailing blanks ----

  /** Trim gives the longest prefix that does not end in a blank, and no other. */
  lemma {:induction false} TrimLongest(s: string)
    ensures Trim(s) <= s
    ensures Trim(s) == [] || Trim(s)[|Trim(s)| - 1] !in "\n\r "
    ensures forall i :: |Trim(s)| <= i < |s| ==> s[i] in "\n\r "
  {
    if s != [] && Blank(s[|s| - 1]) {
      TrimLongest(s[..|s| - 1]);
    }
  }

  lemma TrimUnique(s: string, p: string)
    requires p <= s && (p == [] || p[|p| - 1] !in "\n\r ")
    requires forall i :: |p| <= i < |s| ==> s[i] in "\n\r "
    ensures p == Trim(s)
  {
    hide Trim;
    TrimLongest(s);
    assert p == s[..|p|] && Trim(s) == s[..|Trim(s)|];
  }

  lemma {:induction false} TrimBlanks(s: string, b: string)
    requires AllBlank(b)
    ensures Trim(s + b) == Trim(s)
    decreases |b|
  {
    if b == [] {
      assert s + b == s;
    } else {
      var c := b[..|b| - 1];
      assert (s + b)[..|s + b| - 1] == s + c;
      TrimBlanks(s, c);
    }
  }

  ghost predicate Padded(d: Datagram, e: Datagram) {
    e.peer == d.peer && e.inp == d.inp && exists b :: AllBlank(b) && e.bytes == d.bytes + b
  }

  lemma PaddedLine(d: Datagram, e: Datagram)
    requires Padded(d, e)
    ensures Line(e) == Line(d)
  {
    hide Trim;
    var b :| AllBlank(b) && e.bytes == d.bytes + b;
    if |d.bytes| < MAX_MSG_LEN {
      var n := if |e.bytes| < MAX_MSG_LEN then |b| else MAX_MSG_LEN - 1 - |d.bytes|;
      assert Received(e.bytes) == d.bytes + b[..n];
      TrimBlanks(d.bytes, b[..n]);
    } else {
      assert Received(e.bytes) == Received(d.bytes);
    }
  }

  /** Blanks after any datagrams of a run, however many, change neither the replies nor the state. */
  lemma {:induction false} TrailingBlanksInvisible(lib: JsonC, ds: seq<Datagram>, es: seq<Datagram>)
    requires |ds| == |es| && forall i :: 0 <= i < |ds| ==> Padded(ds[i], es[i])
    ensures Serve(lib, es) == Serve(lib, ds)
  {
    hide Line, Handle, Padded;
    if ds != [] {
      var n := |ds| - 1;
      TrailingBlanksInvisible(lib, ds[..n], es[..n]);
      PaddedLine(ds[n], es[n]);
      assert es[n].peer == ds[n].peer && es[n].inp == ds[n].inp by { PaddedSame(ds[n], es[n]); }
    }
  }

  lemma PaddedSame(d: Datagram, e: Datagram)
    requires Padded(d, e)
    ensures e.peer == d.peer && e.inp == d.inp
  {
  }

  // ---- One reply per request ----

  /** A datagram that is a request: who asked, the members of the object, what the outside did meanwhile. */
  datatype Query = Query(peer: Peer, fields: map<string, Json>, inp: Inputs)

  /** The requests among the datagrams, in order. */
  function Asked(lib: JsonC, ds: seq<Datagram>): seq<Query> {
    if ds == [] then []
    else
      var d := ds[|ds| - 1];
      Asked(lib, ds[..|ds| - 1])
      + (if Fields(lib, d).Some? then [Query(d.peer, Fields(lib, d).value, d.inp)] else [])
  }

  ghost predicate Answers(lib: JsonC, r: Reply, q: Query) {
    exists o :: r == ReplyOf(q.peer, IdIn(lib, q.fields), o)
  }

  /** The file name an upload request gives: none if missing or null. */
  function FileName(lib: JsonC, f: map<string, Json>): Option<string> {
    match Given(f, "file")
    case None => None
    case Some(v) => if v.Null? then None else Some(CStr(lib.asString(v)))
  }

  /** No path separator and no two dots in a row. */
  predicate Safe(name: string) {
    '/' !in name && forall i :: 0 <= i < |name| - 1 ==> !(name[i] == '.' && name[i + 1] == '.')
  }

  /** The query is a successful upload under a name too long to be echoed twice. */
  predicate LongName(lib: JsonC, q: Query) {
    && MethodIn(lib, q.fields) == "drone.upload_kmz" && q.inp.ok
    && var name := FileName(lib, q.fields);
    name.Some? && name.value != [] && Safe(name.value) && 2 * |name.value| + |Int(IdIn(lib, q.fields))| > 4012
  }

  lemma LongNameIs(lib: JsonC, q: Query)
    ensures LongName(lib, q) <==>
            LongUpload(lib, IdIn(lib, q.fields), Dispatch(MethodIn(lib, q.fields)), Params(q.fields), q.inp.ok)
  {
    hide Dispatch, CStr, Int;
    assert MethodIn(lib, q.fields) == "drone.upload_kmz" <==> Dispatch(MethodIn(lib, q.fields)) == UploadKmz by {
      Named(UploadKmz, MethodIn(lib, q.fields));
    }
  }

  lemma TakeAnswers(lib: JsonC, st: State, d: Datagram)
    ensures var r := Take(lib, st, d).1;
            match Fields(lib, d)
            case None => r == []
            case Some(f) =>
              var q := Query(d.peer, f, d.inp);
              |r| == 1 && Answers(lib, r[0], q) && (r[0].Whole() <==> !LongName(lib, q))
  {
    hide Exec, ParseRequest, Line, ReplyOf, Dispatch, LongUpload, Fields, IdIn, Params, MethodIn, LongName;
    RequestReads(lib, d);
    if RequestIn(lib, d).Some? {
      var req := RequestIn(lib, d).value;
      var o := Exec(lib, st, Dispatch(req.name), req.params, d.inp).1;
      assert Take(lib, st, d).1 == [ReplyOf(d.peer, req.id, o)];
      ReplyWholeUnlessLongUpload(lib, st, d.peer, req.id, Dispatch(req.name), req.params, d.inp);
      LongNameIs(lib, Query(d.peer, Fields(lib, d).value, d.inp));
    }
  }

  /** Replies and requests correspond one to one, in order: each reply goes to the peer that asked
      and carries the id it used. Nothing else is ever sent. Each is whole unless it reports an upload
      under a long name. */
  lemma {:induction false} OneReplyEach(lib: JsonC, ds: seq<Datagram>)
    ensures |Serve(lib, ds).1| == |Asked(lib, ds)|
    ensures forall i :: 0 <= i < |Asked(lib, ds)| ==> Answers(lib, Serve(lib, ds).1[i], Asked(lib, ds)[i])
    ensures forall i :: 0 <= i < |Asked(lib, ds)| ==>
              (Serve(lib, ds).1[i].Whole() <==> !LongName(lib, Asked(lib, ds)[i]))
  {
    hide Take, Fields, Answers, LongName, Reply.Whole;
    if ds != [] {
      var n := |ds| - 1;
      OneReplyEach(lib, ds[..n]);
      TakeAnswers(lib, Serve(lib, ds[..n]).0, ds[n]);
    }
  }

  /** So in any run a client can tell, from the bytes it receives alone, which request each reply
      belongs to, unless it uploaded under a long name. The id is the number in the request's own
      object, or -1 if that has none. */
  lemma ClientsCanMatchReplies(lib: JsonC, ds: seq<Datagram>, i: nat)
    requires i < |Asked(lib, ds)| && !LongName(lib, Asked(lib, ds)[i])
    ensures |Serve(lib, ds).1| == |Asked(lib, ds)|
    ensures var r, q := Serve(lib, ds).1[i], Asked(lib, ds)[i];
            && r.peer == q.peer && r.Whole() && r.len < 4096 && Decode(r.buf).Some?
            && Decode(r.buf).value.id == if "id" in q.fields then lib.asInt(q.fields["id"]) else -1
  {
    hide Serve, Asked, LongName, Decode;
    OneReplyEach(lib, ds);
    var r, q := Serve(lib, ds).1[i], Asked(lib, ds)[i];
    var id := IdIn(lib, q.fields);
    var o :| r == ReplyOf(q.peer, id, o);
    WholeFits(q.peer, id, o);
    ReplyDecodes(q.peer, id, o);
  }

  // ---- A reply that is not whole ----

  const LONG_NAME: string := seq(2010, _ => 'a')

  const LONG_UPLOAD: Json :=
    Object(map["method" := Str("drone.upload_kmz"), "params" := Object(map["file" := Str(LONG_NAME)])])

  /** A json-c that reads every text as that request. */
  const ONE_ANSWER: JsonC :=
    JsonLib(_ => Some(LONG_UPLOAD), _ => 0, _ => ZERO, (j: Json) => if j.Str? then j.s else [], x => Narrowed(x))

  lemma {:induction false} CStrWhole(s: string)
    requires '\0' !in s
    ensures CStr(s) == s
  {
    if s != [] {
      CStrWhole(s[1..]);
    }
  }

  lemma LongNameSafe()
    ensures '\0' !in LONG_NAME && Safe(LONG_NAME) && |LONG_NAME| == 2010
  {
  }

  /** The request as a client would write it. */
  const LONG_TEXT: string := "{\"method\":\"drone.upload_kmz\",\"params\":{\"file\":\"" + LONG_NAME + "\"}}"

  lemma LongTextRead(peer: Peer, inp: Inputs)
    requires inp.ok
    ensures |LONG_TEXT| < 4096
    ensures Fields(ONE_ANSWER, Datagram(peer, LONG_TEXT, inp)) == Some(LONG_UPLOAD.fields)
  {
    hide CStr;
  }

  lemma LongQuery(peer: Peer, inp: Inputs)
    requires inp.ok
    ensures LongName(ONE_ANSWER, Query(peer, LONG_UPLOAD.fields, inp))
  {
    hide CStr, Safe, Int;
    CStrWhole("drone.upload_kmz");
    LongNameSafe();
    CStrWhole(LONG_NAME);
  }

  /** One request, well within a datagram, whose reply is cut to fit its buffer and sent with a length
      beyond it. */
  lemma LongNameOverruns(peer: Peer, inp: Inputs)
    requires inp.ok
    ensures |LONG_TEXT| < 4096
    ensures var rs := Serve(ONE_ANSWER, [Datagram(peer, LONG_TEXT, inp)]).1;
            |rs| == 1 && !rs[0].Whole() && rs[0].len >= 4096
  {
    hide Fields, LongName, Serve, ReplyOf, IdIn;
    var d := Datagram(peer, LONG_TEXT, inp);
    LongTextRead(peer, inp);
    OneReplyEach(ONE_ANSWER, [d]);
    var q := Query(peer, LONG_UPLOAD.fields, inp);
    LongQuery(peer, inp);
    assert Asked(ONE_ANSWER, [d]) == [q];
    var r, id := Serve(ONE_ANSWER, [d]).1[0], IdIn(ONE_ANSWER, q.fields);
    assert Answers(ONE_ANSWER, r, q);
    var o :| r == ReplyOf(q.peer, id, o);
    WholeFits(q.peer, id, o);
  }

  // ---- The drone remembers the last accepted write ----

  datatype Kind = Altitude | Pitch | Zoom | Mode | Recording

  datatype Write = Level(kind: Kind, x: Single) | Choice(kind: Kind, n: Int32)

  /** Each kind is written in one form. */
  predicate Formed(w: Write) { w.Level? <==> w.kind.Altitude? || w.kind.Pitch? || w.kind.Zoom? }

  /** A numeric parameter, cast to single precision. */
  function Measure(lib: JsonC, f: map<string, Json>, key: string): Option<Single> {
    match Given(f, key) case None => None case Some(v) => Some(lib.single(lib.asDouble(v)))
  }

  function AtLeast(k: Kind, x: Option<Single>, bound: real): Option<Write> {
    if x.Some? && x.value.Val() >= bound then Some(Level(k, x.value)) else None
  }

  /** The write a request asks for and gets, if any. */
  function WriteIn(lib: JsonC, f: map<string, Json>, ok: bool): (w: Option<Write>)
    ensures w.Some? ==> Formed(w.value)
  {
    var m := MethodIn(lib, f);
    if !ok then None
    else if m == "drone.set_rth_altitude" then AtLeast(Altitude, Measure(lib, f, "altitude_m"), 0.0)
    else if m == "drone.set_camera_zoom" then AtLeast(Zoom, Measure(lib, f, "zoom_factor"), 1.0)
    else if m == "drone.set_gimbal_angle" then
      Some(Level(Pitch, if Measure(lib, f, "pitch").Some? then Measure(lib, f, "pitch").value else Finite(false, 0.0)))
    else if m == "drone.set_camera_mode" then
      var v := Given(f, "mode");
      if v.Some? && lib.asInt(v.value) >= 0 then Some(Choice(Mode, lib.asInt(v.value))) else None
    else if m == "drone.start_recording" then Some(Choice(Recording, 1))
    else if m == "drone.stop_recording" then Some(Choice(Recording, 0))
    else None
  }

  function WriteOf(lib: JsonC, d: Datagram): (w: Option<Write>)
    ensures w.Some? ==> Formed(w.value)
  {
    match Fields(lib, d) case None => None case Some(f) => WriteIn(lib, f, d.inp.ok)
  }

  /** What the drone currently holds for a kind, as the write that would set it. */
  function Holding(d: Drone, k: Kind): Write {
    match k
    case Altitude => Level(k, d.rthAlt)
    case Pitch => Level(k, d.pitch)
    case Zoom => Level(k, d.zoom)
    case Mode => Choice(k, d.mode)
    case Recording => Choice(k, if d.recording then 1 else 0)
  }

  predicate WritesKind(lib: JsonC, d: Datagram, k: Kind) {
    WriteOf(lib, d).Some? && WriteOf(lib, d).value.kind == k
  }

  /** A datagram sets exactly what it writes; a rejected or failed one changes nothing. */
  lemma TakeWrites(lib: JsonC, st: State, d: Datagram, k: Kind)
    ensures Holding(Take(lib, st, d).0.drone, k) ==
            if WritesKind(lib, d, k) then WriteOf(lib, d).value else Holding(st.drone, k)
  {
    hide ParseRequest, Line, ReplyOf, Exec, Dispatch, Fields, WriteIn, Holding, Params, MethodIn, IdIn;
    RequestReads(lib, d);
    if RequestIn(lib, d).Some? {
      ExecWrites(lib, st, Fields(lib, d).value, d.inp, k);
    }
  }

  lemma ExecWrites(lib: JsonC, st: State, f: map<string, Json>, inp: Inputs, k: Kind)
    ensures var w := WriteIn(lib, f, inp.ok);
            Holding(Exec(lib, st, Dispatch(MethodIn(lib, f)), Params(f), inp).0.drone, k) ==
            if w.Some? && w.value.kind == k then w.value else Holding(st.drone, k)
  {
    hide ExecRead, ExecPing, ExecWrite, Holding, Dispatch, WriteIn, MethodIn, Params;
    var m := Dispatch(MethodIn(lib, f));
    if Writes(m) {
      WriteHolds(lib, st.drone, f, m, inp.ok, k);
    } else {
      assert WriteIn(lib, f, inp.ok) == None by { NoWrite(lib, f, m, inp.ok); }
    }
  }

  lemma WriterNames(name: string)
    ensures var m := Dispatch(name);
            && (m == SetRth <==> name == "drone.set_rth_altitude") && (m == SetZoom <==> name == "drone.set_camera_zoom")
            && (m == SetGimbal <==> name == "drone.set_gimbal_angle") && (m == SetMode <==> name == "drone.set_camera_mode")
            && (m == StartRec <==> name == "drone.start_recording") && (m == StopRec <==> name == "drone.stop_recording")
  {
    hide Dispatch;
    Named(SetRth, name);
    Named(SetZoom, name);
    Named(SetGimbal, name);
    Named(SetMode, name);
    Named(StartRec, name);
    Named(StopRec, name);
  }

  lemma NoWrite(lib: JsonC, f: map<string, Json>, m: Method, ok: bool)
    requires m == Dispatch(MethodIn(lib, f)) && !Writes(m)
    ensures WriteIn(lib, f, ok) == None
  {
    hide Dispatch, MethodIn;
    WriterNames(MethodIn(lib, f));
  }

  /** The accessors look where the parameter is. */
  lemma ParamGiven(lib: JsonC, f: map<string, Json>, key: string, x: Float, n: Int32)
    ensures ParamDouble(lib, Params(f), key, x) == (if Given(f, key).Some? then lib.asDouble(Given(f, key).value) else x)
    ensures ParamInt(lib, Params(f), key, n) == (if Given(f, key).Some? then lib.asInt(Given(f, key).value) else n)
    ensures ParamStr(lib, Params(f), key) ==
            if Given(f, key).Some? && !Given(f, key).value.Null? then Some(CStr(lib.asString(Given(f, key).value))) else None
  {
    hide CStr;
  }

  lemma WriteHolds(lib: JsonC, d: Drone, f: map<string, Json>, m: Method, ok: bool, k: Kind)
    requires m == Dispatch(MethodIn(lib, f)) && Writes(m)
    ensures var w := WriteIn(lib, f, ok);
            Holding(ExecWrite(lib, d, m, Params(f), ok).0, k) ==
            if w.Some? && w.value.kind == k then w.value else Holding(d, k)
  {
    hide Dispatch, ExecWrite, WriteIn, Holding, MethodIn, Params;
    if m.SetRth? || m.SetZoom? || m.SetGimbal? {
      LevelHolds(lib, d, f, m, ok, k);
    } else {
      ChoiceHolds(lib, d, f, m, ok, k);
    }
  }

  lemma LevelHolds(lib: JsonC, d: Drone, f: map<string, Json>, m: Method, ok: bool, k: Kind)
    requires m == Dispatch(MethodIn(lib, f)) && (m.SetRth? || m.SetZoom? || m.SetGimbal?)
    ensures var w := WriteIn(lib, f, ok);
            Holding(ExecWrite(lib, d, m, Params(f), ok).0, k) ==
            if w.Some? && w.value.kind == k then w.value else Holding(d, k)
  {
    hide ParamDouble, ParamInt, Done, Dispatch, MethodIn, Params, Given;
    WriterNames(MethodIn(lib, f));
    ParamGiven(lib, f, if m.SetRth? then "altitude_m" else if m.SetZoom? then "zoom_factor" else "pitch",
               if m.SetGimbal? then ZERO else MINUS_ONE, 0);
  }

  lemma ChoiceHolds(lib: JsonC, d: Drone, f: map<string, Json>, m: Method, ok: bool, k: Kind)
    requires m == Dispatch(MethodIn(lib, f)) && (m.SetMode? || m.StartRec? || m.StopRec?)
    ensures var w := WriteIn(lib, f, ok);
            Holding(ExecWrite(lib, d, m, Params(f), ok).0, k) ==
            if w.Some? && w.value.kind == k then w.value else Holding(d, k)
  {
    hide ParamDouble, ParamInt, Done, Dispatch, MethodIn, Params, Given;
    WriterNames(MethodIn(lib, f));
    ParamGiven(lib, f, "mode", ZERO, -1);
  }

  /** The drone holds the last accepted write of each kind. */
  lemma {:induction false} LastWriteWins(lib: JsonC, ds: seq<Datagram>, i: nat, k: Kind)
    requires i < |ds| && WritesKind(lib, ds[i], k)
    requires forall j :: i < j < |ds| ==> !WritesKind(lib, ds[j], k)
    ensures Holding(Serve(lib, ds).0.drone, k) == WriteOf(lib, ds[i]).value
  {
    hide Take, WriteOf, WritesKind, Holding;
    var n := |ds| - 1;
    TakeWrites(lib, Serve(lib, ds[..n]).0, ds[n], k);
    if i < n {
      LastWriteWins(lib, ds[..n], i, k);
    }
  }

  /** A kind never written keeps its initial value. */
  lemma {:induction false} UnwrittenKeepsInitial(lib: JsonC, ds: seq<Datagram>, k: Kind)
    requires forall j :: 0 <= j < |ds| ==> !WritesKind(lib, ds[j], k)
    ensures Holding(Serve(lib, ds).0.drone, k) == Initial(k)
  {
    hide Take, WriteOf, WritesKind;
    if ds != [] {
      var n := |ds| - 1;
      TakeWrites(lib, Serve(lib, ds[..n]).0, ds[n], k);
      UnwrittenKeepsInitial(lib, ds[..n], k);
    }
  }

  /** What a drone just started holds. */
  function Initial(k: Kind): (w: Write)
    ensures w.kind == k && Formed(w)
  {
    match k
    case Altitude => Level(k, Finite(false, 30.0))
    case Pitch => Level(k, Finite(true, 30.0))
    case Zoom => Level(k, Finite(false, 1.0))
    case Mode => Choice(k, 0)
    case Recording => Choice(k, 0)
  }

  /** The last accepted write of a kind in a run, or the initial value. */
  function LastWrite(lib: JsonC, ds: seq<Datagram>, k: Kind): (w: Write)
    ensures w.kind == k && Formed(w)
  {
    if ds == [] then Initial(k)
    else if WritesKind(lib, ds[|ds| - 1], k) then WriteOf(lib, ds[|ds| - 1]).value
    else LastWrite(lib, ds[..|ds| - 1], k)
  }

  lemma {:induction false} HoldsLastWrite(lib: JsonC, ds: seq<Datagram>, k: Kind)
    ensures Holding(Serve(lib, ds).0.drone, k) == LastWrite(lib, ds, k)
  {
    hide Take, WriteOf, WritesKind;
    if ds != [] {
      hide Holding;
      var n := |ds| - 1;
      TakeWrites(lib, Serve(lib, ds[..n]).0, ds[n], k);
      HoldsLastWrite(lib, ds[..n], k);
    }
  }

  predicate Sane(d: Drone) { d.zoom.Val() >= 1.0 && d.rthAlt.Val() >= 0.0 && d.mode >= 0 }

  lemma {:induction false} DroneStaysSane(lib: JsonC, ds: seq<Datagram>)
    ensures Sane(Serve(lib, ds).0.drone)
  {
    hide Take, WriteOf;
    if ds != [] {
      var n := |ds| - 1;
      var st := Serve(lib, ds[..n]).0;
      DroneStaysSane(lib, ds[..n]);
      WrittenSane(lib, ds[n]);
      TakeWrites(lib, st, ds[n], Zoom);
      TakeWrites(lib, st, ds[n], Altitude);
      TakeWrites(lib, st, ds[n], Mode);
    }
  }

  lemma WrittenSane(lib: JsonC, d: Datagram)
    ensures WriteOf(lib, d).Some? ==>
            var w := WriteOf(lib, d).value;
            && (w.kind == Zoom ==> w.Level? && w.x.Val() >= 1.0)
            && (w.kind == Altitude ==> w.Level? && w.x.Val() >= 0.0)
            && (w.kind == Mode ==> w.Choice? && w.n >= 0)
  {
    hide Fields, MethodIn, Given;
  }

  // ---- Uptime over a run ----

  /** Clock readings are normalised and never go back, within a request or between requests. */
  ghost predicate Clocked(ds: seq<Datagram>) {
    && (forall i :: 0 <= i < |ds| ==>
          ds[i].inp.t0.Normal() && ds[i].inp.t1.Normal() && ds[i].inp.t0.Ns() <= ds[i].inp.t1.Ns())
    && (forall i, j :: 0 <= i < j < |ds| ==> ds[i].inp.t1.Ns() <= ds[j].inp.t0.Ns())
  }

  lemma TakeStart(lib: JsonC, st: State, d: Datagram)
    ensures Take(lib, st, d).0.start == if Asks(lib, d, "system.ping") then Some(StartOf(st.start, d.inp)) else st.start
  {
    hide ParseRequest, Line, ReplyOf, ExecRead, ExecWrite, ExecPing, Dispatch, Fields, Params, IdIn, MethodIn;
    RequestReads(lib, d);
    if Fields(lib, d).Some? { Named(Ping, MethodIn(lib, Fields(lib, d).value)); }
  }

  /** The start time is the first reading of the first ping, and stays. */
  lemma {:induction false} StartIsFirstPing(lib: JsonC, ds: seq<Datagram>, i: nat)
    requires i < |ds| && Asks(lib, ds[i], "system.ping") && forall j :: 0 <= j < i ==> !Asks(lib, ds[j], "system.ping")
    ensures Serve(lib, ds).0.start == Some(ds[i].inp.t0)
  {
    hide Take, Asks;
    var n := |ds| - 1;
    TakeStart(lib, Serve(lib, ds[..n]).0, ds[n]);
    if i < n {
      StartIsFirstPing(lib, ds[..n], i);
    } else {
      NoPingNoStart(lib, ds[..n]);
    }
  }

  lemma {:induction false} NoPingNoStart(lib: JsonC, ds: seq<Datagram>)
    requires forall j :: 0 <= j < |ds| ==> !Asks(lib, ds[j], "system.ping")
    ensures Serve(lib, ds).0.start == None
  {
    hide Take, Asks;
    if ds != [] {
      var n := |ds| - 1;
      TakeStart(lib, Serve(lib, ds[..n]).0, ds[n]);
      NoPingNoStart(lib, ds[..n]);
    }
  }

  /** The number a ping at position `k` reports. */
  function Reported(lib: JsonC, ds: seq<Datagram>, k: nat): int
    requires k < |ds|
  {
    UptimeMs(StartOf(Serve(lib, ds[..k]).0.start, ds[k].inp), ds[k].inp.t1)
  }

  lemma ReportedFrom(lib: JsonC, ds: seq<Datagram>, i: nat, k: nat)
    requires i <= k < |ds| && Asks(lib, ds[i], "system.ping") && forall j :: 0 <= j < i ==> !Asks(lib, ds[j], "system.ping")
    ensures Reported(lib, ds, k) == UptimeMs(ds[i].inp.t0, ds[k].inp.t1)
  {
    hide Asks, UptimeMs, Serve;
    if i == k {
      NoPingNoStart(lib, ds[..k]);
    } else {
      StartIsFirstPing(lib, ds[..k], i);
    }
  }

  /** Over any run with a monotone clock, each ping reports the whole milliseconds since the first
      ping, and the reports never decrease. */
  lemma UptimeOverRun(lib: JsonC, ds: seq<Datagram>, i: nat, k: nat, l: nat)
    requires Clocked(ds) && i <= k <= l < |ds| && Asks(lib, ds[i], "system.ping")
    requires forall j :: 0 <= j < i ==> !Asks(lib, ds[j], "system.ping")
    ensures Reported(lib, ds, k) == (ds[k].inp.t1.Ns() - ds[i].inp.t0.Ns()) / 1_000_000
    ensures 0 <= Reported(lib, ds, k) <= Reported(lib, ds, l)
  {
    hide Asks, UptimeMs, Reported, Timespec.Ns;
    ReportedFrom(lib, ds, i, k);
    ReportedFrom(lib, ds, i, l);
    UptimeExact(ds[i].inp.t0, ds[k].inp.t1);
    UptimeMonotone(ds[i].inp.t0, ds[k].inp.t1, ds[l].inp.t1);
  }
}
