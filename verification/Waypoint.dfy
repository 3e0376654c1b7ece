/** The lazily initialised waypoint module and the KMZ upload of drone_ctrl.c (real build), as the
    trace of SDK, file and heap calls they make under arbitrary failures. */
module Waypoint {

  const U32_SPAN: nat := 0x1_0000_0000

  datatype Event =
    | Init(ok: bool) | RegMission(ok: bool) | RegAction(ok: bool) | DeInit(ok: bool)
    | Open(file: nat) | Close(file: nat)
    | Malloc(buf: nat, size: nat) | Release(buf: nat)
    | Read(file: nat, buf: nat, asked: nat)
    | Upload(buf: nat, len: nat, ok: bool)

  // ---- What a trace says ----

  /** Handles of the files open after a trace. */
  function Files(tr: seq<Event>): set<nat> {
    if tr == [] then {}
    else
      var fs := Files(tr[..|tr| - 1]);
      match tr[|tr| - 1]
      case Open(f) => fs + {f}
      case Close(f) => fs - {f}
      case _ => fs
  }

  /** Buffers allocated and not freed, with their sizes. */
  function Bufs(tr: seq<Event>): map<nat, nat> {
    if tr == [] then map[]
    else
      var bs := Bufs(tr[..|tr| - 1]);
      match tr[|tr| - 1]
      case Malloc(b, n) => bs[b := n]
      case Release(b) => bs - {b}
      case _ => bs
  }

  /** How many bytes were asked for into each live buffer since it was allocated. */
  function Filled(tr: seq<Event>): map<nat, nat> {
    if tr == [] then map[]
    else
      var fs := Filled(tr[..|tr| - 1]);
      match tr[|tr| - 1]
      case Malloc(b, _) => fs - {b}
      case Read(_, b, n) => fs[b := n]
      case _ => fs
  }

  /** A successful Init and then both registrations, with no DeInit since. */
  ghost predicate Ready(tr: seq<Event>) {
    exists i: nat, j: nat, k: nat :: ReadyBy(tr, i, j, k)
  }

  predicate ReadyBy(tr: seq<Event>, i: nat, j: nat, k: nat) {
    i < j < k < |tr| && tr[i] == Init(true) && tr[j] == RegMission(true) && tr[k] == RegAction(true)
    && DeInit(true) !in tr[i..] && DeInit(false) !in tr[i..]
  }

  /** A call that is in order after `before`: handles are new when opened and held when used, freed
      or closed, and an upload sends a whole live buffer, filled from a file of that size (modulo
      2^32), with the module ready. */
  ghost predicate InOrder(before: seq<Event>, e: Event) {
    match e
    case Open(f) => Open(f) !in before
    case Close(f) => f in Files(before)
    case Malloc(b, n) => forall m :: Malloc(b, m) !in before
    case Release(b) => b in Bufs(before)
    case Read(f, b, _) => f in Files(before) && b in Bufs(before)
    case Upload(b, len, _) =>
      && b in Bufs(before) && Bufs(before)[b] == len
      && b in Filled(before) && Filled(before)[b] % U32_SPAN == len && Ready(before)
    case _ => true
  }

  ghost predicate Legal(tr: seq<Event>) {
    tr == [] || (Legal(tr[..|tr| - 1]) && InOrder(tr[..|tr| - 1], tr[|tr| - 1]))
  }

  lemma Snoc(tr: seq<Event>, e: Event)
    ensures (tr + [e])[..|tr + [e]| - 1] == tr && (tr + [e])[|tr + [e]| - 1] == e
  {
  }

  // ---- Consequences for whole traces ----

  function Count(tr: seq<Event>, e: Event): nat {
    if tr == [] then 0 else Count(tr[..|tr| - 1], e) + (if tr[|tr| - 1] == e then 1 else 0)
  }

  lemma {:induction false} CountAbsent(tr: seq<Event>, e: Event)
    requires e !in tr
    ensures Count(tr, e) == 0
  {
    if tr != [] { CountAbsent(tr[..|tr| - 1], e); }
  }

  /** A file is opened at most once, and closed once unless it is still open. */
  lemma {:induction false} OpenCloseBalance(tr: seq<Event>, f: nat)
    requires Legal(tr)
    ensures Count(tr, Open(f)) <= 1
    ensures Count(tr, Open(f)) == Count(tr, Close(f)) + (if f in Files(tr) then 1 else 0)
  {
    hide Ready, Bufs, Filled;
    if tr != [] {
      var before, e := tr[..|tr| - 1], tr[|tr| - 1];
      OpenCloseBalance(before, f);
      if e == Open(f) { CountAbsent(before, Open(f)); }
    }
  }

  function Mallocs(tr: seq<Event>, b: nat): nat {
    if tr == [] then 0
    else Mallocs(tr[..|tr| - 1], b) + (if tr[|tr| - 1].Malloc? && tr[|tr| - 1].buf == b then 1 else 0)
  }

  lemma {:induction false} NoMalloc(tr: seq<Event>, b: nat)
    requires forall m :: Malloc(b, m) !in tr
    ensures Mallocs(tr, b) == 0
  {
    if tr != [] {
      var e := tr[|tr| - 1];
      assert e in tr;
      assert e.Malloc? ==> e == Malloc(e.buf, e.size);
      NoMalloc(tr[..|tr| - 1], b);
    }
  }

  /** A buffer is allocated at most once, and freed once unless it is still held. */
  lemma {:induction false} MallocReleaseBalance(tr: seq<Event>, b: nat)
    requires Legal(tr)
    ensures Mallocs(tr, b) <= 1
    ensures Mallocs(tr, b) == Count(tr, Release(b)) + (if b in Bufs(tr) then 1 else 0)
  {
    hide Ready, Files, Filled;
    if tr != [] {
      var before, e := tr[..|tr| - 1], tr[|tr| - 1];
      MallocReleaseBalance(before, b);
      if e.Malloc? && e.buf == b { NoMalloc(before, b); }
    }
  }

  /** Each upload in a legal trace happened with the module initialised and both callbacks
      registered, no DeInit in between. */
  lemma {:induction false} UploadsWereReady(tr: seq<Event>, k: nat)
    requires Legal(tr) && k < |tr| && tr[k].Upload?
    ensures Ready(tr[..k])
  {
    hide Ready;
    if k < |tr| - 1 {
      UploadsWereReady(tr[..|tr| - 1], k);
      assert tr[..|tr| - 1][..k] == tr[..k];
    }
  }

  /** Initialisations that were never undone. */
  function Undone(tr: seq<Event>): int {
    var up: int, down: int := Count(tr, Init(true)), Count(tr, DeInit(true));
    up - down
  }

  function RegFailures(tr: seq<Event>): nat {
    Count(tr, RegMission(false)) + Count(tr, RegAction(false))
  }

  function DeInitFailures(tr: seq<Event>): nat { Count(tr, DeInit(false)) }

  predicate SameFailures(tr: seq<Event>, tr': seq<Event>) {
    RegFailures(tr') == RegFailures(tr) && DeInitFailures(tr') == DeInitFailures(tr)
  }

  /** How many reads asked for more bytes than their buffer holds. */
  function Overruns(tr: seq<Event>): nat {
    if tr == [] then 0
    else
      var before, e := tr[..|tr| - 1], tr[|tr| - 1];
      Overruns(before) + (if e.Read? && e.buf in Bufs(before) && e.asked > Bufs(before)[e.buf] then 1 else 0)
  }

  /** The lengths handed to the SDK's upload call, in order. */
  function Uploads(tr: seq<Event>): seq<nat> {
    if tr == [] then []
    else Uploads(tr[..|tr| - 1]) + (if tr[|tr| - 1].Upload? then [tr[|tr| - 1].len] else [])
  }

  lemma ReadyGrows(tr: seq<Event>, e: Event)
    requires Ready(tr) && !e.DeInit?
    ensures Ready(tr + [e])
  {
    var i: nat, j: nat, k: nat :| ReadyBy(tr, i, j, k);
    assert (tr + [e])[i..] == tr[i..] + [e];
    assert ReadyBy(tr + [e], i, j, k);
  }

  lemma ReadyStarts(tr: seq<Event>)
    ensures Ready(tr + [Init(true)] + [RegMission(true)] + [RegAction(true)])
  {
    var t := tr + [Init(true)] + [RegMission(true)] + [RegAction(true)];
    assert t[|tr|..] == [Init(true), RegMission(true), RegAction(true)];
    assert ReadyBy(t, |tr|, |tr| + 1, |tr| + 2);
  }

  // ---- The code ----

  /** No handle from `n` on occurs in the trace. */
  ghost predicate Unused(tr: seq<Event>, n: nat) {
    (forall f :: f >= n ==> Open(f) !in tr) && (forall b, m :: b >= n ==> Malloc(b, m) !in tr)
  }

  predicate HandleBelow(e: Event, n: nat) {
    (e.Open? ==> e.file < n) && (e.Malloc? ==> e.buf < n)
  }

  lemma UnusedHandles(tr: seq<Event>, n: nat, b: nat)
    requires Unused(tr, n) && b >= n
    ensures Open(n) !in tr && (forall m :: Malloc(b, m) !in tr) && Unused(tr, n + 2)
  {
  }

  const OK: int := 0
  const ERR_PSDK: int := -1
  const ERR_PARAM: int := -2
  const ERR_UNKNOWN: int := -99

  class WaypointModule {
    var inited: bool
    var handles: nat           // next unused file or buffer handle
    var trace: seq<Event>

    constructor ()
      ensures Valid() && trace == [] && !inited
    {
      inited, handles, trace := false, 0, [];
    }

    /** Between calls nothing is held. */
    ghost predicate Valid()
      reads this
    {
      Inside() && Files(trace) == {} && Bufs(trace) == map[]
    }

    /** Every call so far was in order, the flag is never up without the module being ready, and every
        successful Init is accounted for by a successful DeInit, by a failed registration, by a failed
        DeInit, or by the flag. */
    ghost predicate Inside()
      reads this
    {
      && Legal(trace) && Unused(trace, handles)
      && (inited ==> Ready(trace))
      && Undone(trace) == RegFailures(trace) + DeInitFailures(trace) + (if inited then 1 else 0)
    }

    /** A call of the waypoint SDK other than an upload. */
    method Setup(e: Event)
      requires Legal(trace) && Unused(trace, handles) && (e.Init? || e.RegMission? || e.RegAction? || e.DeInit?)
      modifies this`trace
      ensures Legal(trace) && Unused(trace, handles) && trace == old(trace) + [e]
      ensures Undone(trace) == old(Undone(trace)) + (if e == Init(true) then 1 else if e == DeInit(true) then -1 else 0)
      ensures DeInitFailures(trace) == old(DeInitFailures(trace)) + (if e == DeInit(false) then 1 else 0)
      ensures RegFailures(trace) == old(RegFailures(trace)) + (if e == RegMission(false) || e == RegAction(false) then 1 else 0)
      ensures Files(trace) == old(Files(trace)) && Bufs(trace) == old(Bufs(trace)) && Uploads(trace) == old(Uploads(trace))
      ensures Overruns(trace) == old(Overruns(trace))
    {
      hide Ready;
      Snoc(trace, e);
      trace := trace + [e];
    }

    /** A file or heap call, or an upload. */
    method Use(e: Event)
      requires Inside() && InOrder(trace, e) && HandleBelow(e, handles)
      requires !e.Init? && !e.RegMission? && !e.RegAction? && !e.DeInit?
      modifies this`trace
      ensures Inside() && trace == old(trace) + [e] && SameFailures(old(trace), trace)
      ensures Files(trace) == match e case Open(f) => old(Files(trace)) + {f} case Close(f) => old(Files(trace)) - {f} case _ => old(Files(trace))
      ensures Bufs(trace) == match e case Malloc(b, n) => old(Bufs(trace))[b := n] case Release(b) => old(Bufs(trace)) - {b} case _ => old(Bufs(trace))
      ensures Uploads(trace) == old(Uploads(trace)) + (if e.Upload? then [e.len] else [])
      ensures Overruns(trace) == old(Overruns(trace)) +
        (if e.Read? && e.asked > old(Bufs(trace))[e.buf] then 1 else 0)
      ensures Filled(trace) == match e case Malloc(b, _) => old(Filled(trace)) - {b} case Read(_, b, n) => old(Filled(trace))[b := n] case _ => old(Filled(trace))
    {
      hide Ready;
      Snoc(trace, e);
      if inited { ReadyGrows(trace, e); }
      trace := trace + [e];
    }

    /** ensure_waypoint_v3_ready, with the outcomes of the three SDK calls. */
    method EnsureReady(initOk: bool, missionOk: bool, actionOk: bool) returns (err: int)
      requires Valid()
      modifies this`inited, this`trace
      ensures Valid() && old(trace) <= trace && Uploads(trace) == old(Uploads(trace)) && Overruns(trace) == old(Overruns(trace))
      ensures DeInitFailures(trace) == old(DeInitFailures(trace))
      ensures err == (if old(inited) || (initOk && missionOk && actionOk) then OK else ERR_PSDK)
      ensures inited == (err == OK)
      ensures RegFailures(trace) == old(RegFailures(trace)) + (if !old(inited) && initOk && !(missionOk && actionOk) then 1 else 0)
    {
      hide Ready, Legal, Files, Bufs, Filled, Uploads, Overruns, Undone, RegFailures, DeInitFailures, Unused;
      if inited {
        return OK;
      }
      ghost var before := trace;
      Setup(Init(initOk));
      if !initOk { return ERR_PSDK; }
      Setup(RegMission(missionOk));
      if !missionOk { return ERR_PSDK; }
      Setup(RegAction(actionOk));
      if !actionOk { return ERR_PSDK; }
      ReadyStarts(before);
      inited := true;
      return OK;
    }

    /** The waypoint part of drone_ctrl_deinit. A failing DeInit is only logged and the flag cleared all
        the same, so an Init stays undone for it, as for each registration that failed. */
    method Deinit(ok: bool)
      requires Valid()
      modifies this`inited, this`trace
      ensures Valid() && !inited && old(trace) <= trace
      ensures Undone(trace) == RegFailures(trace) + DeInitFailures(trace)
      ensures RegFailures(trace) == old(RegFailures(trace))
      ensures DeInitFailures(trace) == old(DeInitFailures(trace)) + (if old(inited) && !ok then 1 else 0)
      ensures Uploads(trace) == old(Uploads(trace)) && Overruns(trace) == old(Overruns(trace))
    {
      hide Ready, Legal, Files, Bufs, Filled, Uploads, Overruns, Undone, RegFailures, DeInitFailures, Unused;
      if inited {
        Setup(DeInit(ok));
        inited := false;
      }
    }

    /** drone_upload_kmz */
    method UploadKmz(path: string, io: Io) returns (err: int)
      requires Valid()
      modifies this
      ensures Valid() && old(trace) <= trace
      ensures ErrorTells(err, path != [], old(inited) || io.SdkUp(), io)
      ensures var reached := path != [] && (old(inited) || io.SdkUp()) && io.FileRead();
              && Uploads(trace) == old(Uploads(trace)) + (if reached then [io.size % 0x1_0000_0000] else [])
              && (err == 0 <==> reached && io.uploadOk)
              && (reached ==> (Uploads(trace)[|Uploads(trace)| - 1] == io.size <==> io.size < 0x1_0000_0000))
      ensures RegFailures(trace) == old(RegFailures(trace)) + (if path != [] && !old(inited) && io.RegFails() then 1 else 0)
      ensures DeInitFailures(trace) == old(DeInitFailures(trace))
      ensures Overruns(trace) == old(Overruns(trace)) +
        (if path != [] && (old(inited) || io.SdkUp()) && io.FileOpened() && io.size >= 0x1_0000_0000 then 1 else 0)
      ensures inited == (old(inited) || (path != [] && io.SdkUp()))
    {
      hide Ready, Legal, Files, Bufs, Filled, Uploads, Overruns, Undone, RegFailures, DeInitFailures, Unused;
      if path == [] { return ERR_PARAM; }
      err := EnsureReady(io.initOk, io.missionOk, io.actionOk);
      if err != OK { return err; }
      if !io.openOk { return ERR_PARAM; }
      err := Transfer(io);
    }

    /** From a successful fopen on. */
    method Transfer(io: Io) returns (err: int)
      requires Valid() && inited && io.openOk
      modifies this`trace, this`handles
      ensures Valid() && old(trace) <= trace && SameFailures(old(trace), trace)
      ensures Uploads(trace) == old(Uploads(trace)) + (if io.FileRead() then [io.size % U32_SPAN] else [])
      ensures Overruns(trace) == old(Overruns(trace)) + (if io.FileOpened() && io.size >= U32_SPAN then 1 else 0)
      ensures err == TransferError(io)
    {
      hide Ready, Legal, Files, Bufs, Filled, Uploads, Overruns, Undone, RegFailures, DeInitFailures, Unused;
      var file, buf := handles, handles + 1;
      UnusedHandles(trace, handles, buf);
      handles := handles + 2;
      Use(Open(file));
      if !io.seekEndOk { Use(Close(file)); return ERR_UNKNOWN; }
      if io.size <= 0 { Use(Close(file)); return ERR_PARAM; }
      if !io.seekSetOk { Use(Close(file)); return ERR_UNKNOWN; }
      if !io.osalOk { Use(Close(file)); return ERR_PSDK; }
      if !io.mallocOk { Use(Close(file)); return ERR_UNKNOWN; }
      err := SendFile(io, file, buf);
    }

    /** From a successful Malloc on. */
    method SendFile(io: Io, file: nat, buf: nat) returns (err: int)
      requires Inside() && inited && io.size > 0 && Files(trace) == {file} && Bufs(trace) == map[]
      requires file < handles && buf < handles && forall m :: Malloc(buf, m) !in trace
      modifies this`trace
      ensures Valid() && old(trace) <= trace && SameFailures(old(trace), trace)
      ensures Uploads(trace) == old(Uploads(trace)) + (if io.got == io.size then [io.size % U32_SPAN] else [])
      ensures Overruns(trace) == old(Overruns(trace)) + (if io.size >= U32_SPAN then 1 else 0)
      ensures err == if io.got != io.size then ERR_UNKNOWN else if io.uploadOk then OK else ERR_PSDK
    {
      hide Ready, Legal, Files, Bufs, Filled, Uploads, Overruns, Undone, RegFailures, DeInitFailures, Unused;
      var size := io.size % U32_SPAN;
      Use(Malloc(buf, size));
      Use(Read(file, buf, io.size));
      Use(Close(file));
      if io.got != io.size {
        Use(Release(buf));
        assert Bufs(trace) == map[];
        return ERR_UNKNOWN;
      }
      Use(Upload(buf, size, io.uploadOk));
      Use(Release(buf));
      assert Bufs(trace) == map[];
      err := if io.uploadOk then OK else ERR_PSDK;
    }
  }

  /** What the outside answers during one upload. */
  datatype Io = Io(
    initOk: bool, missionOk: bool, actionOk: bool, openOk: bool, seekEndOk: bool, size: int, seekSetOk: bool,
    osalOk: bool, mallocOk: bool, got: int, uploadOk: bool)
  {
    predicate SdkUp() { initOk && missionOk && actionOk }
    predicate RegFails() { initOk && !(missionOk && actionOk) }
    predicate FileMeasured() { openOk && seekEndOk && size > 0 && seekSetOk }
    /** Everything up to the fread went well. */
    predicate FileOpened() { openOk && seekEndOk && size > 0 && seekSetOk && osalOk && mallocOk }
    predicate FileRead() { FileOpened() && got == size }
  }

  /** The error code of the first thing that goes wrong after fopen. */
  function TransferError(io: Io): int {
    if !io.seekEndOk then ERR_UNKNOWN
    else if io.size <= 0 then ERR_PARAM
    else if !io.seekSetOk then ERR_UNKNOWN
    else if !io.osalOk then ERR_PSDK
    else if !io.mallocOk || io.got != io.size then ERR_UNKNOWN
    else if !io.uploadOk then ERR_PSDK
    else OK
  }

  /** What each error code tells the caller, for a path that was `given` and a module that came `up`:
      -2, the path or the file is no good; -1, the SDK refused; -99, reading the file failed. */
  predicate ErrorTells(err: int, given: bool, up: bool, io: Io) {
    && (err == -2 <==> !given || (up && (!io.openOk || (io.seekEndOk && io.size <= 0))))
    && (err == -1 <==> given && (!up || (io.FileMeasured() && (!io.osalOk || (io.FileRead() && !io.uploadOk)))))
    && (err == -99 <==>
          given && up && io.openOk
          && (!io.seekEndOk || (io.size > 0 && !io.seekSetOk) || (io.FileMeasured() && io.osalOk && !io.FileRead())))
    && (err == 0 <==> given && up && io.FileRead() && io.uploadOk)
    && err in {0, -1, -2, -99}
  }

  // ---- Whole runs ----

  datatype Op = Send(path: string, io: Io) | Shutdown(ok: bool)

  /** Any sequence of uploads and shutdowns, then a final shutdown: every file opened was closed once,
      every buffer freed once, every upload found the module ready, no read overran its buffer if all
      files are below 4 GiB; and as many successful Inits stay undone as registrations and DeInits
      failed. */
  method Run(ops: seq<Op>, lastOk: bool) returns (tr: seq<Event>)
    ensures forall f :: Count(tr, Open(f)) == Count(tr, Close(f)) <= 1
    ensures forall b :: Mallocs(tr, b) == Count(tr, Release(b)) <= 1
    ensures forall k :: 0 <= k < |tr| && tr[k].Upload? ==> Ready(tr[..k])
    ensures Undone(tr) == RegFailures(tr) + DeInitFailures(tr)
    ensures (forall n :: 0 <= n < |ops| && ops[n].Send? ==> ops[n].io.size < U32_SPAN) ==> Overruns(tr) == 0
  {
    hide Ready, Legal, Files, Bufs, Filled, Uploads, Overruns, Undone, RegFailures, DeInitFailures, Unused, Count;
    var m := new WaypointModule();
    assert Overruns(m.trace) == 0 by { NothingHappened(); }
    for n := 0 to |ops|
      invariant fresh(m) && m.Valid()
      invariant (forall n :: 0 <= n < |ops| && ops[n].Send? ==> ops[n].io.size < U32_SPAN) ==> Overruns(m.trace) == 0
    {
      match ops[n]
      case Send(path, io) => var err := m.UploadKmz(path, io);
      case Shutdown(ok) => m.Deinit(ok);
    }
    m.Deinit(lastOk);
    tr := m.trace;
    TraceFacts(tr);
  }

  lemma TraceFacts(tr: seq<Event>)
    requires Legal(tr) && Files(tr) == {} && Bufs(tr) == map[]
    ensures forall f :: Count(tr, Open(f)) == Count(tr, Close(f)) <= 1
    ensures forall b :: Mallocs(tr, b) == Count(tr, Release(b)) <= 1
    ensures forall k :: 0 <= k < |tr| && tr[k].Upload? ==> Ready(tr[..k])
  {
    hide Ready, Legal, Files, Bufs, Filled, Count, Mallocs;
    forall f: nat ensures Count(tr, Open(f)) == Count(tr, Close(f)) <= 1 { OpenCloseBalance(tr, f); }
    forall b: nat ensures Mallocs(tr, b) == Count(tr, Release(b)) <= 1 { MallocReleaseBalance(tr, b); }
    forall k: nat | k < |tr| && tr[k].Upload? ensures Ready(tr[..k]) { UploadsWereReady(tr, k); }
  }

  /** So shutting down does not always undo the initialisation: one failed registration leaves one
      Init without its DeInit. */
  method FailedRegistrationLeavesInit(io: Io) returns (tr: seq<Event>)
    requires io.RegFails()
    ensures Undone(tr) == 1 && DeInitFailures(tr) == 0
  {
    hide Ready, Legal, Files, Bufs, Filled, Uploads, Overruns, Undone, RegFailures, DeInitFailures, Unused;
    var m := new WaypointModule();
    assert RegFailures(m.trace) == 0 && DeInitFailures(m.trace) == 0 by { NothingHappened(); }
    var err := m.UploadKmz("a.kmz", io);
    m.Deinit(true);
    tr := m.trace;
  }

  /** And so does a DeInit that fails, with every registration in order: the next upload initialises a
      module that was never taken down. */
  method FailedDeInitLeavesInit(io: Io) returns (tr: seq<Event>)
    requires io.SdkUp()
    ensures Undone(tr) == 1 && RegFailures(tr) == 0
  {
    hide Ready, Legal, Files, Bufs, Filled, Uploads, Overruns, Undone, RegFailures, DeInitFailures, Unused;
    var m := new WaypointModule();
    assert RegFailures(m.trace) == 0 && DeInitFailures(m.trace) == 0 by { NothingHappened(); }
    var err := m.UploadKmz("a.kmz", io);
    m.Deinit(false);
    tr := m.trace;
  }

  lemma NothingHappened()
    ensures RegFailures([]) == 0 && DeInitFailures([]) == 0 && Overruns([]) == 0
  {
  }
}
