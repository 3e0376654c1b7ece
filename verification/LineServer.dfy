/** The epoll line server as a state machine: the kernel it talks to, its client table, and every
    atomic step either of them can take. All nondeterminism (peers, read sizes, failures, the
    message callback) sits in the action, so a run is a sequence of actions. */
module LineServer {
  import opened Framing

  const MAX_CLIENTS: nat := 8
  const RECV_BUF_LEN: nat := 8192
  const FREE: int := -1

  // ---- Kernel ----

  /** One accepted connection, from accept() to the end of the run. `caller` numbers the callers in
      the order in which they reached the listening socket, `got` is what the server has read, `unread` what waits in the socket, `broken` says that the next read() fails, `lines` what
      was handed to the message callback, `closes` how often its descriptor was closed. */
  datatype Conn = Conn(
    caller: nat, fd: int, got: string, unread: string, eof: bool, broken: bool, lines: seq<string>, closes: nat)
  {
    function Sent(): string { got + unread }
    predicate Readable() { unread != [] || eof || broken }
  }

  /** What a peer adds to its connection: bytes, the end of its stream, a failure. */
  datatype Input = Input(bytes: string, eof: bool, broken: bool)

  /** Nothing follows a failure, and no bytes follow the end of the stream. */
  predicate Follows(eof: bool, broken: bool, inp: Input) {
    !broken && (eof ==> inp.bytes == [] && !inp.eof) && (inp.bytes != [] || inp.eof || inp.broken)
  }

  /** A connection waiting at the listening socket, with what its peer has sent already. */
  datatype Caller = Caller(id: nat, inp: Input)

  function Queued(c: Caller, inp: Input): Caller {
    c.(inp := Input(c.inp.bytes + inp.bytes, c.inp.eof || inp.eof, c.inp.broken || inp.broken))
  }

  function NewConn(f: int, c: Caller): Conn {
    Conn(c.id, f, [], c.inp.bytes, c.inp.eof, c.inp.broken, [], 0)
  }

  function Arrived(c: Conn, inp: Input): Conn {
    c.(unread := c.unread + inp.bytes, eof := c.eof || inp.eof, broken := c.broken || inp.broken)
  }

  /** `table` maps open client descriptors to connections; `servers` holds the open descriptors among
      the listening socket and the epoll instance; `edges` are the client descriptors with an
      edge-triggered event that epoll_wait has not returned yet; `waiting` are the callers not accepted
      yet, first come first, and `arrived` counts all there ever were. */
  datatype Kernel = Kernel(
    listenFd: int, epollFd: int, servers: set<int>,
    conns: seq<Conn>, table: map<int, nat>, interest: set<int>, edges: set<int>,
    waiting: seq<Caller>, arrived: nat)
  {
    predicate Has(f: int) { f in table && table[f] < |conns| }

    function Peer(f: int): Conn
      requires Has(f)
    {
      conns[table[f]]
    }

    function Update(f: int, c: Conn): Kernel
      requires Has(f)
    {
      this.(conns := conns[table[f] := c])
    }

    /** accept(): any descriptor number that is not open, possibly one used before. */
    predicate CanAccept(f: int) { f >= 0 && f != listenFd && f != epollFd && f !in table }

    /** accept() yields a connection exactly if one waits and the number is usable: a negative answer
        stands for a failure. */
    predicate Takes(f: int) { waiting != [] && CanAccept(f) }

    function Accept(f: int): Kernel
      requires waiting != []
    {
      this.(conns := conns + [NewConn(f, waiting[0])], table := table[f := |conns|], waiting := waiting[1..])
    }

    function Connect(): Kernel {
      this.(waiting := waiting + [Caller(arrived, Input([], false, false))], arrived := arrived + 1)
    }

    /** EPOLL_CTL_DEL followed by close(). */
    function Close(f: int): Kernel
      requires Has(f)
    {
      Update(f, Peer(f).(closes := Peer(f).closes + 1))
        .(table := table - {f}, interest := interest - {f}, edges := edges - {f})
    }

    /** EPOLL_CTL_ADD with EPOLLET: data already waiting raises an edge at once. */
    function Add(f: int): Kernel
      requires Has(f)
    {
      this.(interest := interest + {f}, edges := if Peer(f).Readable() then edges + {f} else edges)
    }

    function Read(f: int, n: nat): Kernel
      requires Has(f) && n <= |Peer(f).unread|
    {
      var c := Peer(f);
      Update(f, c.(got := c.got + c.unread[..n], unread := c.unread[n..]))
    }

    function Raise(f: int): Kernel {
      this.(edges := if f in interest then edges + {f} else edges)
    }

    /** Something reaches the socket `f` from its peer. */
    predicate CanDeliver(f: int, inp: Input) {
      Has(f) && Follows(Peer(f).eof, Peer(f).broken, inp)
    }

    function Deliver(f: int, inp: Input): Kernel
      requires Has(f)
    {
      Update(f, Arrived(Peer(f), inp)).Raise(f)
    }

    /** Bookkeeping, not a system call: a message of connection `f` reached the callback. */
    function Log(f: int, line: string): Kernel
      requires Has(f)
    {
      Update(f, Peer(f).(lines := Peer(f).lines + [line]))
    }
  }

  // ---- Server ----

  /** A client slot: its descriptor (FREE when unused) and the received bytes not dispatched yet. */
  datatype Slot = Slot(fd: int, pend: string)

  /** What the kernel will answer when the server accepts: the new descriptor, negative for a failure,
      and whether epoll agrees to watch it. */
  datatype Answer = Answer(fd: int, added: bool)

  /** A descriptor epoll_wait reports, with the answer should it be the listening socket. */
  datatype Event = Event(fd: int, answer: Answer)

  datatype Control =
    | Idle                                        // outside tcp_server_poll
    | Batch(todo: seq<Event>)                       // events of this epoll_wait still to handle
    | Adding(slot: nat, todo: seq<Event>, added: bool)  // client stored, not registered with epoll yet
    | Draining(slot: nat, todo: seq<Event>)         // read loop of recv_client
    | Dispatching(slot: nat, todo: seq<Event>)      // line loop of recv_client
    | InCallback(slot: nat, todo: seq<Event>, close: bool)  // on_message is running and will answer `close`
    | Destroying(next: nat)                       // close loop of tcp_server_destroy
    | Destroyed
  {
    predicate Busy() { Adding? || Draining? || Dispatching? || InCallback? }
  }

  datatype State = State(k: Kernel, slots: seq<Slot>, count: int, ctl: Control)

  function Start(listenFd: int, epollFd: int): State {
    State(Kernel(listenFd, epollFd, {listenFd, epollFd}, [], map[], {}, {}, [], 0),
          seq(MAX_CLIENTS, _ => Slot(FREE, [])), 0, Idle)
  }

  datatype Why = Full | Eof | Error

  datatype Act =
    | Deliver(fd: int, inp: Input) | Connect | CallerSends(index: nat, inp: Input)
    | Wait(events: seq<Event>) | EndBatch
    | AcceptFails(fd: int) | Refuse(fd: int) | Store(fd: int)
    | AddOk | AddFails
    | SkipStale | BeginRecv
    | ReadData(n: nat) | ReadAgain | Drop(why: Why)
    | NextLine(close: bool) | Verdict | EndRecv
    | CloseClient(fd: int)
    | BeginDestroy | DestroySlot | CloseServer

  /** First slot at or after `from` holding descriptor `fd`, or |slots| (find_client). */
  function IndexOf(slots: seq<Slot>, fd: int, from: nat := 0): (i: nat)
    requires from <= |slots|
    ensures from <= i <= |slots|
    ensures i < |slots| ==> slots[i].fd == fd
    ensures forall j :: from <= j < i ==> slots[j].fd != fd
    decreases |slots| - from
  {
    if from == |slots| || slots[from].fd == fd then from else IndexOf(slots, fd, from + 1)
  }

  /** First unused slot at or after `from`, or |slots| (alloc_client). */
  function FirstFree(slots: seq<Slot>, from: nat := 0): (i: nat)
    requires from <= |slots|
    ensures from <= i <= |slots|
    ensures i < |slots| ==> slots[i].fd < 0
    ensures forall j :: from <= j < i ==> slots[j].fd >= 0
    decreases |slots| - from
  {
    if from == |slots| || slots[from].fd < 0 then from else FirstFree(slots, from + 1)
  }

  /** Number of slots in use. */
  function Used(slots: seq<Slot>): nat {
    if slots == [] then 0 else (if slots[0].fd >= 0 then 1 else 0) + Used(slots[1..])
  }

  predicate HasSlot(s: State, i: nat) {
    i < |s.slots| && s.k.Has(s.slots[i].fd)
  }

  /** free_client. */
  function Free(s: State, i: nat): State
    requires HasSlot(s, i)
  {
    s.(k := s.k.Close(s.slots[i].fd), slots := s.slots[i := Slot(FREE, [])], count := s.count - 1)
  }

  function Message(pend: string): string {
    Strip(pend[..FindLF(pend, 0)])
  }

  /** What epoll_wait may return: pending edges, and the level-triggered listening socket while anyone
      waits there. */
  predicate Deliverable(k: Kernel, events: seq<Event>) {
    && |events| <= MAX_CLIENTS + 1
    && forall e :: e in events ==> e.fd in k.edges || (e.fd == k.listenFd && k.waiting != [])
  }

  predicate Enabled(s: State, a: Act) {
    match a
    case Deliver(fd, inp) => s.k.CanDeliver(fd, inp)
    case Connect => s.k.listenFd in s.k.servers
    case CallerSends(j, inp) =>
      j < |s.k.waiting| && Follows(s.k.waiting[j].inp.eof, s.k.waiting[j].inp.broken, inp)
    case Wait(events) => s.ctl.Idle? && Deliverable(s.k, events)
    case EndBatch => s.ctl.Batch? && s.ctl.todo == []
    case AcceptFails(fd) => AtListen(s) && fd == s.ctl.todo[0].answer.fd && !s.k.Takes(fd)
    case Refuse(fd) => AtListen(s) && fd == s.ctl.todo[0].answer.fd && s.k.Takes(fd) && s.count >= MAX_CLIENTS
    case Store(fd) =>
      && AtListen(s) && fd == s.ctl.todo[0].answer.fd && s.k.Takes(fd) && s.count < MAX_CLIENTS
      && FirstFree(s.slots) < |s.slots|
    case AddOk => s.ctl.Adding? && s.ctl.added && HasSlot(s, s.ctl.slot)
    case AddFails => s.ctl.Adding? && !s.ctl.added && HasSlot(s, s.ctl.slot)
    case SkipStale => AtClient(s) && IndexOf(s.slots, s.ctl.todo[0].fd) == |s.slots|
    case BeginRecv => AtClient(s) && IndexOf(s.slots, s.ctl.todo[0].fd) < |s.slots|
    case ReadData(n) =>
      && s.ctl.Draining? && HasSlot(s, s.ctl.slot)
      && !Current(s).broken && 1 <= n <= |Current(s).unread| && n <= RECV_BUF_LEN - |s.slots[s.ctl.slot].pend| - 1
    case ReadAgain =>
      && s.ctl.Draining? && HasSlot(s, s.ctl.slot)
      && |s.slots[s.ctl.slot].pend| < RECV_BUF_LEN - 1 && !Current(s).Readable()
    case Drop(why) =>
      && s.ctl.Draining? && HasSlot(s, s.ctl.slot)
      && (why.Full? <==> |s.slots[s.ctl.slot].pend| >= RECV_BUF_LEN - 1)
      && (why.Eof? ==> !Current(s).broken && Current(s).unread == [] && Current(s).eof)
      && (why.Error? ==> Current(s).broken)
    case NextLine(_) => s.ctl.Dispatching? && HasSlot(s, s.ctl.slot) && LF in s.slots[s.ctl.slot].pend
    case Verdict => s.ctl.InCallback? && HasSlot(s, s.ctl.slot)
    case EndRecv => s.ctl.Dispatching? && s.ctl.slot < |s.slots| && LF !in s.slots[s.ctl.slot].pend
    case CloseClient(fd) =>
      && fd >= 0
      && (s.ctl.Idle? || (s.ctl.InCallback? && s.ctl.slot < |s.slots| && fd != s.slots[s.ctl.slot].fd))
      && (IndexOf(s.slots, fd) < |s.slots| ==> s.k.Has(fd))
    case BeginDestroy => s.ctl.Idle?
    case DestroySlot =>
      && s.ctl.Destroying? && s.ctl.next < |s.slots|
      && (s.slots[s.ctl.next].fd >= 0 ==> HasSlot(s, s.ctl.next))
    case CloseServer => s.ctl.Destroying? && s.ctl.next == |s.slots|
  }

  predicate AtListen(s: State) {
    s.ctl.Batch? && s.ctl.todo != [] && s.ctl.todo[0].fd == s.k.listenFd
  }

  predicate AtClient(s: State) {
    s.ctl.Batch? && s.ctl.todo != [] && s.ctl.todo[0].fd != s.k.listenFd
  }

  function Current(s: State): Conn
    requires s.ctl.Busy() && HasSlot(s, s.ctl.slot)
  {
    s.k.Peer(s.slots[s.ctl.slot].fd)
  }

  function Apply(s: State, a: Act): State
    requires Enabled(s, a)
  {
    match a
    case Deliver(fd, inp) => s.(k := s.k.Deliver(fd, inp))
    case Connect => s.(k := s.k.Connect())
    case CallerSends(j, inp) => s.(k := s.k.(waiting := s.k.waiting[j := Queued(s.k.waiting[j], inp)]))
    case Wait(events) => s.(k := s.k.(edges := s.k.edges - (set e | e in events :: e.fd)), ctl := Batch(events))
    case EndBatch => s.(ctl := Idle)
    case AcceptFails(_) => s.(ctl := Batch(s.ctl.todo[1..]))
    case Refuse(fd) =>
      s.(k := s.k.Accept(fd).Close(fd), ctl := Batch(s.ctl.todo[1..]))
    case Store(fd) =>
      var i := FirstFree(s.slots);
      State(s.k.Accept(fd), s.slots[i := Slot(fd, [])], s.count + 1, Adding(i, s.ctl.todo[1..], s.ctl.todo[0].answer.added))
    case AddOk => s.(k := s.k.Add(s.slots[s.ctl.slot].fd), ctl := Batch(s.ctl.todo))
    case AddFails => Free(s, s.ctl.slot).(ctl := Batch(s.ctl.todo))
    case SkipStale => s.(ctl := Batch(s.ctl.todo[1..]))
    case BeginRecv => s.(ctl := Draining(IndexOf(s.slots, s.ctl.todo[0].fd), s.ctl.todo[1..]))
    case ReadData(n) =>
      var i := s.ctl.slot;
      var Slot(fd, pend) := s.slots[i];
      s.(k := s.k.Read(fd, n), slots := s.slots[i := Slot(fd, pend + s.k.Peer(fd).unread[..n])])
    case ReadAgain => s.(ctl := Dispatching(s.ctl.slot, s.ctl.todo))
    case Drop(_) => Free(s, s.ctl.slot).(ctl := Batch(s.ctl.todo))
    case NextLine(close) =>
      var i := s.ctl.slot;
      var Slot(fd, pend) := s.slots[i];
      var s' := s.(slots := s.slots[i := Slot(fd, pend[FindLF(pend, 0) + 1..])]);
      if Message(pend) == [] then s'
      else s'.(k := s.k.Log(fd, Message(pend)), ctl := InCallback(i, s.ctl.todo, close))
    case Verdict =>
      if s.ctl.close then Free(s, s.ctl.slot).(ctl := Batch(s.ctl.todo))
      else s.(ctl := Dispatching(s.ctl.slot, s.ctl.todo))
    case EndRecv => s.(ctl := Batch(s.ctl.todo))
    case CloseClient(fd) => if IndexOf(s.slots, fd) < |s.slots| then Free(s, IndexOf(s.slots, fd)) else s
    case BeginDestroy => s.(ctl := Destroying(0))
    case DestroySlot =>
      (if s.slots[s.ctl.next].fd >= 0 then Free(s, s.ctl.next) else s).(ctl := Destroying(s.ctl.next + 1))
    case CloseServer => s.(k := s.k.(servers := {}), ctl := Destroyed)
  }

  // ---- Runs ----

  /** `acts` can be taken one after the other from `s`, ending in `t`. */
  predicate Steps(s: State, acts: seq<Act>, t: State)
    decreases |acts|
  {
    if acts == [] then s == t
    else Enabled(s, acts[0]) && Steps(Apply(s, acts[0]), acts[1..], t)
  }

  ghost predicate Runs(s: State, t: State) {
    exists acts :: Steps(s, acts, t)
  }

  /** Reachable from a freshly created server. */
  ghost predicate Reachable(s: State) {
    exists l: int, e: int :: l >= 0 && e >= 0 && l != e && Runs(Start(l, e), s)
  }

  lemma RunsRefl(s: State)
    ensures Runs(s, s)
  {
    assert Steps(s, [], s);
  }

  lemma {:induction false} StepsConcat(s: State, a: seq<Act>, m: State, b: seq<Act>, t: State)
    requires Steps(s, a, m) && Steps(m, b, t)
    ensures Steps(s, a + b, t)
    decreases |a|
  {
    hide Enabled, Apply;
    if a == [] {
      assert a + b == b;
    } else {
      assert (a + b)[1..] == a[1..] + b;
      StepsConcat(Apply(s, a[0]), a[1..], m, b, t);
    }
  }

  lemma RunsTrans(s: State, m: State, t: State)
    requires Runs(s, m) && Runs(m, t)
    ensures Runs(s, t)
  {
    var a :| Steps(s, a, m);
    var b :| Steps(m, b, t);
    StepsConcat(s, a, m, b, t);
  }

  lemma RunsStep(s: State, t: State, a: Act)
    requires Runs(s, t) && Enabled(t, a)
    ensures Runs(s, Apply(t, a))
  {
    assert Steps(t, [a], Apply(t, a));
    RunsTrans(s, t, Apply(t, a));
  }
}
