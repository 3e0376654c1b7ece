/** tcp_server.c: the slot array and the receive buffers, edited in place. Every method is proved to
    take the server from one state of the LineServer machine to another by legal actions, with the
    bytes in the buffers and the descriptors in the slots agreeing with that machine. */
module TcpServer {
  import opened Framing
  import opened LineServer
  import LineServerInvariant
  import LineServerTheorems

  class Client {
    var fd: int
    const buf: array<char>
    var bufLen: nat

    constructor ()
      ensures fd == FREE && bufLen == 0 && buf.Length == RECV_BUF_LEN && fresh(buf)
    {
      fd := FREE;
      bufLen := 0;
      buf := new char[RECV_BUF_LEN];
    }
  }

  /** The client object represents the slot; bytes before `start` have been dispatched already. */
  ghost predicate Holds(c: Client, slot: Slot, start: nat)
    reads c, c.buf
  {
    && c.fd == slot.fd && c.bufLen <= c.buf.Length && start + |slot.pend| == c.bufLen
    && c.buf[start..c.bufLen] == slot.pend
  }

  /** The facts about reachable states that the code relies on. */
  lemma Facts(s: State)
    requires Reachable(s)
    ensures |s.slots| == MAX_CLIENTS
    ensures forall i :: 0 <= i < |s.slots| && s.slots[i].fd != FREE ==> s.slots[i].fd >= 0 && HasSlot(s, i)
    ensures s.ctl.Busy() ==> s.ctl.slot < |s.slots| && s.slots[s.ctl.slot].fd != FREE && HasSlot(s, s.ctl.slot)
    ensures s.ctl.Busy() ==> |s.slots[s.ctl.slot].pend| <= RECV_BUF_LEN - 1
    ensures s.ctl.Dispatching? ==> |s.slots[s.ctl.slot].pend| <= RECV_BUF_LEN - 2
    ensures forall i, j :: 0 <= i < j < |s.slots| && s.slots[i].fd == s.slots[j].fd ==> s.slots[i].fd == FREE
  {
    hide Messages, Tail, FindLF, LineServerInvariant.Synced, LineServerInvariant.Awake;
    LineServerTheorems.ReachableInv(s);
  }

  /** Peers can do nothing to the number and the descriptors of connections, and take no event away. */
  ghost predicate SameConns(k: Kernel, k': Kernel) {
    && k'.table == k.table && |k'.conns| == |k.conns| && k'.listenFd == k.listenFd && k'.epollFd == k.epollFd
    && (forall id :: 0 <= id < |k.conns| ==>
          k'.conns[id].fd == k.conns[id].fd && k'.conns[id].closes == k.conns[id].closes && k'.conns[id].caller == k.conns[id].caller)
    && k.edges <= k'.edges && |k.waiting| <= |k'.waiting|
    && forall j :: 0 <= j < |k.waiting| ==> k'.waiting[j].id == k.waiting[j].id
  }

  /** How a round of the read loop ends. */
  datatype DrainEnd = More | Again | Closed(why: Why)

  /** What the connection shows when it is closed for reason `why`. */
  predicate Justifies(c: Conn, why: Why) {
    match why
    case Full => |c.got| >= RECV_BUF_LEN - 1
    case Eof => c.eof && c.unread == []
    case Error => c.broken
  }

  /** The buffer of a client holds the end of what was read from it. */
  lemma FullBuffer(s: State)
    requires Reachable(s) && s.ctl.Draining?
    ensures HasSlot(s, s.ctl.slot) && |s.slots[s.ctl.slot].pend| <= |Current(s).got|
  {
    hide Messages, Tail, FindLF, LineServerInvariant.Awake;
    LineServerTheorems.ReachableInv(s);
  }

  /** memchr(start, '\n', ...) on the buffer. */
  method Memchr(buf: array<char>, start: nat, end: nat) returns (nl: nat)
    requires start <= end <= buf.Length
    ensures start <= nl <= end
    ensures nl < end ==> buf[nl] == LF
    ensures LF !in buf[start..nl]
  {
    nl := start;
    while nl < end && buf[nl] != LF
      invariant start <= nl <= end
      invariant LF !in buf[start..nl]
    {
      nl := nl + 1;
    }
  }

  /** Terminates the line buf[start..nl] in place, dropping one CR. */
  method TakeLine(buf: array<char>, start: nat, nl: nat) returns (len: nat)
    requires start <= nl < buf.Length
    modifies buf
    ensures start + len <= nl && buf[start + len] == NUL
    ensures buf[start..start + len] == Strip(old(buf[start..nl]))
    ensures len == nl - start - (if start < nl && old(buf[nl - 1]) == '\r' then 1 else 0)
    ensures forall k :: nl < k < buf.Length ==> buf[k] == old(buf[k])
  {
    buf[nl] := NUL;
    len := nl - start;
    if len > 0 && buf[start + len - 1] == CR {
      len := len - 1;
      buf[start + len] := NUL;
    }
  }

  /** memmove(buf, buf + start, n) */
  method Memmove(buf: array<char>, start: nat, n: nat)
    requires start + n <= buf.Length
    modifies buf
    ensures buf[..n] == old(buf[start..start + n])
  {
    forall k | 0 <= k < n { buf[k] := buf[start + k]; }
  }

  /** The unterminated rest of the buffer goes to the front. */
  method ShiftBuffer(c: Client, start: nat)
    requires start <= c.bufLen <= c.buf.Length
    modifies c`bufLen, c.buf
    ensures c.bufLen == old(c.bufLen) - start && c.buf[..c.bufLen] == old(c.buf[start..c.bufLen])
  {
    var remaining := c.bufLen - start;
    if remaining > 0 && start != 0 {
      Memmove(c.buf, start, remaining);
    }
    c.bufLen := remaining;
  }

  class TcpServer {
    const clients: seq<Client>
    const listenFd: int
    const epollFd: int
    var clientCount: int
    var kern: Kernel       // the environment
    ghost var s: State     // the abstract state reached so far
    ghost var mark: State  // an earlier one
    ghost var acts: seq<Act>  // the actions from there to here

    ghost function Bufs(): set<object> {
      set i | 0 <= i < |clients| :: clients[i].buf
    }

    ghost predicate Shape() {
      && |clients| == MAX_CLIENTS && listenFd >= 0 && epollFd >= 0 && listenFd != epollFd
      && (forall i :: 0 <= i < |clients| ==> clients[i].buf.Length == RECV_BUF_LEN)
      && (forall i, j :: 0 <= i < j < |clients| ==> clients[i] != clients[j] && clients[i].buf != clients[j].buf)
    }

    ghost predicate OnTrack()
      reads this
    {
      Reachable(s) && Steps(mark, acts, s) && s.k.listenFd == listenFd
    }

    ghost predicate ValidAt(cur: nat, start: nat)
      reads this, clients, Bufs()
    {
      && Shape() && OnTrack()
      && kern == s.k && clientCount == s.count && |s.slots| == |clients|
      && (forall i :: 0 <= i < |clients| ==> Holds(clients[i], s.slots[i], if i == cur then start else 0))
    }

    ghost predicate Valid()
      reads this, clients, Bufs()
    {
      ValidAt(0, 0)
    }

    ghost method Step(a: Act)
      requires OnTrack() && Enabled(s, a)
      modifies this`s, this`acts
      ensures s == Apply(old(s), a) && acts == old(acts) + [a] && OnTrack()
    {
      hide Runs;
      var l: int, e: int :| l >= 0 && e >= 0 && l != e && Runs(Start(l, e), s);
      RunsStep(Start(l, e), s, a);
      assert Steps(s, [a], Apply(s, a));
      StepsConcat(mark, acts, s, [a], Apply(s, a));
      ListenKept(s, a);
      s, acts := Apply(s, a), acts + [a];
    }

    /** Starts a new record of actions. */
    ghost method Mark()
      requires OnTrack()
      modifies this`mark, this`acts
      ensures mark == s && acts == [] && OnTrack()
    {
      mark, acts := s, [];
    }

    static lemma ListenKept(s: State, a: Act)
      requires Enabled(s, a)
      ensures Apply(s, a).k.listenFd == s.k.listenFd
    {
    }

    /** tcp_server_create, once socket(), bind(), listen() and epoll_create1() have succeeded. */
    constructor (listen: int, epoll: int)
      requires listen >= 0 && epoll >= 0 && listen != epoll
      ensures Valid() && s == Start(listen, epoll) && mark == s
      ensures fresh(clients) && fresh(Bufs())
    {
      var cs: seq<Client> := [];
      while |cs| < MAX_CLIENTS
        invariant |cs| <= MAX_CLIENTS
        invariant forall i :: 0 <= i < |cs| ==>
          fresh(cs[i]) && fresh(cs[i].buf) && cs[i].buf.Length == RECV_BUF_LEN && cs[i].fd == FREE && cs[i].bufLen == 0
        invariant forall i, j :: 0 <= i < j < |cs| ==> cs[i] != cs[j] && cs[i].buf != cs[j].buf
      {
        var c := new Client();
        cs := cs + [c];
      }
      clients := cs;
      listenFd, epollFd, clientCount := listen, epoll, 0;
      kern := Start(listen, epoll).k;
      s, mark, acts := Start(listen, epoll), Start(listen, epoll), [];
      new;
      RunsRefl(s);
    }

    /** Peers may connect, send or hang up at any moment. */
    method Environment(ghost cur: nat, ghost start: nat)
      requires ValidAt(cur, start)
      modifies this`kern, this`s, this`acts
      ensures ValidAt(cur, start)
      ensures s.slots == old(s.slots) && s.count == old(s.count) && s.ctl == old(s.ctl)
      ensures SameConns(old(kern), kern) && kern.table == old(kern.table) && |kern.conns| == |old(kern.conns)|
    {
      hide Reachable, Runs, Steps;
      var rounds: nat := *;
      while rounds > 0
        invariant ValidAt(cur, start)
        invariant s.slots == old(s.slots) && s.count == old(s.count) && s.ctl == old(s.ctl)
        invariant SameConns(old(kern), kern)
      {
        PeerActs();
        rounds := rounds - 1;
      }
    }

    method PeerActs()
      requires OnTrack() && kern == s.k
      modifies this`kern, this`s, this`acts
      ensures OnTrack() && kern == s.k && SameConns(old(kern), kern)
      ensures s.slots == old(s.slots) && s.count == old(s.count) && s.ctl == old(s.ctl)
    {
      hide Reachable, Runs, Steps;
      var f: int, j: nat, inp: Input, calls: bool := *, *, *, *;
      if kern.CanDeliver(f, inp) {
        kern := kern.Deliver(f, inp);
        Step(Deliver(f, inp));
      } else if j < |kern.waiting| && Follows(kern.waiting[j].inp.eof, kern.waiting[j].inp.broken, inp) {
        kern := kern.(waiting := kern.waiting[j := Queued(kern.waiting[j], inp)]);
        Step(CallerSends(j, inp));
      } else if calls && listenFd in kern.servers {
        kern := kern.Connect();
        Step(Act.Connect);
      }
    }

    /** find_client */
    method FindClient(fd: int) returns (i: nat)
      requires |clients| == |s.slots| && forall j :: 0 <= j < |clients| ==> clients[j].fd == s.slots[j].fd
      ensures i == IndexOf(s.slots, fd)
    {
      i := 0;
      while i < |clients| && clients[i].fd != fd
        invariant 0 <= i <= |clients|
        invariant forall j :: 0 <= j < i ==> s.slots[j].fd != fd
      {
        i := i + 1;
      }
    }

    /** alloc_client */
    method AllocClient(fd: int) returns (i: nat)
      requires ValidAt(0, 0) && clientCount < MAX_CLIENTS
      modifies this`clientCount, clients`fd, clients`bufLen
      ensures i == FirstFree(s.slots) && i < |clients|
      ensures clients[i].fd == fd && clients[i].bufLen == 0 && clientCount == old(clientCount) + 1
      ensures forall j :: 0 <= j < |clients| && j != i ==>
        clients[j].fd == old(clients[j].fd) && clients[j].bufLen == old(clients[j].bufLen)
    {
      hide Reachable, Runs, Steps;
      LineServerTheorems.AdmissionFindsSlot(s);
      i := 0;
      while clients[i].fd >= 0
        invariant 0 <= i <= FirstFree(s.slots)
        decreases FirstFree(s.slots) - i
      {
        i := i + 1;
      }
      clients[i].fd := fd;
      clients[i].bufLen := 0;
      clientCount := clientCount + 1;
    }

    /** free_client, as part of action `a`. */
    method FreeClient(i: nat, ghost a: Act, ghost cur: nat, ghost start: nat)
      requires ValidAt(cur, start) && i < |clients| && HasSlot(s, i)
      requires Enabled(s, a) && Apply(s, a) == Free(s, i).(ctl := Apply(s, a).ctl)
      modifies this`kern, this`clientCount, this`s, this`acts, {clients[i]}`fd, {clients[i]}`bufLen
      ensures s == Apply(old(s), a) && acts == old(acts) + [a]
      ensures if i == cur then Valid() else ValidAt(cur, start)
    {
      hide Reachable, Runs, Steps, Apply, Enabled;
      var c := clients[i];
      kern := kern.Close(c.fd);
      c.fd := FREE;
      c.bufLen := 0;
      clientCount := clientCount - 1;
      Step(a);
    }

    /** accept_client: `ans` is what accept() and EPOLL_CTL_ADD answer. With a caller waiting and a
        number handed out, exactly the first caller is taken, and it is kept exactly when there was room
        and epoll agreed. */
    method AcceptClient(ans: Answer)
      requires Valid() && AtListen(s) && s.ctl.todo[0].answer == ans
      modifies this`kern, this`clientCount, this`s, this`acts, clients`fd, clients`bufLen
      ensures Valid() && s.ctl == Batch(old(s.ctl.todo[1..]))
      ensures Accepted(old(kern), old(clientCount), ans)
    {
      hide Reachable, Runs, Steps;
      if !kern.Takes(ans.fd) {
        Step(AcceptFails(ans.fd));
      } else if clientCount >= MAX_CLIENTS {
        kern := kern.Accept(ans.fd).Close(ans.fd);
        Step(Refuse(ans.fd));
      } else {
        var i := StoreClient(ans);
        Register(i, ans.added);
      }
    }

    ghost predicate Accepted(k: Kernel, count: int, ans: Answer)
      reads this`kern, this`clientCount
    {
      var n, kept := |k.conns|, count < 8 && ans.added;
      if k.waiting == [] || !k.CanAccept(ans.fd) then kern == k && clientCount == count
      else
        && |kern.conns| == n + 1 && kern.conns[n].fd == ans.fd && kern.conns[n].caller == k.waiting[0].id
        && (kern.conns[n].closes == 0 <==> kept) && clientCount == count + (if kept then 1 else 0)
    }

    method StoreClient(ans: Answer) returns (i: nat)
      requires Valid() && AtListen(s) && s.ctl.todo[0].answer == ans && kern.Takes(ans.fd) && clientCount < MAX_CLIENTS
      modifies this`kern, this`clientCount, this`s, this`acts, clients`fd, clients`bufLen
      ensures Valid() && s.ctl == Adding(i, old(s.ctl.todo[1..]), ans.added) && i < |clients|
      ensures kern == old(kern).Accept(ans.fd) && clientCount == old(clientCount) + 1 && clients[i].fd == ans.fd
    {
      hide Reachable, Runs, Steps;
      i := AllocClient(ans.fd);  // never NULL here
      kern := kern.Accept(ans.fd);
      Step(Store(ans.fd));
    }

    /** EPOLL_CTL_ADD for the client just stored. */
    method Register(i: nat, added: bool)
      requires Valid() && s.ctl.Adding? && s.ctl.slot == i < |clients| && kern.Has(clients[i].fd) && s.ctl.added == added
      modifies this`kern, this`clientCount, this`s, this`acts, clients`fd, clients`bufLen
      ensures Valid() && s.ctl == Batch(old(s.ctl.todo))
      ensures clientCount == old(clientCount) - (if added then 0 else 1)
      ensures |kern.conns| == |old(kern.conns)|
      ensures var id := old(kern.table[clients[i].fd]);
              && kern.conns[id].fd == old(kern.conns)[id].fd && kern.conns[id].caller == old(kern.conns)[id].caller
              && kern.conns[id].closes == old(kern.conns)[id].closes + (if added then 0 else 1)
    {
      hide Reachable, Runs, Steps;
      Environment(0, 0);
      Facts(s);
      if added {
        kern := kern.Add(clients[i].fd);
        Step(AddOk);
      } else {
        FreeClient(i, AddFails, 0, 0);
      }
    }

    /** The read loop of recv_client: it ends with nothing left to read, or with the client closed for a
        reason the connection shows. */
    method Drain(i: nat) returns (end: DrainEnd)
      requires Valid() && i < |clients| && s.ctl.Draining? && s.ctl.slot == i && kern.Has(clients[i].fd)
      modifies this`kern, this`clientCount, this`s, this`acts, clients[i], clients[i].buf
      ensures Valid() && !end.More?
      ensures Ended(i, end, old(s.ctl.todo), old(clients[i].fd), old(kern.table[clients[i].fd]))
    {
      hide Reachable, Runs, Steps;
      end := More;
      while end.More?
        invariant Valid()
        invariant end.More? ==> s.ctl == old(s.ctl) && clients[i].fd == old(clients[i].fd) && kern.Has(clients[i].fd)
                                && kern.table == old(kern.table)
        invariant !end.More? ==> Ended(i, end, old(s.ctl.todo), old(clients[i].fd), old(kern.table[clients[i].fd]))
        decreases end.More?, RECV_BUF_LEN - clients[i].bufLen
      {
        end := DrainOnce(i);
      }
    }

    /** How the drain of slot `i` with descriptor `f` and connection `id` left things. */
    ghost predicate Ended(i: nat, end: DrainEnd, todo: seq<Event>, f: int, id: nat)
      requires i < |clients|
      reads this, clients[i]
    {
      match end
      case More => false
      case Again => s.ctl == Dispatching(i, todo) && clients[i].fd == f && kern.Has(f) && !kern.Peer(f).Readable()
      case Closed(why) =>
        && s.ctl == Batch(todo) && acts != [] && acts[|acts| - 1] == Drop(why)
        && clients[i].fd == FREE && f !in kern.table && id < |kern.conns| && Justifies(kern.conns[id], why)
    }

    /** One round of the read loop. */
    method DrainOnce(i: nat) returns (end: DrainEnd)
      requires Valid() && i < |clients| && s.ctl.Draining? && s.ctl.slot == i && kern.Has(clients[i].fd)
      modifies this`kern, this`clientCount, this`s, this`acts, clients[i], clients[i].buf
      ensures Valid()
      ensures end.More? ==>
        && s.ctl == old(s.ctl) && clients[i].fd == old(clients[i].fd) && kern.table == old(kern.table) && kern.Has(clients[i].fd)
        && old(clients[i].bufLen) < clients[i].bufLen < RECV_BUF_LEN
      ensures !end.More? ==> Ended(i, end, old(s.ctl.todo), old(clients[i].fd), old(kern.table[clients[i].fd]))
      ensures end == Closed(Full) <==> old(clients[i].bufLen) >= RECV_BUF_LEN - 1
    {
      hide Reachable, Runs, Steps, FindLF, IndexOf, FirstFree, SameConns, Strip, Ended, Apply;
      Environment(0, 0);
      Facts(s);
      var c := clients[i];
      var space := RECV_BUF_LEN - c.bufLen - 1;
      var amount: nat := *;  // how much read() returns, if anything
      var unread := kern.Peer(c.fd).unread;
      if space == 0 {
        DropClient(i, Full);
        return Closed(Full);
      } else if kern.Peer(c.fd).broken {
        DropClient(i, Error);
        return Closed(Error);
      } else if unread != [] {
        ReadInto(i, if 1 <= amount <= space && amount <= |unread| then amount else 1);
        return More;
      } else if kern.Peer(c.fd).eof {
        DropClient(i, Eof);
        return Closed(Eof);
      } else {
        StopReading(i);
        return Again;
      }
    }

    /** EAGAIN: on to the lines. */
    ghost method StopReading(i: nat)
      requires Valid() && i < |clients| && s.ctl.Draining? && s.ctl.slot == i && Enabled(s, ReadAgain)
      modifies this`s, this`acts
      ensures Valid() && Ended(i, Again, old(s.ctl.todo), clients[i].fd, old(kern.table[clients[i].fd]))
    {
      hide Reachable, Runs, Steps;
      Step(ReadAgain);
    }

    /** free_client on one of the closing paths of the read loop. */
    method DropClient(i: nat, why: Why)
      requires Valid() && i < |clients| && s.ctl.Draining? && s.ctl.slot == i && Enabled(s, Drop(why))
      modifies this`kern, this`clientCount, this`s, this`acts, {clients[i]}`fd, {clients[i]}`bufLen
      ensures Valid() && Ended(i, Closed(why), old(s.ctl.todo), old(clients[i].fd), old(kern.table[clients[i].fd]))
    {
      hide Reachable, Runs, Steps, FindLF, IndexOf, FirstFree;
      FullBuffer(s);
      FreeClient(i, Drop(why), 0, 0);
    }

    /** A read() that returned `n` bytes. */
    method ReadInto(i: nat, n: nat)
      requires Valid() && i < |clients| && s.ctl.Draining? && s.ctl.slot == i && Enabled(s, ReadData(n))
      modifies this`kern, this`s, this`acts, {clients[i]}`bufLen, clients[i].buf
      ensures Valid() && s.ctl == old(s.ctl) && clients[i].bufLen == old(clients[i].bufLen) + n
      ensures kern.table == old(kern.table) && kern.Has(clients[i].fd)
    {
      hide Reachable, Runs, Steps;
      var c := clients[i];
      var chunk := kern.Peer(c.fd).unread[..n];
      var at := c.bufLen;
      forall k | 0 <= k < n { c.buf[at + k] := chunk[k]; }
      c.bufLen := at + n;
      kern := kern.Read(c.fd, n);
      assert c.buf[..at + n] == old(c.buf[..c.bufLen]) + chunk;
      Step(ReadData(n));
    }

    /** tcp_server_close_client, from outside or from inside the message callback. */
    method CloseClient(fd: int, ghost cur: nat, ghost start: nat)
      requires ValidAt(cur, start) && fd >= 0
      requires if s.ctl.InCallback? then s.ctl.slot == cur < |clients| && fd != s.slots[cur].fd
               else s.ctl.Idle? && cur == 0 && start == 0
      modifies this`kern, this`clientCount, this`s, this`acts, clients`fd, clients`bufLen
      ensures ValidAt(cur, start) && s.ctl == old(s.ctl)
      ensures Enabled(old(s), Act.CloseClient(fd)) && s == Apply(old(s), Act.CloseClient(fd))
    {
      hide Reachable, Runs, Steps, Holds;
      CloseStep(s, fd);
      var i := FindSlot(fd, cur, start);
      if i < |clients| {
        FreeClient(i, Act.CloseClient(fd), cur, start);
      } else {
        Step(Act.CloseClient(fd));
      }
    }

    /** find_client in the middle of a callback. */
    method FindSlot(fd: int, ghost cur: nat, ghost start: nat) returns (i: nat)
      requires ValidAt(cur, start)
      ensures i == IndexOf(s.slots, fd)
    {
      i := FindClient(fd);
    }

    static lemma CloseStep(s: State, fd: int)
      requires Reachable(s) && fd >= 0
      requires s.ctl.Idle? || (s.ctl.InCallback? && s.ctl.slot < |s.slots| && fd != s.slots[s.ctl.slot].fd)
      ensures var i, a := IndexOf(s.slots, fd), Act.CloseClient(fd);
              && Enabled(s, a) && Apply(s, a).ctl == s.ctl
              && (i < |s.slots| ==> HasSlot(s, i) && Apply(s, a) == Free(s, i).(ctl := s.ctl))
              && (i == |s.slots| ==> Apply(s, a) == s)
              && (s.ctl.InCallback? ==> Apply(s, a).slots[s.ctl.slot] == s.slots[s.ctl.slot] && i != s.ctl.slot)
    {
      hide Reachable;
      Facts(s);
    }

    /** on_message, handed buf[start..start+len] of its client with a NUL behind it. It may close other
        clients, and may ask for its own to be closed. */
    method OnMessage(i: nat, start: nat, len: nat, nl: nat) returns (close: bool)
      requires Cut(i, start, len, nl) && len > 0
      modifies this`kern, this`clientCount, this`s, this`acts, clients`fd, clients`bufLen
      ensures ValidAt(i, nl + 1) && s.ctl == InCallback(i, old(s.ctl.todo), close) && clients[i].bufLen == old(clients[i].bufLen)
    {
      hide Reachable, Runs, Steps, FindLF;
      close := *;
      kern := kern.Log(clients[i].fd, clients[i].buf[start..start + len]);
      Step(NextLine(close));
      CloseOthers(i, nl + 1);
    }

    method CloseOthers(i: nat, ghost start: nat)
      requires ValidAt(i, start) && i < |clients| && s.ctl.InCallback? && s.ctl.slot == i
      modifies this`kern, this`clientCount, this`s, this`acts, clients`fd, clients`bufLen
      ensures ValidAt(i, start) && s.ctl == old(s.ctl) && clients[i].bufLen == old(clients[i].bufLen)
    {
      hide Reachable, Runs, Steps;
      var others: nat := *;
      while others > 0
        invariant ValidAt(i, start) && s.ctl == old(s.ctl) && s.slots[i] == old(s.slots[i])
      {
        Environment(i, start);
        var fd: int := *;
        if fd >= 0 && fd != clients[i].fd {
          CloseStep(s, fd);
          CloseClient(fd, i, start);
        }
        others := others - 1;
      }
    }

    /** The line buf[start..nl] of client `i` has been terminated in place at `start + len`, and not
        been dispatched yet. */
    ghost predicate Cut(i: nat, start: nat, len: nat, nl: nat)
      reads this, clients, Bufs()
    {
      && Shape() && OnTrack() && kern == s.k && clientCount == s.count && |s.slots| == |clients|
      && i < |clients| && s.ctl.Dispatching? && s.ctl.slot == i && HasSlot(s, i)
      && (forall j :: 0 <= j < |clients| && j != i ==> Holds(clients[j], s.slots[j], 0))
      && start + len <= nl < clients[i].bufLen <= clients[i].buf.Length && clients[i].buf[start + len] == NUL
      && var c, pend := clients[i], s.slots[i].pend;
      && c.fd == s.slots[i].fd && start + |pend| == c.bufLen
      && LF in pend && FindLF(pend, 0) == nl - start && c.buf[start..start + len] == Message(pend)
      && c.buf[nl + 1..c.bufLen] == pend[nl - start + 1..]
    }

    /** The in-place edits: the line is terminated, the bytes after it stay. */
    method EditLine(i: nat, start: nat, nl: nat) returns (len: nat)
      requires ValidAt(i, start) && i < |clients| && s.ctl.Dispatching? && s.ctl.slot == i
      requires start <= nl < clients[i].bufLen && clients[i].buf[nl] == LF && LF !in clients[i].buf[start..nl]
      modifies clients[i].buf
      ensures Cut(i, start, len, nl)
    {
      hide Reachable, Runs, Steps, Strip, FindLF;
      Facts(s);
      var c := clients[i];
      CutFacts(c, s.slots[i], start, nl);
      len := TakeLine(c.buf, start, nl);
      assert c.buf[nl + 1..c.bufLen] == old(c.buf[nl + 1..c.bufLen]);
    }

    static lemma CutFacts(c: Client, slot: Slot, start: nat, nl: nat)
      requires Holds(c, slot, start) && start <= nl < c.bufLen && c.buf[nl] == LF && LF !in c.buf[start..nl]
      ensures var pend := slot.pend;
              && FindLF(pend, 0) == nl - start && LF in pend && Message(pend) == Strip(c.buf[start..nl])
              && pend[nl - start + 1..] == c.buf[nl + 1..c.bufLen]
    {
      hide FindLF, Strip;
      var pend, k := slot.pend, nl - start;
      assert pend[..k] == c.buf[start..nl] && pend[k] == LF;
      FirstAt(pend, k);
    }

    static lemma FirstAt(pend: string, k: nat)
      requires k < |pend| && pend[k] == LF && LF !in pend[..k]
      ensures FindLF(pend, 0) == k && LF in pend
    {
      assert forall j :: 0 <= j < k ==> pend[j] == pend[..k][j];
    }

    /** One round of the line loop of recv_client. */
    method DispatchLine(i: nat, start: nat, nl: nat) returns (live: bool)
      requires ValidAt(i, start) && i < |clients| && s.ctl.Dispatching? && s.ctl.slot == i
      requires start <= nl < clients[i].bufLen && clients[i].buf[nl] == LF && LF !in clients[i].buf[start..nl]
      modifies this`kern, this`clientCount, this`s, this`acts, clients`fd, clients`bufLen, clients[i].buf
      ensures if live then ValidAt(i, nl + 1) && s.ctl == old(s.ctl) && clients[i].bufLen == old(clients[i].bufLen)
              else Valid() && s.ctl == Batch(old(s.ctl.todo))
    {
      hide Reachable, Runs, Steps, Cut, Holds;
      var len := EditLine(i, start, nl);
      live := true;
      if len > 0 {
        var close := OnMessage(i, start, len, nl);
        GiveVerdict(i, close, nl + 1);
        live := !close;
      } else {
        SkipBlankLine(i, start, nl);
      }
    }

    method SkipBlankLine(i: nat, start: nat, nl: nat)
      requires Cut(i, start, 0, nl)
      modifies this`s, this`acts
      ensures ValidAt(i, nl + 1) && s.ctl == old(s.ctl)
    {
      hide Reachable, Runs, Steps, FindLF;
      Step(NextLine(false));
    }

    method GiveVerdict(i: nat, close: bool, ghost start: nat)
      requires ValidAt(i, start) && i < |clients| && s.ctl.InCallback? && s.ctl.slot == i && s.ctl.close == close
      modifies this`kern, this`clientCount, this`s, this`acts, clients`fd, clients`bufLen
      ensures if close then Valid() && s.ctl == Batch(old(s.ctl.todo))
              else ValidAt(i, start) && s.ctl == Dispatching(i, old(s.ctl.todo)) && clients[i].bufLen == old(clients[i].bufLen)
    {
      hide Reachable, Runs, Steps;
      Facts(s);
      if close {
        FreeClient(i, Verdict, i, start);
      } else {
        Step(Verdict);
      }
    }

    /** The line loop of recv_client and the shift of the unterminated rest to the front. */
    method Dispatch(i: nat)
      requires Valid() && i < |clients| && s.ctl.Dispatching? && s.ctl.slot == i
      modifies this`kern, this`clientCount, this`s, this`acts, clients`fd, clients`bufLen, clients[i].buf
      ensures Valid() && s.ctl == Batch(old(s.ctl.todo))
    {
      hide Reachable, Runs, Steps, Holds, FindLF;
      Terminate(i);
      var c := clients[i];
      var start := 0;
      var nl := Memchr(c.buf, start, c.bufLen);
      while nl < c.bufLen
        invariant ValidAt(i, start) && s.ctl == old(s.ctl)
        invariant start <= nl <= c.bufLen <= c.buf.Length && LF !in c.buf[start..nl]
        invariant nl < c.bufLen ==> c.buf[nl] == LF
        decreases c.bufLen - start
      {
        var live := DispatchLine(i, start, nl);
        if !live { return; }
        start := nl + 1;
        nl := Memchr(c.buf, start, c.bufLen);
      }
      Shift(i, start);
    }

    /** The NUL after the last byte received is always inside the buffer. */
    method Terminate(i: nat)
      requires Valid() && i < |clients| && s.ctl.Dispatching? && s.ctl.slot == i
      modifies clients[i].buf
      ensures ValidAt(i, 0) && clients[i].bufLen < clients[i].buf.Length
    {
      hide Reachable, Runs, Steps;
      Facts(s);
      var c := clients[i];
      c.buf[c.bufLen] := NUL;
      assert c.buf[..c.bufLen] == old(c.buf[..c.bufLen]);
    }

    method Shift(i: nat, start: nat)
      requires ValidAt(i, start) && i < |clients| && s.ctl.Dispatching? && s.ctl.slot == i
      requires start <= clients[i].bufLen && LF !in clients[i].buf[start..clients[i].bufLen]
      modifies this`s, this`acts, {clients[i]}`bufLen, clients[i].buf
      ensures Valid() && s.ctl == Batch(old(s.ctl.todo))
    {
      hide Reachable, Runs, Steps, FindLF;
      FinishRecv(i, start);
      ShiftBuffer(clients[i], start);
    }

    ghost method FinishRecv(i: nat, start: nat)
      requires ValidAt(i, start) && i < |clients| && s.ctl.Dispatching? && s.ctl.slot == i
      requires start <= clients[i].bufLen && LF !in clients[i].buf[start..clients[i].bufLen]
      modifies this`s, this`acts
      ensures ValidAt(i, start) && s.ctl == Batch(old(s.ctl.todo))
    {
      hide Reachable, Runs, Steps, FindLF;
      assert LF !in s.slots[i].pend;
      Step(EndRecv);
    }

    /** One event of the batch: the listening socket's leads to an accept, a client's to a drain. */
    method HandleEvent(e: Event)
      requires Valid() && s.ctl.Batch? && s.ctl.todo != [] && s.ctl.todo[0] == e
      modifies this`kern, this`clientCount, this`s, this`acts, clients, Bufs()
      ensures Valid() && s.ctl == Batch(old(s.ctl.todo[1..]))
      ensures e.fd == listenFd ==> Accepted(old(kern), old(clientCount), e.answer)
    {
      hide Reachable, Runs, Steps, IndexOf;
      if e.fd == listenFd {
        AcceptClient(e.answer);
      } else {
        var i := FindClient(e.fd);
        if i < |clients| {
          Step(BeginRecv);
          Facts(s);
          var end := Drain(i);
          if end.Again? { Dispatch(i); }
        } else {
          Step(SkipStale);
        }
      }
    }

    /** Slot `i`, as its owner finds it between polls: its lines are those of the split, its buffer the
        unterminated rest, and if input waits so does an edge. */
    ghost predicate Served(i: nat)
      requires i < |clients|
      reads this`kern, clients[i], clients[i].buf
    {
      var c := clients[i];
      c.fd >= 0 ==>
        && kern.Has(c.fd) && c.bufLen < RECV_BUF_LEN - 1 <= c.buf.Length
        && kern.Peer(c.fd).lines == Messages(kern.Peer(c.fd).got)
        && c.buf[..c.bufLen] == Tail(kern.Peer(c.fd).got)
        && (kern.Peer(c.fd).Readable() ==> c.fd in kern.edges)
    }

    lemma AllServed()
      requires Valid() && s.ctl.Idle?
      ensures forall i :: 0 <= i < |clients| ==> Served(i)
    {
      hide Reachable, Runs, Steps, Messages, Tail;
      forall i | 0 <= i < |clients| ensures Served(i) {
        if clients[i].fd >= 0 {
          LineServerTheorems.LiveClientFramed(s, i);
          LineServerTheorems.NoLostWakeup(s, i);
        }
      }
    }

    lemma Grown()
      requires OnTrack() && Reachable(mark)
      ensures LineServerTheorems.Continues(mark.k, s.k)
    {
      hide Reachable;
      assert Runs(mark, s);
      LineServerTheorems.HistoryOnlyGrows(mark, s);
    }

    /** epoll_wait: `batch` is what the kernel reports, if it may; otherwise nothing (a timeout). */
    method EpollWait(batch: seq<Event>) returns (events: seq<Event>)
      requires Valid() && s.ctl.Idle?
      modifies this`kern, this`s, this`acts
      ensures Valid() && s.ctl == Batch(events) && (Deliverable(old(kern), batch) ==> events == batch)
      ensures kern.table == old(kern.table) && |kern.conns| == |old(kern.conns)|
      ensures |old(kern.waiting)| <= |kern.waiting| && forall j :: 0 <= j < |old(kern.waiting)| ==> kern.waiting[j].id == old(kern.waiting)[j].id
      ensures forall f :: old(kern.CanAccept(f)) ==> kern.CanAccept(f)
    {
      hide Reachable, Runs, Steps;
      Environment(0, 0);
      events := if Deliverable(kern, batch) then batch else [];
      kern := kern.(edges := kern.edges - (set e | e in events :: e.fd));
      Step(Wait(events));
    }

    method HandleBatch(events: seq<Event>)
      requires Valid() && s.ctl == Batch(events)
      modifies this`kern, this`clientCount, this`s, this`acts, clients, Bufs()
      ensures Valid() && s.ctl == Batch([])
    {
      hide Reachable, Runs, Steps, Valid;
      var n := 0;
      while n < |events|
        invariant 0 <= n <= |events| && Valid() && s.ctl == Batch(events[n..])
      {
        HandleEvent(events[n]);
        n := n + 1;
      }
    }

    /** The first event of the batch is for the listening socket, where someone waits, and the kernel
        hands out a number for it. */
    ghost predicate CallDue(k: Kernel, batch: seq<Event>) {
      && Deliverable(k, batch) && batch != [] && batch[0].fd == listenFd
      && k.waiting != [] && k.CanAccept(batch[0].answer.fd)
    }

    /** tcp_server_poll, when the kernel reports `batch`: from a state with exactly these events to
        handle, a run of legal actions leads to the end of the poll. */
    method Poll(batch: seq<Event>)
      requires Valid() && s.ctl.Idle?
      modifies this`kern, this`clientCount, this`s, this`acts, this`mark, clients, Bufs()
      ensures Valid() && s.ctl.Idle? && acts != [] && acts[|acts| - 1] == EndBatch
      ensures mark.ctl.Batch? && (Deliverable(old(kern), batch) ==> mark.ctl == Batch(batch))
      ensures LineServerTheorems.Continues(old(kern), mark.k) && LineServerTheorems.Continues(mark.k, kern)
      ensures forall i :: 0 <= i < |clients| ==> Served(i)
      ensures CallDue(old(kern), batch) ==>
        |old(kern.conns)| < |kern.conns| && kern.conns[|old(kern.conns)|].caller == old(kern.waiting)[0].id
    {
      hide Reachable, Runs, Steps, LineServerTheorems.Continues, Served, Holds, Deliverable, FindLF, IndexOf, FirstFree;
      Mark();
      var events := EpollWait(batch);
      Grown();
      Mark();
      HandleBatch(events);
      Step(EndBatch);
      Grown();
      AllServed();
      if CallDue(old(kern), batch) { LineServerTheorems.WaitingCallerTaken(mark, acts, s); }
    }

    method DestroyNext(i: nat)
      requires i < |clients| == |s.slots| && OnTrack() && kern == s.k && s.ctl == Destroying(i)
      requires clients[i].fd == s.slots[i].fd
      modifies this`kern, this`s, this`acts
      ensures |s.slots| == |clients| && OnTrack() && kern == s.k && s.ctl == Destroying(i + 1)
      ensures forall j :: i < j < |clients| ==> s.slots[j].fd == old(s.slots[j].fd)
    {
      hide Reachable, Runs, Steps;
      Facts(s);
      if clients[i].fd >= 0 {
        kern := kern.Close(clients[i].fd);
      }
      Step(DestroySlot);
    }

    /** tcp_server_destroy */
    method Destroy()
      requires Valid() && s.ctl.Idle?
      modifies this`kern, this`s, this`acts
      ensures OnTrack() && kern == s.k && s.ctl.Destroyed?
      ensures kern.table == map[] && kern.servers == {}
      ensures forall id :: 0 <= id < |kern.conns| ==> kern.conns[id].closes == 1
    {
      hide Reachable, Runs, Steps;
      Step(BeginDestroy);
      var i := 0;
      while i < |clients|
        invariant 0 <= i <= |clients| == |s.slots| && OnTrack() && kern == s.k && s.ctl == Destroying(i)
        invariant forall j :: i <= j < |clients| ==> clients[j].fd == s.slots[j].fd
      {
        DestroyNext(i);
        i := i + 1;
      }
      kern := kern.(servers := {});
      Step(CloseServer);
      LineServerTheorems.DestroyedLeaksNothing(s);
    }
  }

  /** A whole life of the server: any number of polls and outside closes, then destroy. Whatever the
      peers, the kernel and the callback do, every descriptor is closed exactly once and each
      connection was served a prefix of its own messages. */
  method Lifetime(listen: int, epoll: int, calls: nat) returns (kern: Kernel)
    requires listen >= 0 && epoll >= 0 && listen != epoll
    ensures kern.table == map[] && kern.servers == {}
    ensures forall id :: 0 <= id < |kern.conns| ==>
      kern.conns[id].closes == 1 && kern.conns[id].lines <= Messages(kern.conns[id].Sent())
  {
    hide Reachable, Runs, Steps, Messages;
    var srv := new TcpServer(listen, epoll);
    for n := 0 to calls
      invariant srv.Valid() && srv.s.ctl.Idle?
      invariant fresh(srv) && fresh(srv.clients) && fresh(srv.Bufs())
    {
      var fd: int := *;
      if fd >= 0 {
        srv.CloseClient(fd, 0, 0);
      } else {
        var batch: seq<Event> := *;
        srv.Poll(batch);
      }
    }
    srv.Destroy();
    kern := srv.kern;
    forall id | 0 <= id < |kern.conns| ensures kern.conns[id].lines <= Messages(kern.conns[id].Sent()) {
      LineServerTheorems.DispatchedIsPrefix(srv.s, id);
    }
  }
}
