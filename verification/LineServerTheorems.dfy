/** What the line server guarantees in every reachable state and over every run. */
module LineServerTheorems {
  import opened Framing
  import opened LineServer
  import opened LineServerInvariant

  lemma {:induction false} InvAlong(s: State, acts: seq<Act>, t: State)
    requires Inv(s) && Steps(s, acts, t)
    ensures Inv(t)
    decreases |acts|
  {
    hide Inv;
    if acts != [] {
      Keeps(s, acts[0]);
      InvAlong(Apply(s, acts[0]), acts[1..], t);
    }
  }

  lemma RunsInv(s: State, t: State)
    requires Inv(s) && Runs(s, t)
    ensures Inv(t)
  {
    hide Inv;
    var acts :| Steps(s, acts, t);
    InvAlong(s, acts, t);
  }

  lemma ReachableInv(s: State)
    requires Reachable(s)
    ensures Inv(s)
  {
    hide Inv;
    var l: int, e: int :| l >= 0 && e >= 0 && l != e && Runs(Start(l, e), s);
    InvStart(l, e);
    RunsInv(Start(l, e), s);
  }

  // ---- Framing refines a simple split ----

  /** For a client that is not being received from, the dispatched lines are exactly the messages of
      all bytes read, and the buffer is exactly the unterminated rest. */
  lemma LiveClientFramed(s: State, i: nat)
    requires Reachable(s) && i < |s.slots| && s.slots[i].fd >= 0
    requires !(s.ctl.Busy() && s.ctl.slot == i)
    ensures s.k.Has(s.slots[i].fd)
    ensures var c := s.k.Peer(s.slots[i].fd);
            c.lines == Messages(c.got) && s.slots[i].pend == Tail(c.got) && |s.slots[i].pend| <= 8190
  {
    hide Messages, Tail, FindLF;
    ReachableInv(s);
    SyncedMessages(s.k.Peer(s.slots[i].fd), s.slots[i].pend);
    NoLFNoLines(s.slots[i].pend);
  }

  /** How the bytes were cut into reads, polls and events is invisible: two runs that read the same
      bytes from a client dispatched the same lines and keep the same buffer. */
  lemma ChunkingInvisible(s: State, i: nat, t: State, j: nat)
    requires Reachable(s) && i < |s.slots| && s.slots[i].fd >= 0 && !(s.ctl.Busy() && s.ctl.slot == i)
    requires Reachable(t) && j < |t.slots| && t.slots[j].fd >= 0 && !(t.ctl.Busy() && t.ctl.slot == j)
    requires s.k.Has(s.slots[i].fd) && t.k.Has(t.slots[j].fd)
    requires s.k.Peer(s.slots[i].fd).got == t.k.Peer(t.slots[j].fd).got
    ensures s.k.Peer(s.slots[i].fd).lines == t.k.Peer(t.slots[j].fd).lines
    ensures s.slots[i].pend == t.slots[j].pend
  {
    hide Messages, Tail, FindLF, Reachable;
    LiveClientFramed(s, i);
    LiveClientFramed(t, j);
  }

  /** Open or closed, for whatever reason: only messages the peer completed, in order, once each. */
  lemma DispatchedIsPrefix(s: State, id: nat)
    requires Reachable(s) && id < |s.k.conns|
    ensures var c := s.k.conns[id];
            c.lines <= Messages(c.got) && c.got <= c.Sent() && Messages(c.got) <= Messages(c.Sent())
  {
    hide Messages, Tail, FindLF;
    ReachableInv(s);
    MessagesGrow(s.k.conns[id].got, s.k.conns[id].unread);
  }

  // ---- No lost wake-up ----

  /** Between polls every live client with unread input still has its edge pending. */
  lemma NoLostWakeup(s: State, i: nat)
    requires Reachable(s) && s.ctl.Idle? && i < |s.slots| && s.slots[i].fd >= 0
    ensures s.k.Has(s.slots[i].fd)
    ensures s.k.Peer(s.slots[i].fd).Readable() ==> s.slots[i].fd in s.k.edges
  {
    hide Messages, Tail, FindLF, Synced;
    ReachableInv(s);
  }

  /** Hence a client the server will not be woken for has been served completely: everything its peer
      ever sent has been read and every message in it dispatched. */
  lemma QuietClientFullyServed(s: State, i: nat)
    requires Reachable(s) && s.ctl.Idle? && i < |s.slots| && s.slots[i].fd >= 0
    requires s.slots[i].fd !in s.k.edges
    ensures s.k.Has(s.slots[i].fd)
    ensures var c := s.k.Peer(s.slots[i].fd); !c.eof && !c.broken && c.got == c.Sent() && c.lines == Messages(c.Sent())
  {
    hide Messages, Tail, FindLF, Reachable;
    NoLostWakeup(s, i);
    LiveClientFramed(s, i);
  }

  /** In a sender's own terms: once the server has nothing more to be woken for, the callback has been
      given exactly what the client said, each message once and in order. */
  lemma SenderUnderstood(s: State, i: nat, ps: seq<Piece>, rest: string)
    requires Reachable(s) && s.ctl.Idle? && i < |s.slots| && s.slots[i].fd >= 0
    requires s.slots[i].fd !in s.k.edges
    requires s.k.Has(s.slots[i].fd) && s.k.Peer(s.slots[i].fd).Sent() == Wire(ps) + rest
    requires (forall p :: p in ps && p.Say? ==> Sayable(p.text)) && '\n' !in rest
    ensures s.k.Peer(s.slots[i].fd).lines == Said(ps)
  {
    hide Messages, Tail, Reachable;
    QuietClientFullyServed(s, i);
    MessagesOfWire(ps, rest);
  }

  // ---- Descriptors ----

  ghost predicate HeldBy(s: State, i: nat, id: nat) {
    i < |s.slots| && s.slots[i].fd in s.k.table && s.k.table[s.slots[i].fd] == id
  }

  /** Every accepted connection is in exactly one slot, or was closed exactly once. */
  lemma DescriptorOwned(s: State, id: nat)
    requires Reachable(s) && id < |s.k.conns|
    ensures s.k.conns[id].closes <= 1
    ensures s.k.conns[id].closes == 0 <==> exists i :: HeldBy(s, i, id)
    ensures forall i, j :: HeldBy(s, i, id) && HeldBy(s, j, id) ==> i == j
  {
    hide Messages, Tail, FindLF, Synced;
    ReachableInv(s);
    assert ClosedOrOpen(s.k.conns, s.k.table, id);
    if s.k.conns[id].closes == 0 {
      var i :| 0 <= i < |s.slots| && s.slots[i].fd == s.k.conns[id].fd;
      assert HeldBy(s, i, id);
    }
  }

  /** After tcp_server_destroy nothing the server opened is open. */
  lemma DestroyedLeaksNothing(s: State)
    requires Reachable(s) && s.ctl.Destroyed?
    ensures s.k.table == map[] && s.k.servers == {}
    ensures forall id :: 0 <= id < |s.k.conns| ==> s.k.conns[id].closes == 1
  {
    hide Messages, Tail, FindLF, Synced;
    ReachableInv(s);
    assert forall f :: f !in s.k.table;
    forall id | 0 <= id < |s.k.conns| ensures s.k.conns[id].closes == 1 {
      assert ClosedOrOpen(s.k.conns, s.k.table, id);
    }
  }

  /** client_count is exact, and passing the admission test guarantees a slot. */
  lemma AdmissionFindsSlot(s: State)
    requires Reachable(s)
    ensures 0 <= s.count == Used(s.slots) <= 8 == |s.slots|
    ensures s.count < 8 <==> FirstFree(s.slots) < |s.slots|
    ensures forall i, j :: 0 <= i < j < |s.slots| && s.slots[i].fd >= 0 ==> s.slots[i].fd != s.slots[j].fd
  {
    hide Messages, Tail, FindLF, Synced, Used;
    ReachableInv(s);
    UsedBound(s.slots);
  }

  // ---- Histories ----

  /** `d` is a later view of the connection seen as `c`. */
  predicate Later(c: Conn, d: Conn) {
    && d.fd == c.fd && d.caller == c.caller && c.got <= d.got && c.Sent() <= d.Sent() && c.lines <= d.lines && c.closes <= d.closes
    && (c.closes > 0 ==> d == c)
  }

  ghost predicate Continues(k: Kernel, k': Kernel) {
    |k.conns| <= |k'.conns| && forall id :: 0 <= id < |k.conns| ==> Later(k.conns[id], k'.conns[id])
  }

  lemma ContinuesUpdate(k: Kernel, f: int, c: Conn)
    requires Tables(k) && k.Has(f) && Later(k.Peer(f), c)
    ensures Continues(k, k.Update(f, c))
  {
  }

  lemma LaterRead(c: Conn, n: nat)
    requires n <= |c.unread| && c.closes == 0
    ensures Later(c, c.(got := c.got + c.unread[..n], unread := c.unread[n..]))
  {
    assert (c.got + c.unread[..n]) + c.unread[n..] == c.got + c.unread;
  }

  lemma LaterDeliver(c: Conn, inp: Input)
    requires c.closes == 0
    ensures Later(c, Arrived(c, inp))
  {
    assert c.got + (c.unread + inp.bytes) == c.got + c.unread + inp.bytes;
  }

  lemma StepContinues(s: State, a: Act)
    requires Tables(s.k) && Enabled(s, a)
    ensures Continues(s.k, Apply(s, a).k)
  {
    hide FindLF, Strip;
    match a
    case Deliver(f, inp) =>
      LaterDeliver(s.k.Peer(f), inp);
      ContinuesUpdate(s.k, f, Arrived(s.k.Peer(f), inp));
    case ReadData(n) =>
      var c := Current(s);
      LaterRead(c, n);
      ContinuesUpdate(s.k, c.fd, c.(got := c.got + c.unread[..n], unread := c.unread[n..]));
    case _ =>
  }

  lemma ContinuesTrans(k: Kernel, l: Kernel, m: Kernel)
    requires Continues(k, l) && Continues(l, m)
    ensures Continues(k, m)
  {
    forall id | 0 <= id < |k.conns| ensures Later(k.conns[id], m.conns[id]) {
      assert Later(k.conns[id], l.conns[id]) && Later(l.conns[id], m.conns[id]);
    }
  }

  lemma {:induction false} StepsContinue(s: State, acts: seq<Act>, t: State)
    requires Inv(s) && Steps(s, acts, t)
    ensures Continues(s.k, t.k)
    decreases |acts|
  {
    hide Framed, Awake, Owned, Staged, Later, Used, FindLF;
    if acts == [] {
      ContinuesRefl(s.k);
    } else {
      var m := Apply(s, acts[0]);
      StepContinues(s, acts[0]);
      Keeps(s, acts[0]);
      StepsContinue(m, acts[1..], t);
      ContinuesTrans(s.k, m.k, t.k);
    }
  }

  lemma ContinuesRefl(k: Kernel)
    ensures Continues(k, k)
  {
  }

  /** Over any run, what was sent, read and dispatched only grows, and a closed connection never
      changes again: no second close, no late line, however often its slot and number are reused. */
  lemma HistoryOnlyGrows(s: State, t: State)
    requires Reachable(s) && Runs(s, t)
    ensures Continues(s.k, t.k)
  {
    ReachableInv(s);
    var acts :| Steps(s, acts, t);
    hide Inv;
    StepsContinue(s, acts, t);
  }

  // ---- Callers ----

  /** Callers are numbered as they arrive; those taken come first and in order, those waiting follow. */
  ghost predicate InOrder(k: Kernel) {
    && k.arrived == |k.conns| + |k.waiting|
    && (forall id :: 0 <= id < |k.conns| ==> k.conns[id].caller == id)
    && (forall j :: 0 <= j < |k.waiting| ==> k.waiting[j].id == |k.conns| + j)
  }

  /** How a step changes the queue and the number of connections. */
  lemma QueueStep(s: State, a: Act)
    requires Enabled(s, a)
    ensures var k, k' := s.k, Apply(s, a).k;
            if a.Connect? then
              |k'.conns| == |k.conns| && k'.waiting == k.waiting + [Caller(k.arrived, Input([], false, false))] && k'.arrived == k.arrived + 1
            else if a.Store? || a.Refuse? then
              && k.waiting != [] && k'.waiting == k.waiting[1..] && k'.arrived == k.arrived
              && |k'.conns| == |k.conns| + 1 && k'.conns[|k.conns|].caller == k.waiting[0].id
            else
              && |k'.conns| == |k.conns| && k'.arrived == k.arrived && |k'.waiting| == |k.waiting|
              && forall j :: 0 <= j < |k.waiting| ==> k'.waiting[j].id == k.waiting[j].id
  {
    hide FindLF, Strip, Message, IndexOf, FirstFree;
  }

  lemma InOrderStep(s: State, a: Act)
    requires Tables(s.k) && InOrder(s.k) && Enabled(s, a)
    ensures InOrder(Apply(s, a).k)
  {
    StepContinues(s, a);
    QueueStep(s, a);
    var k, k' := s.k, Apply(s, a).k;
    hide Apply, Enabled, Tables;
    assert forall id :: 0 <= id < |k.conns| ==> Later(k.conns[id], k'.conns[id]);
  }

  lemma {:induction false} InOrderAlong(s: State, acts: seq<Act>, t: State)
    requires Inv(s) && InOrder(s.k) && Steps(s, acts, t)
    ensures InOrder(t.k)
    decreases |acts|
  {
    hide Framed, Awake, Owned, Staged, Used, FindLF, InOrder, Enabled, Apply;
    if acts != [] {
      InOrderStep(s, acts[0]);
      Keeps(s, acts[0]);
      InOrderAlong(Apply(s, acts[0]), acts[1..], t);
    }
  }

  /** Over any run nobody who calls is forgotten, taken twice or overtaken: the callers that arrived
      are those accepted or refused, in order, followed by those still waiting. */
  lemma EveryCallerInOrder(s: State)
    requires Reachable(s)
    ensures InOrder(s.k)
  {
    var l: int, e: int :| l >= 0 && e >= 0 && l != e && Runs(Start(l, e), s);
    var acts :| Steps(Start(l, e), acts, s);
    InvStart(l, e);
    hide Inv;
    InOrderAlong(Start(l, e), acts, s);
  }

  /** A move of the server, as opposed to one of its peers. */
  predicate ByServer(a: Act) { !a.Deliver? && !a.Connect? && !a.CallerSends? }

  /** What the server does about an event of the listening socket: it calls accept(), and if a caller
      waits and the kernel hands out a number, it has taken exactly the first caller, with all that
      caller sent. The connection is stored if and only if fewer than eight are open, and otherwise
      closed at once. */
  lemma ListenAnswered(s: State, a: Act)
    requires Reachable(s) && AtListen(s) && Enabled(s, a) && ByServer(a)
    ensures a.AcceptFails? || a.Refuse? || a.Store?
    ensures var k, k', f := s.k, Apply(s, a).k, s.ctl.todo[0].answer.fd;
            if k.waiting == [] || !k.CanAccept(f) then k' == k && Apply(s, a).slots == s.slots
            else
              && |k'.conns| == |k.conns| + 1 && k'.conns[..|k.conns|] == k.conns && k'.waiting == k.waiting[1..]
              && var c := k'.conns[|k.conns|];
              && c.caller == k.waiting[0].id && c.fd == f && c.got == [] && c.lines == []
              && Input(c.unread, c.eof, c.broken) == k.waiting[0].inp
              && c.closes == (if Used(s.slots) < 8 then 0 else 1)
              && (Used(s.slots) < 8 <==> exists i :: HeldBy(Apply(s, a), i, |k.conns|))
  {
    hide Messages, Tail, FindLF, Synced, Used, Framed, Awake;
    ReachableInv(s);
    if s.k.Takes(a.fd) {
      var n, t := |s.k.conns|, Apply(s, a);
      assert t.k.conns[..n] == s.k.conns;
      if s.count < MAX_CLIENTS {
        assert HeldBy(t, FirstFree(s.slots), n);
      } else {
        assert t.k.table == s.k.table;
      }
    }
  }

  /** What peers do meanwhile does not take the listening event away. */
  lemma ListenWaits(s: State, a: Act)
    requires AtListen(s) && s.k.Takes(s.ctl.todo[0].answer.fd) && Enabled(s, a) && !ByServer(a)
    ensures var t := Apply(s, a); t.ctl == s.ctl && AtListen(t) && t.k.Takes(t.ctl.todo[0].answer.fd)
  {
  }

  /** Hence a caller waiting when the listening event is next has been taken by the end of the poll,
      whatever happens in between. */
  lemma {:induction false} WaitingCallerTaken(s: State, acts: seq<Act>, t: State)
    requires Reachable(s) && AtListen(s) && s.k.Takes(s.ctl.todo[0].answer.fd)
    requires Steps(s, acts, t) && t.ctl.Idle?
    ensures |s.k.conns| < |t.k.conns| && t.k.conns[|s.k.conns|].caller == s.k.waiting[0].id
    decreases |acts|
  {
    hide Reachable, Enabled, Apply, Runs;
    var a, m := acts[0], Apply(s, acts[0]);
    ReachableStep(s, a);
    QueueStep(s, a);
    if ByServer(a) {
      ListenAnswered(s, a);
      assert Runs(m, t) by { RunsBy(m, acts[1..], t); }
      HistoryOnlyGrows(m, t);
      assert Later(m.k.conns[|s.k.conns|], t.k.conns[|s.k.conns|]);
    } else {
      ListenWaits(s, a);
      WaitingCallerTaken(m, acts[1..], t);
    }
  }

  lemma RunsBy(s: State, acts: seq<Act>, t: State)
    requires Steps(s, acts, t)
    ensures Runs(s, t)
  {
  }

  /** A client just stored is kept if and only if epoll agrees to watch it, and then an event is due at
      once if it has anything to read. */
  lemma RegistrationAnswered(s: State, a: Act)
    requires Reachable(s) && s.ctl.Adding? && Enabled(s, a) && ByServer(a)
    ensures a.AddOk? || a.AddFails?
    ensures var f, id, t := s.slots[s.ctl.slot].fd, CurrentId(s), Apply(s, a);
            if s.ctl.added
            then t.slots == s.slots && t.k.conns == s.k.conns && f in t.k.interest && (Current(s).Readable() ==> f in t.k.edges)
            else t.slots[s.ctl.slot].fd == -1 && f !in t.k.table && t.k.conns[id].closes == 1
  {
    hide Messages, Tail, FindLF, Synced, Used;
    ReachableInv(s);
  }

  // ---- The callback's verdict ----

  /** When the callback asks for its client to be closed it is closed at once, and over any run
      afterwards not one more line of it is dispatched; otherwise it stays open. */
  lemma VerdictObeyed(s: State, t: State)
    requires Reachable(s) && s.ctl.InCallback? && Enabled(s, Verdict) && Runs(Apply(s, Verdict), t)
    ensures var m, id := Apply(s, Verdict), CurrentId(s);
            if s.ctl.close
            then id < |t.k.conns| && t.k.conns[id].closes == 1 && t.k.conns[id].lines == Current(s).lines
            else m.k == s.k && m.slots == s.slots && m.ctl == Dispatching(s.ctl.slot, s.ctl.todo)
  {
    hide Messages, Tail, FindLF, Runs;
    ReachableInv(s);
    if s.ctl.close {
      var m := Apply(s, Verdict);
      ReachableStep(s, Verdict);
      HistoryOnlyGrows(m, t);
      assert Later(m.k.conns[CurrentId(s)], t.k.conns[CurrentId(s)]);
    }
  }

  lemma ReachableStep(s: State, a: Act)
    requires Reachable(s) && Enabled(s, a)
    ensures Reachable(Apply(s, a))
  {
    hide Runs, Enabled, Apply;
    var l: int, e: int :| l >= 0 && e >= 0 && l != e && Runs(Start(l, e), s);
    RunsStep(Start(l, e), s, a);
  }

  // ---- Isolation ----

  /** A step that adds a line to a connection is NextLine on the slot holding that connection's
      descriptor, and the line is cut out of the end of that connection's own bytes. */
  lemma LinesStayWithTheirConnection(s: State, a: Act, id: nat)
    requires Reachable(s) && Enabled(s, a) && id < |s.k.conns|
    requires id < |Apply(s, a).k.conns| && Apply(s, a).k.conns[id].lines != s.k.conns[id].lines
    ensures a.NextLine? && HeldBy(s, s.ctl.slot, id)
    ensures var c, pend := s.k.conns[id], s.slots[s.ctl.slot].pend;
            && |pend| <= |c.got| && c.got[|c.got| - |pend|..] == pend
            && Apply(s, a).k.conns[id].lines == c.lines + [Message(pend)]
  {
    hide Messages, Tail, FindLF, Strip, Reachable;
    if a.NextLine? {
      CurrentSynced(s);
    } else {
      OnlyNextLineLogs(s, a, id);
    }
  }

  lemma CurrentSynced(s: State)
    requires Reachable(s) && s.ctl.Dispatching?
    ensures HasSlot(s, s.ctl.slot) && Synced(Current(s), s.slots[s.ctl.slot].pend)
  {
    hide Messages, Tail, FindLF, Synced, Awake;
    ReachableInv(s);
  }

  lemma OnlyNextLineLogs(s: State, a: Act, id: nat)
    requires Enabled(s, a) && !a.NextLine? && id < |s.k.conns|
    ensures id < |Apply(s, a).k.conns| && Apply(s, a).k.conns[id].lines == s.k.conns[id].lines
  {
    hide FindLF;
  }

  /** An event whose client was closed earlier in the batch is skipped, unless the number is open
      again: then it names the slot of the connection that has it now, and is an ordinary drain. */
  lemma StaleEventHarmless(s: State)
    requires Reachable(s) && AtClient(s)
    ensures var f := s.ctl.todo[0].fd;
            && (Enabled(s, SkipStale) <==> f !in s.k.table)
            && (Enabled(s, BeginRecv) <==> f in s.k.table)
            && (f in s.k.table ==> s.k.Has(f) && HeldBy(s, IndexOf(s.slots, f), s.k.table[f]) && s.k.Peer(f).closes == 0)
  {
    hide Messages, Tail, FindLF, Synced, Awake;
    ReachableInv(s);
    RestIn(s.ctl.todo);
  }

  // ---- What closing loses ----

  /** Closing a client, by whatever route, discards exactly the messages still in its buffer; so
      everything it completed was dispatched if and only if the buffer holds no message. A client
      that is not being received from never loses one. */
  lemma CloseLosesBuffered(s: State, i: nat)
    requires Reachable(s) && i < |s.slots| && s.slots[i].fd >= 0
    ensures HasSlot(s, i)
    ensures var c := Free(s, i).k.conns[s.k.table[s.slots[i].fd]];
            && Messages(c.got) == c.lines + Messages(s.slots[i].pend)
            && (c.lines == Messages(c.got) <==> Messages(s.slots[i].pend) == [])
    ensures !(s.ctl.Busy() && s.ctl.slot == i) ==> Messages(s.slots[i].pend) == []
  {
    hide Messages, Tail, FindLF;
    ReachableInv(s);
    SyncedMessages(s.k.Peer(s.slots[i].fd), s.slots[i].pend);
    if LF !in s.slots[i].pend { NoLFNoLines(s.slots[i].pend); }
  }

  /** A peer that sends one complete line and hangs up before the server reads is closed with that
      line read but never dispatched: reads are drained before any line is looked at. */
  lemma HangUpCanLoseLine()
    ensures exists s :: Reachable(s) && |s.k.conns| == 1 && s.k.conns[0].closes == 1
                     && s.k.conns[0].lines == [] && Messages(s.k.conns[0].got) == ["a"]
  {
    hide Messages, Tail, Runs;
    var s0 := Start(3, 4);
    var s2 := CallerWithLine(s0);
    var s5 := AcceptCaller(s0, s2);
    LoseLine(s0, s5, "a\n");
  }

  lemma AcceptCaller(s0: State, s2: State) returns (s5: State)
    requires s0 == Start(3, 4) && Runs(s0, s2)
    requires s2 == s0.(k := s0.k.(waiting := [Caller(0, Input("a\n", true, false))], arrived := 1))
    ensures Runs(s0, s5) && s5.ctl == Batch([]) && s5.k.edges == {5} && |s5.slots| > 0 && s5.slots[0] == Slot(5, [])
    ensures s5.k.listenFd == 3 && s5.k.conns == [Conn(0, 5, [], "a\n", true, false, [], 0)] && s5.k.table == map[5 := 0]
  {
    hide Runs;
    var event := Event(3, Answer(5, true));
    var s3 := Apply(s2, Wait([event]));
    RunsStep(s0, s2, Wait([event]));
    RunsStep(s0, s3, Store(5));
    var s4 := Apply(s3, Store(5));
    assert FirstFree(s3.slots) == 0 && s4.k.Peer(5) == Conn(0, 5, [], "a\n", true, false, [], 0);
    s5 := Apply(s4, AddOk);
    RunsStep(s0, s4, AddOk);
  }

  lemma CallerWithLine(s0: State) returns (s2: State)
    requires s0 == Start(3, 4)
    ensures Runs(s0, s2) && s2 == s0.(k := s0.k.(waiting := [Caller(0, Input("a\n", true, false))], arrived := 1))
  {
    hide Runs;
    var first := Input("a\n", true, false);
    RunsRefl(s0);
    var s1 := Apply(s0, Act.Connect);
    RunsStep(s0, s0, Act.Connect);
    s2 := Apply(s1, CallerSends(0, first));
    RunsStep(s0, s1, CallerSends(0, first));
    assert [] + first.bytes == first.bytes;
  }

  lemma LoseLine(s0: State, s3: State, sent: string)
    requires s0 == Start(3, 4) && Runs(s0, s3) && sent == "a\n"
    requires s3.ctl == Batch([]) && s3.k.edges == {5} && |s3.slots| > 0 && s3.slots[0] == Slot(5, []) && s3.k.listenFd == 3
    requires s3.k.conns == [Conn(0, 5, [], sent, true, false, [], 0)] && s3.k.table == map[5 := 0]
    ensures exists s :: Reachable(s) && |s.k.conns| == 1 && s.k.conns[0].closes == 1
                     && s.k.conns[0].lines == [] && Messages(s.k.conns[0].got) == ["a"]
  {
    hide Messages, Tail, Runs;
    var s4 := Apply(s3, EndBatch);
    RunsStep(s0, s3, EndBatch);
    var event := Event(5, Answer(-1, false));
    var s5 := Apply(s4, Wait([event]));
    RunsStep(s0, s4, Wait([event]));
    assert IndexOf(s5.slots, 5) == 0;
    var s6 := Apply(s5, BeginRecv);
    RunsStep(s0, s5, BeginRecv);
    DrainAndDrop(s0, s6, sent);
  }

  lemma DrainAndDrop(s0: State, s6: State, sent: string)
    requires s0 == Start(3, 4) && Runs(s0, s6) && sent == "a\n"
    requires s6.ctl == Draining(0, []) && |s6.slots| > 0 && s6.slots[0] == Slot(5, [])
    requires s6.k.conns == [Conn(0, 5, [], sent, true, false, [], 0)] && s6.k.table == map[5 := 0]
    ensures exists s :: Reachable(s) && |s.k.conns| == 1 && s.k.conns[0].closes == 1
                     && s.k.conns[0].lines == [] && Messages(s.k.conns[0].got) == ["a"]
  {
    hide Messages, Tail, Runs, FindLF, Strip;
    var s7 := Apply(s6, ReadData(2));
    RunsStep(s0, s6, ReadData(2));
    assert s7.k.conns[0] == Conn(0, 5, sent, [], true, false, [], 0);
    var s8 := Apply(s7, Drop(Eof));
    RunsStep(s0, s7, Drop(Eof));
    MessagesOfA();
    assert s8.k.conns[0].got == sent;
    assert Reachable(s8);
  }

  lemma MessagesOfA()
    ensures Messages("a\n") == ["a"]
  {
    hide Messages, Tail, FindLF;
    assert "a\n" == [] + ("a" + [LF]);
    NothingYet();
    OneLine([], "a");
  }

  /** Bytes of the client being drained that are not dispatched yet, read or not. */
  function Backlog(s: State): nat
    requires s.ctl.Draining? && HasSlot(s, s.ctl.slot)
  {
    |s.slots[s.ctl.slot].pend| + |Current(s).unread|
  }

  /** What decides the fate of a client being drained: end of stream or failure already in the
      socket, or a backlog that will not fit the buffer, whatever lines it holds. */
  ghost predicate Doomed(s: State) {
    && s.ctl.Draining? && HasSlot(s, s.ctl.slot)
    && (Current(s).eof || Current(s).broken || Backlog(s) >= 8191)
  }

  /** The drain loop drops the client only if it is doomed, and reaches the lines only if it is not;
      a doomed client stays doomed, with nothing dispatched, until it is dropped. */
  lemma DoomedStep(s: State, a: Act)
    requires s.ctl.Draining? && HasSlot(s, s.ctl.slot) && Enabled(s, a) && Inv(s)
    ensures a.Drop? ==> Doomed(s)
    ensures a.ReadAgain? ==> !Doomed(s)
    ensures a.Drop? && a.why.Full? ==> Backlog(s) >= 8191
    ensures Doomed(s) && !a.Drop? ==>
              && Doomed(Apply(s, a)) && Apply(s, a).ctl == s.ctl && Apply(s, a).k.table == s.k.table
              && Apply(s, a).slots[s.ctl.slot].fd == s.slots[s.ctl.slot].fd
              && Current(Apply(s, a)).lines == Current(s).lines
  {
    hide Messages, Tail, FindLF, Synced, Framed, Awake, Owned;
  }

  /** The connection of the client being received from. */
  ghost function CurrentId(s: State): nat
    requires s.ctl.Busy() && HasSlot(s, s.ctl.slot)
  {
    s.k.table[s.slots[s.ctl.slot].fd]
  }

  /** A doomed client is never served again, over any run: not one more of its lines is dispatched,
      while it is drained or after. */
  lemma {:induction false} DoomedNeverServed(s: State, acts: seq<Act>, t: State)
    requires Doomed(s) && Steps(s, acts, t) && Inv(s)
    ensures CurrentId(s) < |t.k.conns| && t.k.conns[CurrentId(s)].lines == Current(s).lines
    decreases |acts|
  {
    hide Inv, Enabled, Apply;
    if acts != [] {
      var a, m := acts[0], Apply(s, acts[0]);
      DoomedStep(s, a);
      Keeps(s, a);
      if a.Drop? {
        DropCloses(s, a);
        StepsContinue(m, acts[1..], t);
        assert Later(m.k.conns[CurrentId(s)], t.k.conns[CurrentId(s)]);
      } else {
        DoomedNeverServed(m, acts[1..], t);
      }
    }
  }

  lemma DropCloses(s: State, a: Act)
    requires s.ctl.Draining? && HasSlot(s, s.ctl.slot) && Enabled(s, a) && a.Drop?
    ensures var m, id := Apply(s, a), CurrentId(s);
            id < |m.k.conns| && m.k.conns[id].closes > 0 && m.k.conns[id].lines == Current(s).lines
  {
    hide FindLF;
  }

  // ---- A client that is not doomed is served completely ----

  /** A step of one recv_client call on descriptor `f` during which its peer adds nothing and the
      callback does not ask for it to be closed. */
  predicate RecvAct(a: Act, f: int) {
    match a
    case Deliver(g, _) => g != f
    case NextLine(close) => !close
    case _ =>
      || a.ReadData? || a.ReadAgain? || a.Drop? || a.Verdict? || a.EndRecv? || a.CloseClient?
      || a.Connect? || a.CallerSends?
  }

  /** On the way from the start of the drain, with `sent` received from the peer in all, to the end. */
  ghost predicate OnCourse(s: State, i: nat, f: int, id: nat, sent: string, todo: seq<Event>) {
    && i < |s.slots| && s.slots[i].fd == f && s.k.Has(f) && s.k.table[f] == id
    && match s.ctl
       case Draining(j, r) => j == i && r == todo && !Doomed(s) && s.k.Peer(f).Sent() == sent
       case Dispatching(j, r) => j == i && r == todo && !s.k.Peer(f).Readable() && s.k.Peer(f).got == sent
       case InCallback(j, r, close) => j == i && r == todo && !close && !s.k.Peer(f).Readable() && s.k.Peer(f).got == sent
       case Batch(r) => r == todo && s.k.Peer(f).got == sent
       case _ => false
  }

  lemma CourseDrain(s: State, a: Act, i: nat, f: int, id: nat, sent: string, todo: seq<Event>)
    requires OnCourse(s, i, f, id, sent, todo) && s.ctl.Draining? && RecvAct(a, f) && Enabled(s, a) && Inv(s)
    ensures OnCourse(Apply(s, a), i, f, id, sent, todo)
  {
    hide Messages, Tail, FindLF, Strip, Synced, Owned, Framed, Awake, Staged;
    DoomedStep(s, a);
    if a.ReadData? { ReadKeepsSent(Current(s), a.n); }
    if a.ReadAgain? { assert Current(s).got + [] == Current(s).got; }
  }

  lemma CourseLines(s: State, a: Act, i: nat, f: int, id: nat, sent: string, todo: seq<Event>)
    requires OnCourse(s, i, f, id, sent, todo) && !s.ctl.Draining? && RecvAct(a, f) && Enabled(s, a)
    requires Tables(s.k) && Owned(s.k, s.slots)
    ensures OnCourse(Apply(s, a), i, f, id, sent, todo)
  {
    hide FindLF, Message, Doomed;
  }

  lemma CourseStep(s: State, a: Act, i: nat, f: int, id: nat, sent: string, todo: seq<Event>)
    requires OnCourse(s, i, f, id, sent, todo) && RecvAct(a, f) && Enabled(s, a) && Inv(s)
    ensures OnCourse(Apply(s, a), i, f, id, sent, todo)
  {
    hide OnCourse, RecvAct, Enabled, Apply, Tables, Owned, Framed, Awake, Staged, Used;
    if s.ctl.Draining? { CourseDrain(s, a, i, f, id, sent, todo); } else { CourseLines(s, a, i, f, id, sent, todo); }
  }

  lemma ReadKeepsSent(c: Conn, n: nat)
    requires n <= |c.unread|
    ensures (c.got + c.unread[..n]) + c.unread[n..] == c.got + c.unread
  {
    assert c.unread[..n] + c.unread[n..] == c.unread;
  }

  lemma {:induction false} CourseAlong(s: State, acts: seq<Act>, t: State, i: nat, f: int, id: nat, sent: string, todo: seq<Event>)
    requires OnCourse(s, i, f, id, sent, todo) && Steps(s, acts, t) && (forall a :: a in acts ==> RecvAct(a, f)) && Inv(s)
    ensures OnCourse(t, i, f, id, sent, todo) && Inv(t)
    decreases |acts|
  {
    hide Inv, OnCourse, RecvAct, Enabled, Apply;
    if acts != [] {
      assert acts[0] in acts;
      CourseStep(s, acts[0], i, f, id, sent, todo);
      Keeps(s, acts[0]);
      CourseAlong(Apply(s, acts[0]), acts[1..], t, i, f, id, sent, todo);
    }
  }

  /** Exactly when a complete line is handed over: take any run of one recv_client call during which
      the peer adds nothing and the callback does not ask to close. If the client was doomed at the
      start, nothing more of what it sent was dispatched; otherwise all of it was. */
  lemma RecvServesUnlessDoomed(s: State, acts: seq<Act>, t: State)
    requires Reachable(s) && s.ctl.Draining? && Steps(s, acts, t) && t.ctl == Batch(s.ctl.todo)
    requires HasSlot(s, s.ctl.slot) && forall a :: a in acts ==> RecvAct(a, s.slots[s.ctl.slot].fd)
    ensures CurrentId(s) < |t.k.conns|
    ensures t.k.conns[CurrentId(s)].lines == if Doomed(s) then Current(s).lines else Messages(Current(s).Sent())
  {
    ReachableInv(s);
    if Doomed(s) {
      hide Inv, Messages;
      DoomedNeverServed(s, acts, t);
    } else {
      var i, f, id := s.ctl.slot, s.slots[s.ctl.slot].fd, CurrentId(s);
      hide Inv, Messages, Steps, RecvAct, Doomed;
      CourseAlong(s, acts, t, i, f, id, Current(s).Sent(), s.ctl.todo);
      QuietSlotFramed(t, i);
    }
  }

  lemma QuietSlotFramed(s: State, i: nat)
    requires i < |s.slots| && s.slots[i].fd >= 0 && s.ctl.Batch? && Inv(s)
    ensures s.k.Has(s.slots[i].fd) && s.k.Peer(s.slots[i].fd).lines == Messages(s.k.Peer(s.slots[i].fd).got)
  {
    hide Messages, Tail, FindLF, Awake;
    SyncedMessages(s.k.Peer(s.slots[i].fd), s.slots[i].pend);
    NoLFNoLines(s.slots[i].pend);
  }
}
