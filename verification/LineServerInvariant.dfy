/** The invariant of the line server and its preservation by every action. */
module LineServerInvariant {
  import opened Framing
  import opened LineServer

  // ---- Descriptors ----

  /** Open client descriptors and unclosed connections are in one-to-one correspondence. */
  ghost predicate Tables(k: Kernel) {
    && k.listenFd >= 0 && k.epollFd >= 0 && k.listenFd != k.epollFd
    && (forall f :: f in k.table ==>
          && f >= 0 && f != k.listenFd && f != k.epollFd
          && k.table[f] < |k.conns| && k.conns[k.table[f]].fd == f && k.conns[k.table[f]].closes == 0)
    && (forall id :: 0 <= id < |k.conns| ==> ClosedOrOpen(k.conns, k.table, id))
    && k.edges <= k.interest <= k.table.Keys
  }

  ghost predicate ClosedOrOpen(conns: seq<Conn>, table: map<int, nat>, id: nat)
    requires id < |conns|
  {
    var c := conns[id];
    c.closes <= 1 && (c.closes == 0 ==> c.fd in table && table[c.fd] == id)
  }

  lemma TablesAccept(k: Kernel, f: int)
    requires Tables(k) && k.Takes(f)
    ensures Tables(k.Accept(f)) && k.Accept(f).Has(f)
    ensures f !in k.interest
  {
    var k' := k.Accept(f);
    forall id | 0 <= id < |k'.conns| ensures ClosedOrOpen(k'.conns, k'.table, id) {
      if id < |k.conns| { assert ClosedOrOpen(k.conns, k.table, id); }
    }
  }

  lemma TablesUpdate(k: Kernel, f: int, c: Conn)
    requires Tables(k) && k.Has(f)
    requires c.fd == f && c.closes == 0
    ensures Tables(k.Update(f, c))
  {
    var k' := k.Update(f, c);
    forall id | 0 <= id < |k'.conns| ensures ClosedOrOpen(k'.conns, k'.table, id) {
      assert ClosedOrOpen(k.conns, k.table, id);
    }
  }

  lemma TablesClose(k: Kernel, f: int)
    requires Tables(k) && k.Has(f)
    ensures Tables(k.Close(f))
  {
    var k' := k.Close(f);
    forall id | 0 <= id < |k'.conns| ensures ClosedOrOpen(k'.conns, k'.table, id) {
      assert ClosedOrOpen(k.conns, k.table, id);
    }
  }

  // ---- Slots ----

  /** Live slots hold distinct descriptors, and these are exactly the open client descriptors. */
  ghost predicate Owned(k: Kernel, slots: seq<Slot>) {
    && |slots| == MAX_CLIENTS
    && (forall i :: 0 <= i < |slots| ==> slots[i].fd == FREE || slots[i].fd in k.table)
    && (forall i, j :: 0 <= i < j < |slots| && slots[i].fd == slots[j].fd ==> slots[i].fd == FREE)
    && (forall f :: f in k.table ==> exists i :: 0 <= i < |slots| && slots[i].fd == f)
  }

  lemma OwnedStore(k: Kernel, slots: seq<Slot>, i: nat, f: int, k': Kernel)
    requires Tables(k) && Owned(k, slots) && k.CanAccept(f)
    requires i < |slots| && slots[i].fd == FREE
    requires k'.table.Keys == k.table.Keys + {f}
    ensures Owned(k', slots[i := Slot(f, [])])
  {
    var slots' := slots[i := Slot(f, [])];
    forall g | g in k'.table ensures exists j :: 0 <= j < |slots'| && slots'[j].fd == g {
      if g == f {
        assert slots'[i].fd == g;
      } else {
        var j :| 0 <= j < |slots| && slots[j].fd == g;
        assert slots'[j].fd == g;
      }
    }
  }

  lemma OwnedFree(k: Kernel, slots: seq<Slot>, i: nat, k': Kernel)
    requires Tables(k) && Owned(k, slots)
    requires i < |slots| && slots[i].fd in k.table
    requires k'.table.Keys == k.table.Keys - {slots[i].fd}
    ensures Owned(k', slots[i := Slot(FREE, [])])
  {
    var slots' := slots[i := Slot(FREE, [])];
    forall g | g in k'.table ensures exists j :: 0 <= j < |slots'| && slots'[j].fd == g {
      var j :| 0 <= j < |slots| && slots[j].fd == g;
      assert slots'[j].fd == g;
    }
  }

  lemma OwnedSame(k: Kernel, slots: seq<Slot>, i: nat, pend: string, k': Kernel)
    requires Owned(k, slots) && i < |slots| && k'.table == k.table
    ensures Owned(k', slots[i := Slot(slots[i].fd, pend)])
  {
    var slots' := slots[i := Slot(slots[i].fd, pend)];
    forall g | g in k'.table ensures exists j :: 0 <= j < |slots'| && slots'[j].fd == g {
      var j :| 0 <= j < |slots| && slots[j].fd == g;
      assert slots'[j].fd == g;
    }
  }

  /** Used() under a change of one slot. */
  lemma {:induction false} UsedUpdate(slots: seq<Slot>, i: nat, x: Slot)
    requires i < |slots|
    ensures Used(slots[i := x]) == Used(slots) - (if slots[i].fd >= 0 then 1 else 0) + (if x.fd >= 0 then 1 else 0)
  {
    if i == 0 {
      assert slots[i := x][1..] == slots[1..];
    } else {
      assert slots[i := x][1..] == slots[1..][i - 1 := x];
      UsedUpdate(slots[1..], i - 1, x);
    }
  }

  lemma {:induction false} UsedBound(slots: seq<Slot>)
    ensures Used(slots) <= |slots|
    ensures Used(slots) == |slots| <==> forall i :: 0 <= i < |slots| ==> slots[i].fd >= 0
  {
    if slots != [] {
      UsedBound(slots[1..]);
      if forall i :: 0 <= i < |slots[1..]| ==> slots[1..][i].fd >= 0 {
        assert forall i :: 1 <= i < |slots| ==> slots[i].fd == slots[1..][i - 1].fd;
      } else {
        var i :| 0 <= i < |slots[1..]| && slots[1..][i].fd < 0;
        assert slots[i + 1].fd < 0;
      }
    }
  }

  lemma {:induction false} UsedNone(slots: seq<Slot>)
    requires forall i :: 0 <= i < |slots| ==> slots[i].fd < 0
    ensures Used(slots) == 0
  {
    if slots != [] { UsedNone(slots[1..]); }
  }

  // ---- Framing ----

  /** The buffer is the end of what was read; everything before it is complete lines, dispatched. */
  predicate Synced(c: Conn, pend: string) {
    && |pend| <= |c.got|
    && c.got[|c.got| - |pend|..] == pend
    && Tail(c.got[..|c.got| - |pend|]) == []
    && c.lines == Messages(c.got[..|c.got| - |pend|])
  }

  /** So the messages of everything read are those dispatched, then those still in the buffer. */
  lemma SyncedMessages(c: Conn, pend: string)
    requires Synced(c, pend)
    ensures Messages(c.got) == c.lines + Messages(pend) && Tail(c.got) == Tail(pend)
    ensures c.lines <= Messages(c.got)
  {
    hide Messages, Tail;
    var done := c.got[..|c.got| - |pend|];
    assert c.got == done + pend;
    MessagesConcat(done, pend);
    assert [] + pend == pend;
  }

  /** Slots other than the one being received hold an unterminated line that leaves room to read. */
  ghost predicate Framed(s: State) {
    && (forall i :: 0 <= i < |s.slots| && s.slots[i].fd != FREE ==>
          s.k.Has(s.slots[i].fd) && Synced(s.k.Peer(s.slots[i].fd), s.slots[i].pend))
    && (forall i :: 0 <= i < |s.slots| ==>
          && (s.slots[i].fd == FREE ==> s.slots[i].pend == [])
          && |s.slots[i].pend| <= RECV_BUF_LEN - 1
          && ((s.ctl.Busy() && s.ctl.slot == i) || Quiet(s.slots[i].pend)))
    && (s.ctl.Busy() && !s.ctl.Draining? && s.ctl.slot < |s.slots| ==> |s.slots[s.ctl.slot].pend| <= RECV_BUF_LEN - 2)
    && (s.ctl.Adding? && s.ctl.slot < |s.slots| ==> s.slots[s.ctl.slot].pend == [])
  }

  predicate Quiet(pend: string) {
    LF !in pend && |pend| <= RECV_BUF_LEN - 2
  }

  /** Whatever happened to a connection, its dispatched lines are a prefix of its messages. */
  ghost predicate Prefixed(k: Kernel) {
    forall id :: 0 <= id < |k.conns| ==> k.conns[id].lines <= Messages(k.conns[id].got)
  }

  // ---- Wake-ups ----

  predicate Listed(todo: seq<Event>, f: int) { exists e :: e in todo && e.fd == f }

  /** A registered client with something to read will be looked at: its edge is pending, or its event
      is in the batch being handled, or it is being drained now. */
  ghost predicate Awake(s: State) {
    && (forall f :: f in s.k.interest && s.k.Has(f) && s.k.Peer(f).Readable() ==>
          || f in s.k.edges
          || (!s.ctl.Idle? && !s.ctl.Destroying? && !s.ctl.Destroyed? && Listed(s.ctl.todo, f))
          || (s.ctl.Draining? && s.ctl.slot < |s.slots| && s.slots[s.ctl.slot].fd == f))
    && (forall f :: f in s.k.table ==>
          f in s.k.interest || (s.ctl.Adding? && s.ctl.slot < |s.slots| && s.slots[s.ctl.slot].fd == f))
  }

  // ---- Control ----

  ghost predicate Staged(s: State) {
    && (s.ctl.Batch? || s.ctl.Busy() ==> forall e :: e in s.ctl.todo ==> e.fd >= 0)
    && (s.ctl.Busy() ==> s.ctl.slot < |s.slots| && s.slots[s.ctl.slot].fd != FREE)
    && (s.ctl.Destroying? ==> s.ctl.next <= |s.slots| && forall j :: 0 <= j < s.ctl.next ==> s.slots[j].fd == FREE)
    && (s.ctl.Destroyed? ==> forall j :: 0 <= j < |s.slots| ==> s.slots[j].fd == FREE)
    && s.k.servers == (if s.ctl.Destroyed? then {} else {s.k.listenFd, s.k.epollFd})
  }

  ghost predicate Inv(s: State) {
    && Tables(s.k) && Owned(s.k, s.slots) && s.count == Used(s.slots)
    && Framed(s) && Prefixed(s.k) && Awake(s) && Staged(s)
  }

  lemma InvStart(l: int, e: int)
    requires l >= 0 && e >= 0 && l != e
    ensures Inv(Start(l, e))
  {
    UsedNone(Start(l, e).slots);
  }

  // ---- Preservation, one lemma per kind of action ----

  lemma RestIn(todo: seq<Event>)
    ensures todo != [] ==> todo[0] in todo && forall e :: e in todo[1..] ==> e in todo
    ensures todo != [] ==> forall f :: Listed(todo, f) <==> f == todo[0].fd || Listed(todo[1..], f)
  {
    if todo != [] {
      forall f | Listed(todo, f) && f != todo[0].fd ensures Listed(todo[1..], f) {
        var e :| e in todo && e.fd == f;
        assert e in todo[1..];
      }
    }
  }

  lemma TablesDeliver(k: Kernel, f: int, inp: Input)
    requires Tables(k) && k.Has(f)
    ensures Tables(k.Deliver(f, inp)) && k.Peer(f).fd == f
    ensures forall g :: g in k.table && g != f ==>
      k.Has(g) && k.Deliver(f, inp).Has(g) && k.Deliver(f, inp).Peer(g) == k.Peer(g)
  {
    TablesUpdate(k, f, Arrived(k.Peer(f), inp));
  }

  lemma KeepsDeliver(s: State, f: int, inp: Input)
    requires Inv(s) && Enabled(s, Act.Deliver(f, inp))
    ensures Inv(Apply(s, Act.Deliver(f, inp)))
  {
    hide Messages, Tail, FindLF, Tables, Owned, Framed, Awake;
    TablesDeliver(s.k, f, inp);
    OwnedTable(s.k, s.slots, s.k.Deliver(f, inp));
    FramedDeliver(s, f, inp);
    AwakeDeliver(s, f, inp);
  }

  lemma OwnedTable(k: Kernel, slots: seq<Slot>, k': Kernel)
    requires Owned(k, slots) && k'.table == k.table
    ensures Owned(k', slots)
  {
  }

  lemma FramedDeliver(s: State, f: int, inp: Input)
    requires Tables(s.k) && Framed(s) && s.k.Has(f)
    ensures Framed(s.(k := s.k.Deliver(f, inp)))
  {
    hide Messages, Tail, FindLF, Tables, Synced;
    TablesDeliver(s.k, f, inp);
    SyncedPending(s.k.Peer(f), s.k.Deliver(f, inp).Peer(f));
  }

  lemma AwakeDeliver(s: State, f: int, inp: Input)
    requires Tables(s.k) && Awake(s) && s.k.Has(f)
    ensures Awake(s.(k := s.k.Deliver(f, inp)))
  {
    hide Tables;
    TablesDeliver(s.k, f, inp);
  }

  /** Undelivered input has no bearing on framing. */
  lemma SyncedPending(c: Conn, c': Conn)
    requires c'.got == c.got && c'.lines == c.lines
    ensures forall pend :: Synced(c, pend) <==> Synced(c', pend)
  {
  }

  /** Connections and open descriptors are the same, whatever happened to edges and the like. */
  predicate SameTable(k: Kernel, k': Kernel) {
    k'.conns == k.conns && k'.table == k.table && k'.listenFd == k.listenFd && k'.epollFd == k.epollFd
  }

  lemma TablesSame(k: Kernel, k': Kernel)
    requires Tables(k) && SameTable(k, k') && k'.edges <= k'.interest <= k'.table.Keys
    ensures Tables(k')
  {
  }

  /** A slot that stops being received from must be quiet. */
  lemma FramedControl(s: State, s': State)
    requires Framed(s) && SameTable(s.k, s'.k) && s'.slots == s.slots
    requires s.ctl.Busy() && s.ctl.slot < |s.slots| ==>
      (s'.ctl.Busy() && s'.ctl.slot == s.ctl.slot) || Quiet(s.slots[s.ctl.slot].pend)
    requires s'.ctl.Busy() && !s'.ctl.Draining? && s'.ctl.slot < |s.slots| ==> |s.slots[s'.ctl.slot].pend| <= RECV_BUF_LEN - 2
    requires !s'.ctl.Adding?
    ensures Framed(s')
  {
    hide Synced;
  }

  /** A step that changes only the control and the pending edges. */
  lemma KeepsControl(s: State, s': State)
    requires Inv(s) && SameTable(s.k, s'.k) && s'.k.edges <= s'.k.interest <= s'.k.table.Keys
    requires s'.slots == s.slots && s'.count == s.count && Framed(s') && Awake(s') && Staged(s')
    ensures Inv(s')
  {
    hide Messages, Tail, FindLF, Tables, Owned, Framed, Awake, Staged;
    TablesSame(s.k, s'.k);
    OwnedTable(s.k, s.slots, s'.k);
  }

  lemma EdgesOk(k: Kernel)
    requires Tables(k)
    ensures k.edges <= k.interest <= k.table.Keys
  {
  }

  /** What happens at the listening socket before accept() concerns nobody else. */
  lemma KeepsQueue(s: State, a: Act)
    requires Inv(s) && Enabled(s, a) && (a.Connect? || a.CallerSends?)
    ensures Inv(Apply(s, a))
  {
    hide Messages, Tail, FindLF, Tables, Owned, Framed, Awake;
    var s' := Apply(s, a);
    EdgesOk(s.k);
    FramedQueue(s, s');
    AwakeQueue(s, s');
    KeepsControl(s, s');
  }

  lemma FramedQueue(s: State, s': State)
    requires Framed(s) && SameTable(s.k, s'.k) && s'.slots == s.slots && s'.ctl == s.ctl
    ensures Framed(s')
  {
    hide Synced;
  }

  lemma AwakeQueue(s: State, s': State)
    requires Awake(s) && SameTable(s.k, s'.k) && s'.slots == s.slots && s'.ctl == s.ctl
    requires s'.k.interest == s.k.interest && s'.k.edges == s.k.edges
    ensures Awake(s')
  {
  }

  lemma KeepsWait(s: State, events: seq<Event>)
    requires Inv(s) && Enabled(s, Wait(events))
    ensures Inv(Apply(s, Wait(events)))
  {
    hide Messages, Tail, FindLF, Owned, Framed, Awake;
    var s' := Apply(s, Wait(events));
    FramedControl(s, s');
    AwakeWait(s, events);
    KeepsControl(s, s');
  }

  lemma AwakeWait(s: State, events: seq<Event>)
    requires Awake(s) && Enabled(s, Wait(events))
    ensures Awake(Apply(s, Wait(events)))
  {
  }

  lemma KeepsBatchStep(s: State, a: Act)
    requires Inv(s) && Enabled(s, a)
    requires a.EndBatch? || a.AcceptFails? || a.SkipStale? || a.BeginRecv?
    ensures Inv(Apply(s, a))
  {
    hide Messages, Tail, FindLF, Tables, Owned, Framed, Awake;
    var s' := Apply(s, a);
    RestIn(s.ctl.todo);
    EdgesOk(s.k);
    FramedControl(s, s');
    AwakeBatchStep(s, a);
    KeepsControl(s, s');
  }

  lemma AwakeBatchStep(s: State, a: Act)
    requires Tables(s.k) && Owned(s.k, s.slots) && Awake(s) && Enabled(s, a)
    requires a.EndBatch? || a.AcceptFails? || a.SkipStale? || a.BeginRecv?
    ensures Awake(Apply(s, a))
  {
    RestIn(s.ctl.todo);
  }

  lemma KeepsRefuse(s: State, f: int)
    requires Inv(s) && Enabled(s, Refuse(f))
    ensures Inv(Apply(s, Refuse(f)))
  {
    hide Messages, Tail, FindLF, Tables, Owned, Framed, Awake;
    var k' := RefusedKernel(s, f);
    var s' := Apply(s, Refuse(f));
    OwnedTable(s.k, s.slots, k');
    FramedRefuse(s, s');
    AwakeRefuse(s, s');
    RestIn(s.ctl.todo);
  }

  /** Accepting and closing at once only adds a closed connection to the record. */
  lemma RefusedKernel(s: State, f: int) returns (k': Kernel)
    requires Tables(s.k) && Prefixed(s.k) && Enabled(s, Refuse(f))
    ensures k' == Apply(s, Refuse(f)).k && Tables(k') && Prefixed(k')
    ensures k'.table == s.k.table && k'.interest == s.k.interest && k'.edges == s.k.edges
    ensures forall g :: g in s.k.table ==> s.k.Has(g) && k'.Has(g) && k'.Peer(g) == s.k.Peer(g)
  {
    hide Messages, Tail, FindLF;
    TablesAccept(s.k, f);
    var k1 := s.k.Accept(f);
    TablesClose(k1, f);
    k' := k1.Close(f);
    assert k'.table == s.k.table;
    PeersKept(s.k, k');
  }

  lemma FramedRefuse(s: State, s': State)
    requires Owned(s.k, s.slots) && Framed(s) && s.ctl.Batch? && s'.ctl.Batch? && s'.slots == s.slots
    requires forall g :: g in s.k.table ==> s.k.Has(g) && s'.k.Has(g) && s'.k.Peer(g) == s.k.Peer(g)
    ensures Framed(s')
  {
    hide Synced;
  }

  lemma AwakeRefuse(s: State, s': State)
    requires Tables(s.k) && Awake(s) && AtListen(s) && s'.ctl == Batch(s.ctl.todo[1..]) && s'.slots == s.slots
    requires s'.k.table == s.k.table && s'.k.interest == s.k.interest && s'.k.edges == s.k.edges
    requires forall g :: g in s.k.table ==> s.k.Has(g) && s'.k.Has(g) && s'.k.Peer(g) == s.k.Peer(g)
    ensures Awake(s')
  {
    RestIn(s.ctl.todo);
  }

  /** Appending connections leaves the open ones as they were. */
  lemma PeersKept(k: Kernel, k': Kernel)
    requires Tables(k) && k'.table == k.table && |k.conns| <= |k'.conns|
    requires forall id :: 0 <= id < |k.conns| ==> k'.conns[id] == k.conns[id]
    ensures forall f :: f in k.table ==> k.Has(f) && k'.Has(f) && k'.Peer(f) == k.Peer(f)
  {
  }

  lemma KeepsStore(s: State, f: int)
    requires Inv(s) && Enabled(s, Store(f))
    ensures Inv(Apply(s, Store(f)))
  {
    hide Messages, Tail, FindLF, Tables, Framed, Awake, Owned;
    var i := FirstFree(s.slots);
    SlotsFree(s);
    TablesAccept(s.k, f);
    OwnedStore(s.k, s.slots, i, f, s.k.Accept(f));
    UsedUpdate(s.slots, i, Slot(f, []));
    FramedStore(s, f);
    AwakeStore(s, f);
    RestIn(s.ctl.todo);
  }

  lemma SlotsFree(s: State)
    requires Tables(s.k) && Owned(s.k, s.slots)
    ensures |s.slots| == MAX_CLIENTS
    ensures forall i :: 0 <= i < |s.slots| && s.slots[i].fd < 0 ==> s.slots[i].fd == FREE
    ensures forall i :: 0 <= i < |s.slots| && s.slots[i].fd != FREE ==> HasSlot(s, i)
  {
  }

  lemma FramedStore(s: State, f: int)
    requires Tables(s.k) && Owned(s.k, s.slots) && Framed(s) && Prefixed(s.k) && Enabled(s, Store(f))
    ensures Framed(Apply(s, Store(f))) && Prefixed(Apply(s, Store(f)).k)
  {
    hide Messages, Tail, FindLF, Synced;
    var s' := Apply(s, Store(f));
    NewConnSynced(f, s.k.waiting[0]);
    forall i | 0 <= i < |s'.slots| && s'.slots[i].fd != FREE
      ensures s'.k.Has(s'.slots[i].fd) && Synced(s'.k.Peer(s'.slots[i].fd), s'.slots[i].pend)
    {
      if i != FirstFree(s.slots) { assert s'.slots[i] == s.slots[i]; }
    }
  }

  lemma NewConnSynced(f: int, c: Caller)
    ensures Synced(NewConn(f, c), []) && [] <= Messages([])
  {
    hide FindLF;
    NothingYet();
  }

  lemma NothingYet()
    ensures Messages([]) == [] && Tail([]) == []
  {
  }

  lemma AwakeStore(s: State, f: int)
    requires Tables(s.k) && Awake(s) && Enabled(s, Store(f))
    ensures Awake(Apply(s, Store(f)))
  {
  }

  lemma KeepsAddOk(s: State)
    requires Inv(s) && Enabled(s, AddOk)
    ensures Inv(Apply(s, AddOk))
  {
    hide Messages, Tail, FindLF, Owned, Awake, Synced;
    var s' := Apply(s, AddOk);
    FramedControl(s, s');
    AwakeAddOk(s);
    KeepsControl(s, s');
  }

  lemma AwakeAddOk(s: State)
    requires Awake(s) && Enabled(s, AddOk)
    ensures Awake(Apply(s, AddOk))
  {
  }

  /** What happens to the control when slot `i` is freed. */
  predicate FreeControl(s: State, i: nat, ctl: Control) {
    if s.ctl.Busy() && s.ctl.slot == i then ctl == Batch(s.ctl.todo)
    else if s.ctl.Destroying? then ctl == Destroying(i + 1) && s.ctl.next == i
    else ctl == s.ctl
  }

  /** free_client, whatever the reason. */
  lemma KeepsFree(s: State, i: nat, ctl: Control)
    requires Inv(s) && HasSlot(s, i) && FreeControl(s, i, ctl)
    ensures Inv(Free(s, i).(ctl := ctl))
  {
    hide Messages, Tail, FindLF, Tables, Framed, Awake, Owned;
    var f := s.slots[i].fd;
    TablesClose(s.k, f);
    SlotLive(s, i);
    OwnedFree(s.k, s.slots, i, s.k.Close(f));
    UsedUpdate(s.slots, i, Slot(FREE, []));
    FramedFree(s, i, ctl);
    PrefixedFree(s.k, f);
    AwakeFree(s, i, ctl);
  }

  lemma SlotLive(s: State, i: nat)
    requires Tables(s.k) && HasSlot(s, i)
    ensures s.slots[i].fd >= 0
  {
  }

  /** Closing a descriptor leaves the other open connections as they were. */
  lemma ClosePeers(k: Kernel, f: int)
    requires Tables(k) && k.Has(f)
    ensures forall g :: g in k.table && g != f ==> k.Has(g) && k.Close(f).Has(g) && k.Close(f).Peer(g) == k.Peer(g)
  {
  }

  lemma FramedFree(s: State, i: nat, ctl: Control)
    requires Tables(s.k) && Owned(s.k, s.slots) && Framed(s) && HasSlot(s, i) && FreeControl(s, i, ctl)
    ensures Framed(Free(s, i).(ctl := ctl))
  {
    hide Messages, Tail, FindLF, Tables, Synced;
    ClosePeers(s.k, s.slots[i].fd);
    SlotLive(s, i);
  }

  lemma PrefixedFree(k: Kernel, f: int)
    requires Prefixed(k) && k.Has(f)
    ensures Prefixed(k.Close(f))
  {
    hide Messages;
  }

  lemma AwakeFree(s: State, i: nat, ctl: Control)
    requires Tables(s.k) && Awake(s) && HasSlot(s, i) && FreeControl(s, i, ctl)
    ensures Awake(Free(s, i).(ctl := ctl))
  {
  }

  /** A step of recv_client that rewrites the current connection and its buffer. */
  lemma KeepsCurrent(s: State, c: Conn, pend: string, ctl: Control)
    requires Inv(s) && s.ctl.Busy() && HasSlot(s, s.ctl.slot)
    requires ctl.Busy() && ctl.slot == s.ctl.slot && ctl.todo == s.ctl.todo && !ctl.Adding? && !s.ctl.Adding?
    requires c.fd == s.slots[s.ctl.slot].fd && c.closes == 0 && c.lines <= Messages(c.got) && Synced(c, pend)
    requires |pend| <= RECV_BUF_LEN - (if ctl.Draining? then 1 else 2)
    requires !ctl.Draining? ==> !s.ctl.Draining? && (c.Readable() ==> Current(s).Readable())
    ensures var f, i := s.slots[s.ctl.slot].fd, s.ctl.slot;
            Inv(s.(k := s.k.Update(f, c), slots := s.slots[i := Slot(f, pend)], ctl := ctl))
  {
    hide Messages, Tail, FindLF, Owned, Tables, Framed, Awake, Synced;
    var f, i := s.slots[s.ctl.slot].fd, s.ctl.slot;
    var s' := s.(k := s.k.Update(f, c), slots := s.slots[i := Slot(f, pend)], ctl := ctl);
    TablesUpdate(s.k, f, c);
    OwnedSame(s.k, s.slots, i, pend, s.k.Update(f, c));
    UsedUpdate(s.slots, i, Slot(f, pend));
    OthersKept(s, f, c);
    FramedCurrent(s, c, pend, s');
    AwakeCurrent(s, c, pend, s');
  }

  lemma FramedCurrent(s: State, c: Conn, pend: string, s': State)
    requires Owned(s.k, s.slots) && Framed(s) && s.ctl.Busy() && HasSlot(s, s.ctl.slot)
    requires s'.ctl.Busy() && s'.ctl.slot == s.ctl.slot && !s'.ctl.Adding?
    requires var f := s.slots[s.ctl.slot].fd;
             && f != FREE && s' == s.(k := s.k.Update(f, c), slots := s.slots[s.ctl.slot := Slot(f, pend)], ctl := s'.ctl)
             && forall g :: g in s.k.table && g != f ==> s'.k.Has(g) && s'.k.Peer(g) == s.k.Peer(g)
    requires Synced(c, pend) && |pend| <= RECV_BUF_LEN - (if s'.ctl.Draining? then 1 else 2)
    ensures Framed(s')
  {
    hide Synced;
  }

  lemma AwakeCurrent(s: State, c: Conn, pend: string, s': State)
    requires Tables(s.k) && Awake(s) && s.ctl.Busy() && HasSlot(s, s.ctl.slot)
    requires s'.ctl.Busy() && s'.ctl.slot == s.ctl.slot && s'.ctl.todo == s.ctl.todo && !s'.ctl.Adding? && !s.ctl.Adding?
    requires var f := s.slots[s.ctl.slot].fd;
             && s' == s.(k := s.k.Update(f, c), slots := s.slots[s.ctl.slot := Slot(f, pend)], ctl := s'.ctl)
             && forall g :: g in s.k.table && g != f ==> s'.k.Has(g) && s'.k.Peer(g) == s.k.Peer(g)
    requires !s'.ctl.Draining? ==> !s.ctl.Draining? && (c.Readable() ==> Current(s).Readable())
    ensures Awake(s')
  {
  }

  lemma OthersKept(s: State, f: int, c: Conn)
    requires Tables(s.k) && Owned(s.k, s.slots) && s.k.Has(f)
    ensures forall g :: g in s.k.table && g != f ==> s.k.Update(f, c).Has(g) && s.k.Update(f, c).Peer(g) == s.k.Peer(g)
    ensures forall j, k :: 0 <= j < k < |s.slots| && s.slots[j].fd == s.slots[k].fd ==> s.slots[j].fd == FREE
  {
  }

  lemma KeepsReadData(s: State, n: nat)
    requires Inv(s) && Enabled(s, ReadData(n))
    ensures Inv(Apply(s, ReadData(n)))
  {
    hide Messages, Tail, FindLF, Owned, Awake;
    var c, pend := Current(s), s.slots[s.ctl.slot].pend;
    var c' := c.(got := c.got + c.unread[..n], unread := c.unread[n..]);
    SyncedRead(c, pend, c.unread[..n], c');
    KeepsCurrent(s, c', pend + c.unread[..n], s.ctl);
  }

  lemma SyncedRead(c: Conn, pend: string, chunk: string, c': Conn)
    requires Synced(c, pend)
    requires c'.lines == c.lines && c'.got == c.got + chunk
    ensures Synced(c', pend + chunk)
    ensures c'.lines <= Messages(c'.got)
  {
    hide Messages, Tail;
    assert c'.got[..|c'.got| - |pend + chunk|] == c.got[..|c.got| - |pend|];
    assert c'.got[|c'.got| - |pend + chunk|..] == pend + chunk;
    SyncedMessages(c', pend + chunk);
  }

  lemma KeepsNextLine(s: State, close: bool)
    requires Inv(s) && Enabled(s, NextLine(close))
    ensures Inv(Apply(s, NextLine(close)))
  {
    hide Messages, Tail, FindLF, Strip, Synced, Owned, Awake;
    var c, pend := Current(s), s.slots[s.ctl.slot].pend;
    var k, m := FindLF(pend, 0), Message(pend);
    FirstLF(pend);
    var c' := if m == [] then c else c.(lines := c.lines + [m]);
    assert c'.lines == c.lines + if m == [] then [] else [m];
    SyncedLine(c, pend, k, c');
    KeepsCurrent(s, c', pend[k + 1..], if m == [] then s.ctl else InCallback(s.ctl.slot, s.ctl.todo, close));
    assert m == [] ==> s.k.Update(c.fd, c) == s.k;
  }

  lemma FirstLF(pend: string)
    requires LF in pend
    ensures var k := FindLF(pend, 0); k < |pend| && pend[k] == LF && LF !in pend[..k]
  {
  }

  lemma SuffixAdvance(got: string, pend: string, k: nat)
    requires |pend| <= |got| && got[|got| - |pend|..] == pend && k < |pend|
    ensures var rest := pend[k + 1..];
            && |rest| == |pend| - k - 1
            && got[..|got| - |rest|] == got[..|got| - |pend|] + (pend[..k] + [pend[k]])
            && got[|got| - |rest|..] == rest
  {
  }

  lemma SyncedLine(c: Conn, pend: string, k: nat, c': Conn)
    requires Synced(c, pend) && k < |pend| && pend[k] == LF && LF !in pend[..k]
    requires c'.got == c.got
    requires c'.lines == c.lines + if Strip(pend[..k]) == [] then [] else [Strip(pend[..k])]
    ensures Synced(c', pend[k + 1..])
    ensures c'.lines <= Messages(c'.got)
  {
    hide Messages, Tail, Strip;
    OneLine(c.got[..|c.got| - |pend|], pend[..k]);
    SuffixAdvance(c.got, pend, k);
    SyncedMessages(c', pend[k + 1..]);
  }

  lemma KeepsRecvStep(s: State, a: Act)
    requires Inv(s) && Enabled(s, a)
    requires a.ReadAgain? || a.EndRecv? || (a.Verdict? && s.ctl.InCallback? && !s.ctl.close)
    ensures Inv(Apply(s, a))
  {
    hide Messages, Tail, FindLF, Tables, Owned, Awake, Synced;
    var s' := Apply(s, a);
    EdgesOk(s.k);
    FramedControl(s, s');
    AwakeRecvStep(s, a);
    KeepsControl(s, s');
  }

  lemma AwakeRecvStep(s: State, a: Act)
    requires Awake(s) && Enabled(s, a)
    requires a.ReadAgain? || a.EndRecv? || (a.Verdict? && s.ctl.InCallback? && !s.ctl.close)
    ensures Awake(Apply(s, a))
  {
  }

  /** The steps of tcp_server_destroy other than closing a client. */
  predicate ClosesNoClient(s: State, a: Act) {
    a.BeginDestroy? || a.CloseServer?
    || (a.DestroySlot? && s.ctl.Destroying? && s.ctl.next < |s.slots| && s.slots[s.ctl.next].fd < 0)
  }

  lemma KeepsDestroyStep(s: State, a: Act)
    requires ClosesNoClient(s, a) && Enabled(s, a) && Inv(s)
    ensures Inv(Apply(s, a))
  {
    hide Messages, Tail, FindLF, Tables, Owned, Framed, Awake;
    var s' := Apply(s, a);
    EdgesOk(s.k);
    SlotsFree(s);
    FramedControl(s, s');
    AwakeDestroyStep(s, a);
    KeepsControl(s, s');
  }

  lemma AwakeDestroyStep(s: State, a: Act)
    requires ClosesNoClient(s, a) && Enabled(s, a) && Awake(s)
    ensures Awake(Apply(s, a))
  {
  }

  lemma Keeps(s: State, a: Act)
    requires Inv(s) && Enabled(s, a)
    ensures Inv(Apply(s, a))
  {
    hide Inv;
    match a
    case Deliver(f, inp) => KeepsDeliver(s, f, inp);
    case Connect => KeepsQueue(s, a);
    case CallerSends(_, _) => KeepsQueue(s, a);
    case Wait(events) => KeepsWait(s, events);
    case Refuse(f) => KeepsRefuse(s, f);
    case Store(f) => KeepsStore(s, f);
    case AddOk => KeepsAddOk(s);
    case AddFails => KeepsFree(s, s.ctl.slot, Batch(s.ctl.todo));
    case ReadData(n) => KeepsReadData(s, n);
    case Drop(_) => KeepsFree(s, s.ctl.slot, Batch(s.ctl.todo));
    case NextLine(close) => KeepsNextLine(s, close);
    case Verdict =>
      if s.ctl.close { KeepsFree(s, s.ctl.slot, Batch(s.ctl.todo)); } else { KeepsRecvStep(s, a); }
    case CloseClient(f) =>
      if IndexOf(s.slots, f) < |s.slots| { KeepsFree(s, IndexOf(s.slots, f), s.ctl); }
    case DestroySlot =>
      if s.slots[s.ctl.next].fd >= 0 { KeepsFree(s, s.ctl.next, Destroying(s.ctl.next + 1)); }
      else { KeepsDestroyStep(s, a); }
    case ReadAgain => KeepsRecvStep(s, a);
    case EndRecv => KeepsRecvStep(s, a);
    case BeginDestroy => KeepsDestroyStep(s, a);
    case CloseServer => KeepsDestroyStep(s, a);
    case _ => KeepsBatchStep(s, a);
  }
}
