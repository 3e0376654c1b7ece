/** The two battery getters running against the callback threads: a callback copies its sample and
    stamps the topic in two steps, a getter looks at one cell at a time. */
module CacheRace {
  import opened Common
  import opened TelemetryCache

  /** drone_get_battery_info and drone_get_telemetry. */
  datatype Getter = Info | Tele

  /** The getter's next look. */
  datatype Pc =
    | AtTest                // sample taken, freshness not tested yet
    | AtGate1 | AtGate2     // telemetry only: has any pack reported?
    | AtLook1 | AtTake1(seen: bool)
    | AtLook2 | AtTake2(seen: bool)
    | Finished

  /** What the getter has read. Copies into a topic are numbered from 1: `serial` is the number of the
      whole-battery copy it took (0: none yet), `judged` that of the copy whose stamp it tested. */
  datatype View = View(
    whole: Bytes, serial: nat, judged: nat, trusted: bool, fallback: bool, pack1: Option<Bytes>, pack2: Option<Bytes>)

  datatype Reader = Off | On(getter: Getter, pc: Pc, v: View)

  /** A topic: its cell, every sample ever copied into it, the callbacks between copy and stamp, and
      which copy the present stamp belongs to. */
  datatype Slot = Slot(cell: Cell, stored: seq<Bytes>, open: set<nat>, owner: nat)

  datatype Race = Race(slots: map<Topic, Slot>, reader: Reader)

  /** `Mark` is the stamping by the callback that made copy number `id`. */
  datatype Act =
    | Copy(topic: Topic, data: Bytes) | Mark(topic: Topic, id: nat, now: nat)
    | Begin(getter: Getter) | TestFresh(now: nat) | Next | End

  predicate Total(r: Race) { forall t: Topic :: t in r.slots }

  function Start(lay: Layout): (r: Race)
    ensures Total(r)
  {
    Race(map t: Topic | true :: Slot(Blank(lay)[t], [], {}, 0), Off)
  }

  predicate Enabled(lay: Layout, r: Race, a: Act)
    requires Total(r)
  {
    match a
    case Copy(t, data) => |data| >= lay.size(t)
    case Mark(t, id, now) => id in r.slots[t].open
    case Begin(_) => r.reader.Off?
    case TestFresh(now) => r.reader.On? && r.reader.pc.AtTest?
    case Next => r.reader.On? && !r.reader.pc.AtTest? && !r.reader.pc.Finished?
    case End => r.reader.On? && r.reader.pc.Finished?
  }

  function Copied(lay: Layout, s: Slot, t: Topic, data: Bytes): Slot
    requires |data| >= lay.size(t)
  {
    var x := data[..lay.size(t)];
    Slot(s.cell.(sample := x), s.stored + [x], s.open + {|s.stored| + 1}, s.owner)
  }

  /** mark_topic_rx */
  function Marked(s: Slot, id: nat, now: nat): Slot {
    Slot(s.cell.(count := Wrap(s.cell.count + 1), stamp := now, logged := true), s.stored, s.open - {id}, id)
  }

  /** topic_is_fresh, and where its verdict leads. */
  function Judge(whole: Slot, d: Reader, now: nat): (d': Reader)
    requires d.On?
    ensures d'.On?
  {
    var v := d.v.(judged := whole.owner, trusted := Fresh(whole.cell, now));
    On(d.getter, if v.trusted then Finished else if d.getter.Info? then AtLook1 else AtGate1, v)
  }

  /** The looks at the packs. */
  function Look(p1: Cell, p2: Cell, d: Reader): Reader
    requires d.On?
  {
    match d.pc
    case AtGate1 => if Seen(p1) then On(d.getter, AtLook1, d.v.(fallback := true)) else d.(pc := AtGate2)
    case AtGate2 => if Seen(p2) then On(d.getter, AtLook1, d.v.(fallback := true)) else d.(pc := Finished)
    case AtLook1 => d.(pc := AtTake1(Seen(p1)))
    case AtTake1(seen) => On(d.getter, AtLook2, d.v.(pack1 := if seen then Some(p1.sample) else None))
    case AtLook2 => d.(pc := AtTake2(Seen(p2)))
    case AtTake2(seen) => On(d.getter, Finished, d.v.(pack2 := if seen then Some(p2.sample) else None))
    case _ => d
  }

  function Apply(lay: Layout, r: Race, a: Act): (r': Race)
    requires Total(r) && Enabled(lay, r, a)
    ensures Total(r')
  {
    match a
    case Copy(t, data) => r.(slots := r.slots[t := Copied(lay, r.slots[t], t, data)])
    case Mark(t, id, now) => r.(slots := r.slots[t := Marked(r.slots[t], id, now)])
    case Begin(g) =>
      var s := r.slots[Whole];
      r.(reader := On(g, AtTest, View(s.cell.sample, |s.stored|, 0, false, false, None, None)))
    case TestFresh(now) => r.(reader := Judge(r.slots[Whole], r.reader, now))
    case Next => r.(reader := Look(r.slots[Pack1].cell, r.slots[Pack2].cell, r.reader))
    case End => r.(reader := Off)
  }

  /** The state after a run from power-up, if the run is possible. */
  function Reach(lay: Layout, acts: seq<Act>): (r: Option<Race>)
    ensures r.Some? ==> Total(r.value)
  {
    if acts == [] then Some(Start(lay))
    else
      var r, a := Reach(lay, acts[..|acts| - 1]), acts[|acts| - 1];
      if r.Some? && Enabled(lay, r.value, a) then Some(Apply(lay, r.value, a)) else None
  }

  lemma ReachSnoc(lay: Layout, acts: seq<Act>, a: Act)
    ensures var r := Reach(lay, acts);
            Reach(lay, acts + [a]) == if r.Some? && Enabled(lay, r.value, a) then Some(Apply(lay, r.value, a)) else None
  {
    assert (acts + [a])[..|acts|] == acts;
  }

  // ---- What a run's events leave in a topic ----

  predicate CopyOf(a: Act, t: Topic) { a.Copy? && a.topic == t }

  predicate MarkOf(a: Act, t: Topic) { a.Mark? && a.topic == t }

  function Copies(acts: seq<Act>, t: Topic): nat {
    if acts == [] then 0 else Copies(acts[..|acts| - 1], t) + if CopyOf(acts[|acts| - 1], t) then 1 else 0
  }

  function Marks(acts: seq<Act>, t: Topic): nat {
    if acts == [] then 0 else Marks(acts[..|acts| - 1], t) + if MarkOf(acts[|acts| - 1], t) then 1 else 0
  }

  /** The copy last stamped in a run, and when; (0, 0) if none. */
  function LastMark(acts: seq<Act>, t: Topic): (nat, nat) {
    if acts == [] then (0, 0)
    else
      var a := acts[|acts| - 1];
      if MarkOf(a, t) then (a.id, a.now) else LastMark(acts[..|acts| - 1], t)
  }

  /** The sample last copied in a run. */
  function LastCopy(lay: Layout, acts: seq<Act>, t: Topic): Bytes {
    if acts == [] then Blank(lay)[t].sample
    else
      var a := acts[|acts| - 1];
      if CopyOf(a, t) && |a.data| >= lay.size(t) then a.data[..lay.size(t)] else LastCopy(lay, acts[..|acts| - 1], t)
  }

  predicate Tells(lay: Layout, s: Slot, acts: seq<Act>, t: Topic) {
    && |s.stored| == Copies(acts, t) && s.cell.sample == LastCopy(lay, acts, t)
    && (s.owner, s.cell.stamp) == LastMark(acts, t)
  }

  /** A topic changes by its own events only. */
  lemma ApplySlot(lay: Layout, r: Race, a: Act, t: Topic)
    requires Total(r) && Enabled(lay, r, a)
    ensures CopyOf(a, t) ==> |a.data| >= lay.size(t)
    ensures MarkOf(a, t) ==> a.id in r.slots[t].open
    ensures Apply(lay, r, a).slots[t] ==
            if CopyOf(a, t) then Copied(lay, r.slots[t], t, a.data)
            else if MarkOf(a, t) then Marked(r.slots[t], a.id, a.now) else r.slots[t]
  {
    hide Judge, Look, Copied, Marked;
  }

  /** Each topic's cell and stamp are told by its own events. */
  lemma {:induction false} EventsTell(lay: Layout, acts: seq<Act>, t: Topic)
    requires Reach(lay, acts).Some?
    ensures Tells(lay, Reach(lay, acts).value.slots[t], acts, t)
  {
    if acts != [] {
      hide Apply, Enabled, Wrap;
      EventsTell(lay, acts[..|acts| - 1], t);
      ApplySlot(lay, Reach(lay, acts[..|acts| - 1]).value, acts[|acts| - 1], t);
    }
  }

  // ---- Invariant ----

  /** Open and stamped copies were made; a stamp has an owner; the cell shows the last copy. */
  predicate SlotOk(s: Slot) {
    && (forall i :: i in s.open ==> 1 <= i <= |s.stored|)
    && s.owner <= |s.stored| && (s.cell.stamp != 0 ==> s.owner > 0)
    && (s.stored != [] ==> s.cell.sample == s.stored[|s.stored| - 1])
  }

  predicate From(s: Slot, p: Option<Bytes>) { p.Some? ==> p.value in s.stored }

  /** What the reader took from the packs, or is about to take, they delivered. */
  predicate PacksOk(p1: Slot, p2: Slot, d: Reader) {
    d.On? ==>
      && From(p1, d.v.pack1) && From(p2, d.v.pack2)
      && (d.pc.AtTake1? && d.pc.seen ==> p1.stored != []) && (d.pc.AtTake2? && d.pc.seen ==> p2.stored != [])
  }

  predicate WholeOk(w: Slot, d: Reader) {
    d.On? ==>
      && d.v.serial <= |w.stored| && d.v.judged <= |w.stored|
      && (d.v.serial > 0 ==> d.v.whole == w.stored[d.v.serial - 1]) && (d.v.trusted ==> d.v.judged > 0)
  }

  predicate ReaderOk(r: Race)
    requires Total(r)
  {
    WholeOk(r.slots[Whole], r.reader) && PacksOk(r.slots[Pack1], r.slots[Pack2], r.reader)
  }

  ghost predicate Inv(r: Race) {
    Total(r) && (forall t: Topic :: SlotOk(r.slots[t])) && ReaderOk(r)
  }

  lemma SlotKept(lay: Layout, r: Race, a: Act, t: Topic)
    requires Total(r) && SlotOk(r.slots[t]) && Enabled(lay, r, a)
    ensures SlotOk(Apply(lay, r, a).slots[t])
    ensures r.slots[t].stored <= Apply(lay, r, a).slots[t].stored
  {
    hide Judge, Look, Wrap;
  }

  lemma LookKept(w: Slot, p1: Slot, p2: Slot, d: Reader)
    requires d.On? && SlotOk(p1) && SlotOk(p2) && PacksOk(p1, p2, d) && WholeOk(w, d)
    ensures PacksOk(p1, p2, Look(p1.cell, p2.cell, d)) && WholeOk(w, Look(p1.cell, p2.cell, d))
  {
  }

  lemma GrownKept(w: Slot, p1: Slot, p2: Slot, w': Slot, p1': Slot, p2': Slot, d: Reader)
    requires PacksOk(p1, p2, d) && WholeOk(w, d)
    requires w.stored <= w'.stored && p1.stored <= p1'.stored && p2.stored <= p2'.stored
    ensures PacksOk(p1', p2', d) && WholeOk(w', d)
  {
  }

  lemma ReaderKept(lay: Layout, r: Race, a: Act)
    requires Total(r) && SlotOk(r.slots[Whole]) && SlotOk(r.slots[Pack1]) && SlotOk(r.slots[Pack2])
    requires ReaderOk(r) && Enabled(lay, r, a)
    ensures ReaderOk(Apply(lay, r, a))
  {
    var r' := Apply(lay, r, a);
    if a.Copy? || a.Mark? {
      hide PacksOk, WholeOk, SlotOk, Wrap;
      GrownKept(r.slots[Whole], r.slots[Pack1], r.slots[Pack2], r'.slots[Whole], r'.slots[Pack1], r'.slots[Pack2], r.reader);
    } else if a.Next? {
      hide PacksOk, WholeOk, SlotOk, Look;
      LookKept(r.slots[Whole], r.slots[Pack1], r.slots[Pack2], r.reader);
    }
  }

  /** Every step of callbacks and getter keeps the invariant. */
  lemma Keeps(lay: Layout, r: Race, a: Act)
    requires Inv(r) && Enabled(lay, r, a)
    ensures Inv(Apply(lay, r, a))
  {
    hide SlotOk, ReaderOk;
    forall t: Topic ensures SlotOk(Apply(lay, r, a).slots[t]) {
      SlotKept(lay, r, a, t);
    }
    ReaderKept(lay, r, a);
  }

  lemma {:induction false} ReachInv(lay: Layout, acts: seq<Act>)
    requires Reach(lay, acts).Some?
    ensures Inv(Reach(lay, acts).value)
  {
    if acts != [] {
      hide Inv, Apply, Enabled;
      ReachInv(lay, acts[..|acts| - 1]);
      Keeps(lay, Reach(lay, acts[..|acts| - 1]).value, acts[|acts| - 1]);
    }
  }

  /** However callbacks and getter interleave, in both getters: every pack that enters the fallback is
      a sample that pack really delivered, and a fresh verdict rests on a stamp that a delivered
      whole-battery sample was given. */
  lemma PacksCountedAreGenuine(lay: Layout, acts: seq<Act>)
    requires Reach(lay, acts).Some? && Reach(lay, acts).value.reader.On?
    ensures var r := Reach(lay, acts).value;
            var v := r.reader.v;
            && (v.pack1.Some? ==> v.pack1.value in r.slots[Pack1].stored)
            && (v.pack2.Some? ==> v.pack2.value in r.slots[Pack2].stored)
            && (v.serial > 0 ==> v.serial <= |r.slots[Whole].stored| && v.whole == r.slots[Whole].stored[v.serial - 1])
            && (v.trusted ==> 0 < v.judged <= |r.slots[Whole].stored|)
  {
    ReachInv(lay, acts);
  }

  // ---- Whose stamp was tested ----

  predicate Callback(a: Act) { a.Copy? || a.Mark? }

  /** Callbacks leave the getter alone. */
  lemma {:induction false} WindowKeepsReader(lay: Layout, acts: seq<Act>, window: seq<Act>)
    requires Reach(lay, acts + window).Some? && forall a :: a in window ==> Callback(a)
    ensures Reach(lay, acts).Some? && Reach(lay, acts + window).value.reader == Reach(lay, acts).value.reader
    decreases |window|
  {
    hide Enabled, Reach;
    if window == [] {
      assert acts + window == acts;
    } else {
      var w, a := window[..|window| - 1], window[|window| - 1];
      assert acts + window == (acts + w) + [a] && a in window;
      ReachSnoc(lay, acts + w, a);
      WindowKeepsReader(lay, acts, w);
    }
  }

  /** Steps of the getter are no events of a topic. */
  lemma {:induction false} SkipBegin(before: seq<Act>, g: Getter, window: seq<Act>, t: Topic)
    ensures LastMark(before + [Begin(g)] + window, t) == LastMark(before + window, t)
    decreases |window|
  {
    if window == [] {
      assert (before + [Begin(g)] + window)[..|before|] == before && before + window == before;
    } else {
      var w := window[..|window| - 1];
      SkipBegin(before, g, w, t);
      assert (before + [Begin(g)] + window)[..|before| + |window|] == before + [Begin(g)] + w;
      assert (before + window)[..|before| + |window| - 1] == before + w;
    }
  }

  /** A getter run up to its freshness test: started after `before`, with `window` in between. */
  function Tested(before: seq<Act>, g: Getter, window: seq<Act>, now: nat): seq<Act> {
    before + [Begin(g)] + window + [TestFresh(now)]
  }

  ghost predicate TestedRun(lay: Layout, before: seq<Act>, g: Getter, window: seq<Act>, now: nat) {
    Reach(lay, Tested(before, g, window, now)).Some? && forall a :: a in window ==> Callback(a)
  }

  /** What any getter run has in hand after its test, told by the whole-battery events alone. */
  lemma VerdictTold(lay: Layout, before: seq<Act>, g: Getter, window: seq<Act>, now: nat)
    requires TestedRun(lay, before, g, window, now)
    ensures var d := Reach(lay, Tested(before, g, window, now)).value.reader;
            var (id, at) := LastMark(before + window, Whole);
            && d.On? && d.getter == g
            && d.v.whole == LastCopy(lay, before, Whole) && d.v.serial == Copies(before, Whole)
            && d.v.judged == id && (d.v.trusted <==> 0 < at <= now <= at + 5000)
  {
    hide Reach, LastMark, LastCopy, Copies;
    var begun := before + [Begin(g)];
    ReachSnoc(lay, before, Begin(g));
    ReachSnoc(lay, begun + window, TestFresh(now));
    WindowKeepsReader(lay, begun, window);
    EventsTell(lay, before, Whole);
    EventsTell(lay, begun + window, Whole);
    SkipBegin(before, g, window, Whole);
  }

  /** The stamp tested is the one given to the sample reported. */
  ghost predicate VerdictFits(lay: Layout, before: seq<Act>, g: Getter, window: seq<Act>, now: nat)
    requires TestedRun(lay, before, g, window, now)
  {
    var d := Reach(lay, Tested(before, g, window, now)).value.reader;
    d.On? && d.v.judged == d.v.serial
  }

  /** Over all runs: the verdict is about the sample reported exactly when the last whole-battery stamp
      before the test belongs to the last whole-battery copy before the getter began. */
  lemma VerdictFitsExactly(lay: Layout, before: seq<Act>, g: Getter, window: seq<Act>, now: nat)
    requires TestedRun(lay, before, g, window, now)
    ensures VerdictFits(lay, before, g, window, now) <==> LastMark(before + window, Whole).0 == Copies(before, Whole)
  {
    hide Reach, LastMark, Copies;
    VerdictTold(lay, before, g, window, now);
  }

  /** Where it fits, it is right: fresh means that the very sample reported was delivered and stamped at
      most 5000 ms before the test. */
  lemma FittingVerdictSound(lay: Layout, before: seq<Act>, g: Getter, window: seq<Act>, now: nat)
    requires TestedRun(lay, before, g, window, now) && VerdictFits(lay, before, g, window, now)
    ensures var r := Reach(lay, Tested(before, g, window, now)).value;
            var (id, at) := LastMark(before + window, Whole);
            && r.reader.On? && r.reader.v.serial == id
            && (r.reader.v.trusted <==> 0 < at <= now <= at + 5000)
            && (r.reader.v.trusted ==>
                  0 < id <= |r.slots[Whole].stored| && r.reader.v.whole == r.slots[Whole].stored[id - 1])
  {
    hide Reach, LastMark, Copies, LastCopy;
    VerdictTold(lay, before, g, window, now);
    PacksCountedAreGenuine(lay, Tested(before, g, window, now));
  }

  // ---- One callback of a topic at a time ----

  /** A topic's callbacks do not overlap: each copy is stamped before the next copy. */
  predicate OneAtATime(acts: seq<Act>, t: Topic) {
    acts == [] || (OneAtATime(acts[..|acts| - 1], t) && Copies(acts, t) <= Marks(acts, t) + 1)
  }

  /** Then stamps are given in the order of the copies. */
  lemma {:induction false} StampsInOrder(lay: Layout, acts: seq<Act>, t: Topic)
    requires Reach(lay, acts).Some? && OneAtATime(acts, t)
    ensures var s := Reach(lay, acts).value.slots[t];
            && |s.stored| == Copies(acts, t) && s.owner == Marks(acts, t)
            && s.open == if Copies(acts, t) == Marks(acts, t) + 1 then {Copies(acts, t)} else {}
    ensures Marks(acts, t) <= Copies(acts, t)
  {
    if acts != [] {
      hide Apply, Enabled, Wrap;
      StampsInOrder(lay, acts[..|acts| - 1], t);
      ApplySlot(lay, Reach(lay, acts[..|acts| - 1]).value, acts[|acts| - 1], t);
    }
  }

  lemma {:induction false} CountsAdd(a: seq<Act>, b: seq<Act>, t: Topic)
    ensures Marks(a + b, t) == Marks(a, t) + Marks(b, t)
    decreases |b|
  {
    if b == [] {
      assert a + b == a;
    } else {
      assert (a + b)[..|a + b| - 1] == a + b[..|b| - 1];
      CountsAdd(a, b[..|b| - 1], t);
    }
  }

  lemma MarksOfBegin(g: Getter, t: Topic)
    ensures Marks([Begin(g)], t) == 0
  {
  }

  /** Whole-battery callbacks between copy and stamp. */
  function Pending(acts: seq<Act>): int { Copies(acts, Whole) - Marks(acts, Whole) }

  /** With callbacks one at a time, the copy judged is the copy reported, moved on by one for every
      stamp between the two looks and back by one for a callback open at the first. So the verdict fits
      exactly when the window holds one stamp if a callback was open, and none otherwise. */
  lemma VerdictOffset(lay: Layout, before: seq<Act>, g: Getter, window: seq<Act>, now: nat)
    requires TestedRun(lay, before, g, window, now) && OneAtATime(before + [Begin(g)] + window, Whole)
    ensures 0 <= Pending(before) <= 1
    ensures var d := Reach(lay, Tested(before, g, window, now)).value.reader;
            d.On? && d.v.judged == d.v.serial + Marks(window, Whole) - Pending(before)
    ensures VerdictFits(lay, before, g, window, now) <==> Marks(window, Whole) == Pending(before)
  {
    hide Reach, LastMark, Copies, Marks, OneAtATime;
    var begun := before + [Begin(g)];
    VerdictTold(lay, before, g, window, now);
    ReachSnoc(lay, begun + window, TestFresh(now));
    StampsInOrder(lay, begun + window, Whole);
    EventsTell(lay, begun + window, Whole);
    SkipBegin(before, g, window, Whole);
    CountsAdd(begun, window, Whole);
    CountsAdd(before, [Begin(g)], Whole);
    MarksOfBegin(g, Whole);
    assert before + ([Begin(g)] + window) == begun + window;
    PrefixOrderly(before, [Begin(g)] + window, Whole);
    PrefixReach(lay, before, [Begin(g)] + window);
    StampsInOrder(lay, before, Whole);
    PendingBound(before, Whole);
  }

  lemma {:induction false} PrefixOrderly(a: seq<Act>, b: seq<Act>, t: Topic)
    requires OneAtATime(a + b, t)
    ensures OneAtATime(a, t)
    decreases |b|
  {
    if b == [] {
      assert a + b == a;
    } else {
      assert (a + b)[..|a + b| - 1] == a + b[..|b| - 1];
      PrefixOrderly(a, b[..|b| - 1], t);
    }
  }

  lemma {:induction false} PrefixReach(lay: Layout, a: seq<Act>, b: seq<Act>)
    requires Reach(lay, a + b).Some?
    ensures Reach(lay, a).Some?
    decreases |b|
  {
    hide Enabled, Apply;
    if b == [] {
      assert a + b == a;
    } else {
      assert (a + b)[..|a + b| - 1] == a + b[..|b| - 1];
      PrefixReach(lay, a, b[..|b| - 1]);
    }
  }

  lemma PendingBound(acts: seq<Act>, t: Topic)
    requires OneAtATime(acts, t)
    ensures Copies(acts, t) <= Marks(acts, t) + 1
  {
  }

  // ---- Both ways to misjudge ----

  /** One stamp ahead: a callback between the looks makes the getter report as fresh a sample that
      was never received. */
  lemma NeverReceivedJudgedFresh(lay: Layout, g: Getter, data: Bytes, now: nat)
    requires |data| >= lay.size(Whole) && now > 0
    ensures var window := [Copy(Whole, data), Mark(Whole, 1, now)];
            && TestedRun(lay, [], g, window, now) && !VerdictFits(lay, [], g, window, now)
            && var d := Reach(lay, Tested([], g, window, now)).value.reader;
               d.On? && d.v.trusted && d.v.serial == 0 && d.v.whole == Blank(lay)[Whole].sample
  {
    hide Reach, Wrap;
    var window := [Copy(Whole, data), Mark(Whole, 1, now)];
    assert Reach(lay, []) == Some(Start(lay)) by { ReachNone(lay); }
    ReachSnoc(lay, [], Begin(g));
    ReachSnoc(lay, [] + [Begin(g)], Copy(Whole, data));
    ReachSnoc(lay, [] + [Begin(g)] + [Copy(Whole, data)], Mark(Whole, 1, now));
    assert [] + [Begin(g)] + [Copy(Whole, data)] + [Mark(Whole, 1, now)] == [] + [Begin(g)] + window;
    ReachSnoc(lay, [] + [Begin(g)] + window, TestFresh(now));
  }

  lemma ReachNone(lay: Layout)
    ensures Reach(lay, []) == Some(Start(lay))
  {
  }

  /** One stamp behind: a sample just stored, its callback not yet done, is judged stale by the stamp
      of the one before. */
  lemma JustStoredJudgedStale(lay: Layout, g: Getter, a: Bytes, b: Bytes, at: nat, now: nat)
    requires |a| >= lay.size(Whole) && |b| >= lay.size(Whole) && now > at + 5000
    ensures var before := [Copy(Whole, a), Mark(Whole, 1, at), Copy(Whole, b)];
            && TestedRun(lay, before, g, [], now) && !VerdictFits(lay, before, g, [], now)
            && var d := Reach(lay, Tested(before, g, [], now)).value.reader;
               d.On? && !d.v.trusted && d.v.serial == 2 && d.v.judged == 1 && d.v.whole == b[..lay.size(Whole)]
  {
    hide Reach, Wrap;
    var before := [Copy(Whole, a), Mark(Whole, 1, at), Copy(Whole, b)];
    ReachNone(lay);
    ReachSnoc(lay, [], Copy(Whole, a));
    ReachSnoc(lay, [] + [Copy(Whole, a)], Mark(Whole, 1, at));
    ReachSnoc(lay, [] + [Copy(Whole, a)] + [Mark(Whole, 1, at)], Copy(Whole, b));
    assert [] + [Copy(Whole, a)] + [Mark(Whole, 1, at)] + [Copy(Whole, b)] == before;
    ReachSnoc(lay, before, Begin(g));
    assert before + [Begin(g)] + [] == before + [Begin(g)];
    ReachSnoc(lay, before + [Begin(g)] + [], TestFresh(now));
  }

  // ---- The telemetry fallback ----

  /** No stamp is the zero that stands for "never". */
  predicate Ticking(acts: seq<Act>) { forall a :: a in acts ==> a.Mark? ==> a.now != 0 }

  /** A pack the gate saw is still there to be counted. */
  predicate Counting(p1: Cell, p2: Cell, d: Reader) {
    d.On? && d.v.fallback ==>
      match d.pc
      case AtTest => false
      case AtGate1 => false
      case AtGate2 => false
      case AtLook1 => Seen(p1) || Seen(p2)
      case AtTake1(seen) => seen || Seen(p2)
      case AtLook2 => d.v.pack1.Some? || Seen(p2)
      case AtTake2(seen) => d.v.pack1.Some? || seen
      case Finished => d.v.pack1.Some? || d.v.pack2.Some?
  }

  lemma LookCounts(p1: Cell, p2: Cell, d: Reader)
    requires d.On? && Counting(p1, p2, d)
    ensures Counting(p1, p2, Look(p1, p2, d))
  {
  }

  lemma CallbackCounts(p1: Cell, p2: Cell, p1': Cell, p2': Cell, d: Reader)
    requires Counting(p1, p2, d) && (Seen(p1) ==> Seen(p1')) && (Seen(p2) ==> Seen(p2'))
    ensures Counting(p1', p2', d)
  {
  }

  /** As long as no stamp is zero, a telemetry read that takes the fallback counts at least one pack,
      whatever arrives between its looks. */
  lemma {:induction false} FallbackCounts(lay: Layout, acts: seq<Act>)
    requires Reach(lay, acts).Some? && Ticking(acts)
    ensures var r := Reach(lay, acts).value; Counting(r.slots[Pack1].cell, r.slots[Pack2].cell, r.reader)
  {
    if acts != [] {
      var init, a := acts[..|acts| - 1], acts[|acts| - 1];
      assert forall b :: b in init ==> b in acts;
      FallbackCounts(lay, init);
      var r := Reach(lay, init).value;
      var p1, p2 := r.slots[Pack1].cell, r.slots[Pack2].cell;
      if Callback(a) {
        hide Counting, Wrap;
        var r' := Apply(lay, r, a);
        CallbackCounts(p1, p2, r'.slots[Pack1].cell, r'.slots[Pack2].cell, r.reader);
      } else if a.Next? {
        hide Counting, Look;
        LookCounts(p1, p2, r.reader);
      }
    }
  }

  /** The pack a getter is about to look at. */
  function PackAt(pc: Pc): Topic
    requires pc.AtLook1? || pc.AtLook2?
  {
    if pc.AtLook1? then Pack1 else Pack2
  }

  function PackOf(v: View, t: Topic): Option<Bytes> { if t == Pack1 then v.pack1 else v.pack2 }

  /** Exactly when a pack is counted, in either getter: when the last stamp it was given before the look
      is not zero. What is counted is the sample in place at the second look. */
  lemma PackTold(lay: Layout, upto: seq<Act>, window: seq<Act>)
    requires Reach(lay, upto + [Next] + window + [Next]).Some? && forall a :: a in window ==> Callback(a)
    requires Reach(lay, upto).Some?
    requires var d := Reach(lay, upto).value.reader; d.On? && (d.pc.AtLook1? || d.pc.AtLook2?)
    ensures var t := PackAt(Reach(lay, upto).value.reader.pc);
            var d := Reach(lay, upto + [Next] + window + [Next]).value.reader;
            d.On? && PackOf(d.v, t) ==
              if LastMark(upto, t).1 != 0 then Some(LastCopy(lay, upto + [Next] + window, t)) else None
  {
    hide Reach, LastMark, LastCopy, Copies;
    var t := PackAt(Reach(lay, upto).value.reader.pc);
    ReachSnoc(lay, upto, Next);
    ReachSnoc(lay, upto + [Next] + window, Next);
    WindowKeepsReader(lay, upto + [Next], window);
    EventsTell(lay, upto, t);
    EventsTell(lay, upto + [Next] + window, t);
  }

  // ---- What the getters make of their readings ----

  function PercentOf(lay: Layout, v: View): U8 {
    var n := (if v.pack1.Some? then 1 else 0) + if v.pack2.Some? then 1 else 0;
    var x1: nat := if v.pack1.Some? then lay.packPct(v.pack1.value) else 0;
    var x2: nat := if v.pack2.Some? then lay.packPct(v.pack2.value) else 0;
    if n > 0 then ByteMean(x1 + x2, n) else lay.wholePct(v.whole)
  }

  function VoltageOf(lay: Layout, p: Option<Bytes>): U32 {
    if p.Some? then AsU32(lay.packVoltage(p.value)) else 0
  }

  /** drone_get_battery_info */
  function InfoReport(lay: Layout, v: View): BatteryInfo {
    var mv1 := if v.pack1.Some? then VoltageOf(lay, v.pack1) else AsU32(lay.wholeVoltage(v.whole));
    var mv2 := VoltageOf(lay, v.pack2);
    var ma0 := Some(lay.wholeCurrent(v.whole));
    var ma1 := if v.pack1.Some? then AddTo(ma0, lay.packCurrent(v.pack1.value)) else ma0;
    var ma2 := if v.pack2.Some? then AddTo(ma1, lay.packCurrent(v.pack2.value)) else ma1;
    var t1: I16 := if v.pack1.Some? then lay.packTemp(v.pack1.value) else 0;
    var t2 := if v.pack2.Some? && lay.packTemp(v.pack2.value) > t1 then lay.packTemp(v.pack2.value) else t1;
    BatteryInfo(if mv2 > mv1 then mv2 else mv1, ma2, PercentOf(lay, v), t2)
  }

  /** The battery part of drone_get_telemetry. */
  function TeleReport(lay: Layout, v: View): TelemetryBattery {
    var mv1, mv2 := VoltageOf(lay, v.pack1), VoltageOf(lay, v.pack2);
    TelemetryBattery(PercentOf(lay, v),
      if !v.fallback then AsU32(lay.wholeVoltage(v.whole)) else if mv2 > mv1 then mv2 else mv1)
  }

  function CellsOf(r: Race): (c: Cells)
    requires Total(r)
    ensures Full(c)
  {
    map t: Topic | true :: r.slots[t].cell
  }

  /** How many looks at the packs a getter takes with nothing in between. */
  function Looks(g: Getter, c: Cells, now: nat): nat
    requires Full(c)
  {
    if Fresh(c[Whole], now) then 0 else if g.Info? then 4
    else if Seen(c[Pack1]) then 5 else if Seen(c[Pack2]) then 6 else 2
  }

  /** The readings of one instant. */
  function Instant(g: Getter, w: Slot, p1: Cell, p2: Cell, now: nat): View {
    var stale := !Fresh(w.cell, now);
    View(w.cell.sample, |w.stored|, w.owner, !stale, g.Tele? && stale && (Seen(p1) || Seen(p2)),
         if stale && Seen(p1) then Some(p1.sample) else None, if stale && Seen(p2) then Some(p2.sample) else None)
  }

  function LookTimes(p1: Cell, p2: Cell, d: Reader, n: nat): (d': Reader)
    requires d.On?
    ensures d'.On?
  {
    if n == 0 then d else Look(p1, p2, LookTimes(p1, p2, d, n - 1))
  }

  /** The steps from the freshness test on, in a row. */
  function InARow(g: Getter, now: nat, n: nat): seq<Act> {
    if n == 0 then [Begin(g)] + [TestFresh(now)] else InARow(g, now, n - 1) + [Next]
  }

  predicate Looking(d: Reader) { d.On? && !d.pc.AtTest? && !d.pc.Finished? }

  lemma RowReach(lay: Layout, before: seq<Act>, g: Getter, now: nat)
    requires Reach(lay, before).Some? && Reach(lay, before).value.reader.Off?
    ensures var r := Reach(lay, before).value;
            var w := r.slots[Whole];
            var d := Judge(w, On(g, AtTest, View(w.cell.sample, |w.stored|, 0, false, false, None, None)), now);
            Reach(lay, before + InARow(g, now, 0)) == Some(r.(reader := d))
  {
    hide Reach;
    ReachSnoc(lay, before, Begin(g));
    ReachSnoc(lay, before + [Begin(g)], TestFresh(now));
    assert before + [Begin(g)] + [TestFresh(now)] == before + InARow(g, now, 0);
  }

  lemma {:induction false} RowLooks(lay: Layout, before: seq<Act>, g: Getter, now: nat, r: Race, n: nat)
    requires Reach(lay, before + InARow(g, now, 0)) == Some(r) && r.reader.On?
    requires forall k :: 0 <= k < n ==> Looking(LookTimes(r.slots[Pack1].cell, r.slots[Pack2].cell, r.reader, k))
    ensures Reach(lay, before + InARow(g, now, n)) ==
            Some(r.(reader := LookTimes(r.slots[Pack1].cell, r.slots[Pack2].cell, r.reader, n)))
    decreases n
  {
    hide Reach, Look;
    if n > 0 {
      RowLooks(lay, before, g, now, r, n - 1);
      ReachSnoc(lay, before + InARow(g, now, n - 1), Next);
      assert before + InARow(g, now, n) == before + InARow(g, now, n - 1) + [Next];
      assert Looking(LookTimes(r.slots[Pack1].cell, r.slots[Pack2].cell, r.reader, n - 1));
    }
  }

  lemma LooksEnd(g: Getter, c: Cells, w: Slot, now: nat)
    requires Full(c) && w.cell == c[Whole]
    ensures var d := Judge(w, On(g, AtTest, View(w.cell.sample, |w.stored|, 0, false, false, None, None)), now);
            && (forall k :: 0 <= k < Looks(g, c, now) ==> Looking(LookTimes(c[Pack1], c[Pack2], d, k)))
            && LookTimes(c[Pack1], c[Pack2], d, Looks(g, c, now)) == On(g, Finished, Instant(g, w, c[Pack1], c[Pack2], now))
  {
    var p1, p2 := c[Pack1], c[Pack2];
    var d := Judge(w, On(g, AtTest, View(w.cell.sample, |w.stored|, 0, false, false, None, None)), now);
    assert LookTimes(p1, p2, d, 0) == d;
    assert LookTimes(p1, p2, d, 1) == Look(p1, p2, d);
    var d2 := LookTimes(p1, p2, d, 2);
    var d3 := LookTimes(p1, p2, d, 3);
    var d4 := LookTimes(p1, p2, d, 4);
    var d5 := LookTimes(p1, p2, d, 5);
    assert d2 == Look(p1, p2, LookTimes(p1, p2, d, 1));
    assert d3 == Look(p1, p2, d2) && d4 == Look(p1, p2, d3) && d5 == Look(p1, p2, d4);
    assert LookTimes(p1, p2, d, 6) == Look(p1, p2, d5);
  }

  /** After any run, a getter that nothing interrupts ends with the readings of one instant. */
  lemma UndisturbedRead(lay: Layout, before: seq<Act>, g: Getter, now: nat)
    requires Reach(lay, before).Some? && Reach(lay, before).value.reader.Off?
    ensures var r := Reach(lay, before).value;
            var v := Instant(g, r.slots[Whole], r.slots[Pack1].cell, r.slots[Pack2].cell, now);
            Reach(lay, before + InARow(g, now, Looks(g, CellsOf(r), now))) == Some(r.(reader := On(g, Finished, v)))
  {
    hide Reach, Look, LookTimes, InARow, Instant, Looks, Judge, Looking;
    var r := Reach(lay, before).value;
    var w := r.slots[Whole];
    var d := Judge(w, On(g, AtTest, View(w.cell.sample, |w.stored|, 0, false, false, None, None)), now);
    RowReach(lay, before, g, now);
    LooksEnd(g, CellsOf(r), w, now);
    RowLooks(lay, before, g, now, r.(reader := d), Looks(g, CellsOf(r), now));
  }

  /** and reports what the getter computes from that instant. */
  lemma UndisturbedReport(lay: Layout, c: Cells, w: Slot, now: nat)
    requires Full(c) && w.cell == c[Whole]
    ensures var b := InfoReport(lay, Instant(Info, w, c[Pack1], c[Pack2], now));
            && b.pct == Percent(lay, c, now) && b.mv == InfoVoltage(lay, c, now)
            && b.ma == InfoCurrent(lay, c, now) && b.temp == InfoTemperature(lay, c, now)
    ensures var t := TeleReport(lay, Instant(Tele, w, c[Pack1], c[Pack2], now));
            t.pct == Percent(lay, c, now) && t.mv == TelemetryVoltage(lay, c, now)
  {
    hide Sum, Greatest, Mean, Accumulated, AddTo;
    var p1, p2 := c[Pack1], c[Pack2];
    var v1, v2 := AsU32(lay.packVoltage(p1.sample)), AsU32(lay.packVoltage(p2.sample));
    SumReported(c, lay.packPct(p1.sample), lay.packPct(p2.sample));
    AccumulatedReported(c, lay.wholeCurrent(w.cell.sample), lay.packCurrent(p1.sample), lay.packCurrent(p2.sample));
    GreatestReported(c, v1, v2, if Seen(p1) then 0 else AsU32(lay.wholeVoltage(w.cell.sample)));
    GreatestReported(c, v1, v2, 0);
    GreatestReported(c, lay.packTemp(p1.sample), lay.packTemp(p2.sample), if Seen(p1) then -0x8000 else 0);
  }

  // ---- A stamp of zero ----

  /** The gate sees pack 1; */
  function SeenAtGate(data: Bytes, at: nat, now: nat): seq<Act> {
    [Copy(Pack1, data)] + [Mark(Pack1, 1, at)] + [Begin(Tele)] + [TestFresh(now)] + [Next]
  }

  /** then pack 1 delivers again, at time zero of the clock. */
  function ZeroStamped(data: Bytes, at: nat, now: nat): seq<Act> {
    SeenAtGate(data, at, now) + [Copy(Pack1, data)] + [Mark(Pack1, 2, 0)]
  }

  /** A telemetry read in its fallback that has counted nothing so far. */
  predicate Empty(d: Reader) { d.On? && d.getter.Tele? && d.v.fallback && d.v.pack1.None? && d.v.pack2.None? }

  lemma GatePassed(lay: Layout, data: Bytes, at: nat, now: nat)
    requires |data| >= lay.size(Pack1) && at > 0
    ensures var r := Reach(lay, SeenAtGate(data, at, now));
            && r.Some? && Empty(r.value.reader) && r.value.reader.pc.AtLook1?
            && |r.value.slots[Pack1].stored| == 1 && r.value.slots[Pack2].cell.stamp == 0
  {
    hide Reach, Wrap;
    ReachNone(lay);
    var a1 := [Copy(Pack1, data)];
    ReachSnoc(lay, [], Copy(Pack1, data));
    assert [] + a1 == a1;
    ReachSnoc(lay, a1, Mark(Pack1, 1, at));
    ReachSnoc(lay, a1 + [Mark(Pack1, 1, at)], Begin(Tele));
    ReachSnoc(lay, a1 + [Mark(Pack1, 1, at)] + [Begin(Tele)], TestFresh(now));
    ReachSnoc(lay, a1 + [Mark(Pack1, 1, at)] + [Begin(Tele)] + [TestFresh(now)], Next);
  }

  lemma StampZeroed(lay: Layout, data: Bytes, at: nat, now: nat)
    requires |data| >= lay.size(Pack1) && at > 0
    ensures var r := Reach(lay, ZeroStamped(data, at, now));
            && r.Some? && Empty(r.value.reader) && r.value.reader.pc.AtLook1?
            && r.value.slots[Pack1].cell.stamp == 0 && r.value.slots[Pack2].cell.stamp == 0
  {
    hide Reach, Wrap, SeenAtGate;
    var acts := SeenAtGate(data, at, now);
    GatePassed(lay, data, at, now);
    ReachSnoc(lay, acts, Copy(Pack1, data));
    ReachSnoc(lay, acts + [Copy(Pack1, data)], Mark(Pack1, 2, 0));
  }

  /** The fallback then counts no pack, and telemetry reports zero volts. */
  lemma ZeroStampLosesPacks(lay: Layout, data: Bytes, at: nat, now: nat)
    requires |data| >= lay.size(Pack1) && at > 0
    ensures var r := Reach(lay, ZeroStamped(data, at, now) + [Next] + [Next] + [Next] + [Next]);
            r.Some? && Empty(r.value.reader) && r.value.reader.pc.Finished? && TeleReport(lay, r.value.reader.v).mv == 0
  {
    hide Reach, ZeroStamped, PercentOf;
    var acts := ZeroStamped(data, at, now);
    StampZeroed(lay, data, at, now);
    ReachSnoc(lay, acts, Next);
    ReachSnoc(lay, acts + [Next], Next);
    ReachSnoc(lay, acts + [Next] + [Next], Next);
    ReachSnoc(lay, acts + [Next] + [Next] + [Next], Next);
  }
}
