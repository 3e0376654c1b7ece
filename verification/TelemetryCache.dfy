/** The subscription cache of drone_ctrl.c (real build): nine callbacks fill it, two getters
    aggregate the battery from it by different code. */
module TelemetryCache {
  import opened Common

  type Bytes = seq<U8>

  datatype Topic = Pos | Vel | Quat | Gps | Flight | Whole | Pack1 | Pack2 | Gimbal

  /** sizeof and the field offsets of the SDK's structures, as arbitrary functions of the raw bytes. */
  datatype Layout = Layout(
    size: Topic -> nat,
    wholeVoltage: Bytes -> Int32, wholeCurrent: Bytes -> Int32, wholePct: Bytes -> U8,
    packVoltage: Bytes -> Int32, packCurrent: Bytes -> Int32, packTemp: Bytes -> I16, packPct: Bytes -> U8)

  /** A sample and its TopicStats. */
  datatype Cell = Cell(sample: Bytes, count: U32, stamp: nat, logged: bool)

  type Cells = map<Topic, Cell>

  predicate Full(c: Cells) { forall t: Topic :: t in c }

  function Blank(lay: Layout): Cells {
    map t: Topic | true :: Cell(seq(lay.size(t), _ => 0), 0, 0, false)
  }

  /** A callback invocation and the monotonic_ms() reading mark_topic_rx takes. */
  datatype Rx = Rx(topic: Topic, data: Bytes, now: nat)

  predicate LongEnough(lay: Layout, e: Rx) { |e.data| >= lay.size(e.topic) }

  /** uint32_t arithmetic. */
  function Wrap(n: nat): U32 { n % 0x1_0000_0000 }

  /** A cb_* callback. */
  function Receive(lay: Layout, c: Cells, e: Rx): Cells
    requires Full(c)
  {
    if LongEnough(lay, e) then
      c[e.topic := Cell(e.data[..lay.size(e.topic)], Wrap(c[e.topic].count + 1), e.now, true)]
    else c
  }

  function After(lay: Layout, es: seq<Rx>): (c: Cells)
    ensures Full(c)
  {
    if es == [] then Blank(lay) else Receive(lay, After(lay, es[..|es| - 1]), es[|es| - 1])
  }

  // ---- The cache is the history's last word ----

  /** The invocations for topic `t` that were long enough. */
  function Accepted(lay: Layout, es: seq<Rx>, t: Topic): seq<Rx> {
    if es == [] then []
    else
      var e := es[|es| - 1];
      Accepted(lay, es[..|es| - 1], t) + (if e.topic == t && LongEnough(lay, e) then [e] else [])
  }

  lemma WrapStep(n: nat)
    ensures Wrap(Wrap(n) + 1) == Wrap(n + 1) && Wrap(0) == 0
  {
  }

  lemma BlankCell(lay: Layout, t: Topic)
    ensures t in Blank(lay) && Blank(lay)[t].count == 0
  {
  }

  lemma ReceivedCell(lay: Layout, c: Cells, e: Rx, t: Topic)
    requires Full(c)
    ensures Full(Receive(lay, c, e))
    ensures if e.topic == t && LongEnough(lay, e)
            then Receive(lay, c, e)[t] == Cell(e.data[..lay.size(t)], Wrap(c[t].count + 1), e.now, true)
            else Receive(lay, c, e)[t] == c[t]
  {
  }

  /** Each topic holds its last accepted sample and stamp and counts modulo 2^32; other topics have
      no influence. */
  lemma {:induction false} CacheIsLastAccepted(lay: Layout, es: seq<Rx>, t: Topic)
    ensures var acc, cell := Accepted(lay, es, t), After(lay, es)[t];
            && cell.count == Wrap(|acc|)
            && (acc == [] ==> cell == Blank(lay)[t])
            && (acc != [] ==>
                  var e := acc[|acc| - 1];
                  e in es && e.topic == t && |e.data| >= lay.size(t)
                  && cell.sample == e.data[..lay.size(t)] && cell.stamp == e.now && cell.logged)
  {
    hide Wrap, Receive, Blank;
    WrapStep(0);
    BlankCell(lay, t);
    if es != [] {
      var before, e := es[..|es| - 1], es[|es| - 1];
      CacheIsLastAccepted(lay, before, t);
      ReceivedCell(lay, After(lay, before), e, t);
      WrapStep(|Accepted(lay, before, t)|);
    }
  }

  // ---- Freshness ----

  const MAX_AGE_MS: nat := 5000

  /** topic_is_fresh at time `now`. */
  predicate Fresh(cell: Cell, now: nat) {
    cell.stamp != 0 && now >= cell.stamp && now - cell.stamp <= MAX_AGE_MS
  }

  /** A pack takes part in the fallback once it has a stamp. */
  predicate Seen(cell: Cell) { cell.stamp != 0 }

  /** The whole-battery topic counts as fresh exactly when its last accepted sample is recent. */
  lemma FreshMeansRecent(lay: Layout, es: seq<Rx>, now: nat)
    ensures var acc := Accepted(lay, es, Whole);
            Fresh(After(lay, es)[Whole], now) <==>
              acc != [] && acc[|acc| - 1].now != 0 && acc[|acc| - 1].now <= now <= acc[|acc| - 1].now + 5000
  {
    hide After, Accepted, LongEnough;
    CacheIsLastAccepted(lay, es, Whole);
  }

  // ---- Getters ----

  function AsU32(x: Int32): U32 { x % 0x1_0000_0000 }

  function Mean(sum: int, n: nat): int
    requires n > 0
  {
    sum / n
  }

  /** (uint8_t)(sum / n) keeps the mean of n bytes. */
  function ByteMean(sum: nat, n: nat): (m: U8)
    requires 0 < n <= 2 && sum <= 255 * n
    ensures m == Mean(sum, n)
  {
    (sum / n) % 256
  }

  datatype TelemetryBattery = TelemetryBattery(pct: U8, mv: U32)

  predicate FitsInt32(x: int) { -0x8000_0000 <= x <= 0x7fff_ffff }

  /** `a += b` on an int32_t. Signed overflow has no meaning in C, and neither has what follows it. */
  function AddTo(a: Option<Int32>, b: Int32): Option<Int32> {
    if a.Some? && FitsInt32(a.value + b) then Some(a.value + b) else None
  }

  /** `ma` is none when the code overflows it. */
  datatype BatteryInfo = BatteryInfo(mv: U32, ma: Option<Int32>, pct: U8, temp: I16)

  class Cache {
    const lay: Layout
    var cells: Cells

    constructor (lay: Layout)
      ensures this.lay == lay && cells == Blank(lay)
    {
      this.lay := lay;
      cells := Blank(lay);
    }

    /** cb_pos, cb_vel, ..., cb_gimbal */
    method OnSample(e: Rx)
      requires Full(cells)
      modifies this
      ensures cells == Receive(lay, old(cells), e)
      ensures if |e.data| < lay.size(e.topic) then cells == old(cells)
              else
                && Full(cells) && (forall t :: t != e.topic ==> cells[t] == old(cells)[t])
                && cells[e.topic].sample == e.data[..lay.size(e.topic)] && cells[e.topic].stamp == e.now
                && cells[e.topic].count == (old(cells)[e.topic].count + 1) % 0x1_0000_0000 && cells[e.topic].logged
    {
      if |e.data| >= lay.size(e.topic) {
        var cell := cells[e.topic];
        cell := cell.(sample := e.data[..lay.size(e.topic)]);
        cell := cell.(count := Wrap(cell.count + 1), stamp := e.now);
        if !cell.logged {
          cell := cell.(logged := true);
        }
        cells := cells[e.topic := cell];
      }
    }

    /** The battery part of drone_get_telemetry. */
    method GetTelemetryBattery(now: nat) returns (r: TelemetryBattery)
      requires Full(cells)
      ensures r.pct == Percent(lay, cells, now) && ChargeTold(lay, cells, now, r.pct)
      ensures r.mv == TelemetryVoltage(lay, cells, now) && TelemetryVoltageTold(lay, cells, now, r.mv)
    {
      hide Sum, Greatest, Mean, ChargeTold, TelemetryVoltageTold;
      ChargeMeans(lay, cells, now);
      TelemetryVoltageMeans(lay, cells, now);
      var whole, p1, p2 := cells[Whole], cells[Pack1], cells[Pack2];
      SumReported(cells, lay.packPct(p1.sample), lay.packPct(p2.sample));
      GreatestReported(cells, AsU32(lay.packVoltage(p1.sample)), AsU32(lay.packVoltage(p2.sample)), 0);
      r := TelemetryBattery(lay.wholePct(whole.sample), AsU32(lay.wholeVoltage(whole.sample)));
      if !Fresh(whole, now) {
        if p1.stamp != 0 || p2.stamp != 0 {
          var pctSum, pctCount, mv: nat := 0, 0, 0;
          if p1.stamp != 0 {
            pctSum := pctSum + lay.packPct(p1.sample);
            pctCount := pctCount + 1;
            if AsU32(lay.packVoltage(p1.sample)) > mv { mv := AsU32(lay.packVoltage(p1.sample)); }
          }
          if p2.stamp != 0 {
            pctSum := pctSum + lay.packPct(p2.sample);
            pctCount := pctCount + 1;
            if AsU32(lay.packVoltage(p2.sample)) > mv { mv := AsU32(lay.packVoltage(p2.sample)); }
          }
          if pctCount > 0 { r := r.(pct := ByteMean(pctSum, pctCount)); }
          r := r.(mv := mv);
        }
      }
    }

    lemma InfoFacts(whole: Cell, p1: Cell, p2: Cell)
      requires Full(cells) && whole == cells[Whole] && p1 == cells[Pack1] && p2 == cells[Pack2]
      ensures Sum(Percents(lay, cells)) ==
        (if Seen(p1) then lay.packPct(p1.sample) else 0) + (if Seen(p2) then lay.packPct(p2.sample) else 0)
      ensures Accumulated(lay.wholeCurrent(whole.sample), Currents(lay, cells)) ==
        var a := if Seen(p1) then AddTo(Some(lay.wholeCurrent(whole.sample)), lay.packCurrent(p1.sample)) else Some(lay.wholeCurrent(whole.sample));
        if Seen(p2) then AddTo(a, lay.packCurrent(p2.sample)) else a
      ensures Greatest(Voltages(lay, cells), if Seen(p1) then 0 else AsU32(lay.wholeVoltage(whole.sample))) ==
        var m := if Seen(p1) then AsU32(lay.packVoltage(p1.sample)) else AsU32(lay.wholeVoltage(whole.sample));
        if Seen(p2) && AsU32(lay.packVoltage(p2.sample)) > m then AsU32(lay.packVoltage(p2.sample)) else m
      ensures Greatest(Temperatures(lay, cells), if Seen(p1) then -0x8000 else 0) ==
        var m := if Seen(p1) then lay.packTemp(p1.sample) else 0;
        if Seen(p2) && lay.packTemp(p2.sample) > m then lay.packTemp(p2.sample) else m
    {
      hide Sum, Greatest, Accumulated, AddTo;
      SumReported(cells, lay.packPct(p1.sample), lay.packPct(p2.sample));
      AccumulatedReported(cells, lay.wholeCurrent(whole.sample), lay.packCurrent(p1.sample), lay.packCurrent(p2.sample));
      GreatestReported(cells, AsU32(lay.packVoltage(p1.sample)), AsU32(lay.packVoltage(p2.sample)),
                       if Seen(p1) then 0 else AsU32(lay.wholeVoltage(whole.sample)));
      GreatestReported(cells, lay.packTemp(p1.sample), lay.packTemp(p2.sample), if Seen(p1) then -0x8000 else 0);
    }

    /** drone_get_battery_info */
    method GetBatteryInfo(now: nat) returns (r: BatteryInfo)
      requires Full(cells)
      ensures r.pct == Percent(lay, cells, now) && ChargeTold(lay, cells, now, r.pct)
      ensures r.mv == InfoVoltage(lay, cells, now) && InfoVoltageTold(lay, cells, now, r.mv)
      ensures r.ma == InfoCurrent(lay, cells, now) && InfoCurrentTold(lay, cells, now, r.ma)
      ensures r.temp == InfoTemperature(lay, cells, now) && InfoTemperatureTold(lay, cells, now, r.temp)
    {
      hide Sum, Greatest, Mean, Accumulated, AddTo, ChargeTold, InfoVoltageTold, InfoCurrentTold, InfoTemperatureTold;
      ChargeMeans(lay, cells, now);
      InfoVoltageMeans(lay, cells, now);
      InfoCurrentMeans(lay, cells, now);
      InfoTemperatureMeans(lay, cells, now);
      var whole, p1, p2 := cells[Whole], cells[Pack1], cells[Pack2];
      InfoFacts(whole, p1, p2);
      r := BatteryInfo(AsU32(lay.wholeVoltage(whole.sample)), Some(lay.wholeCurrent(whole.sample)), lay.wholePct(whole.sample), 0);
      if !Fresh(whole, now) {
        var pctSum, pctCount: nat := 0, 0;
        if p1.stamp != 0 {
          r := r.(mv := AsU32(lay.packVoltage(p1.sample)), ma := AddTo(r.ma, lay.packCurrent(p1.sample)), temp := lay.packTemp(p1.sample));
          pctSum, pctCount := pctSum + lay.packPct(p1.sample), pctCount + 1;
        }
        if p2.stamp != 0 {
          var mv := AsU32(lay.packVoltage(p2.sample));
          if mv > r.mv { r := r.(mv := mv); }
          r := r.(ma := AddTo(r.ma, lay.packCurrent(p2.sample)));
          if lay.packTemp(p2.sample) > r.temp { r := r.(temp := lay.packTemp(p2.sample)); }
          pctSum, pctCount := pctSum + lay.packPct(p2.sample), pctCount + 1;
        }
        if pctCount > 0 { r := r.(pct := ByteMean(pctSum, pctCount)); }
      }
    }
  }

  /** Both getters at one instant: the same charge always; different voltages exactly when the
      whole-battery topic is stale, only pack 2 has ever reported, and the old whole-battery voltage
      is above pack 2's. */
  method CompareGetters(cache: Cache, now: nat) returns (t: TelemetryBattery, b: BatteryInfo)
    requires Full(cache.cells)
    ensures t.pct == b.pct
    ensures t.mv != b.mv <==>
            && Stale(cache.cells, now) && !Seen(cache.cells[Pack1]) && Seen(cache.cells[Pack2])
            && AsU32(cache.lay.wholeVoltage(cache.cells[Whole].sample)) > AsU32(cache.lay.packVoltage(cache.cells[Pack2].sample))
  {
    hide Percent, TelemetryVoltage, InfoVoltage, InfoCurrent, InfoTemperature;
    t := cache.GetTelemetryBattery(now);
    b := cache.GetBatteryInfo(now);
    VoltagesAgree(cache.lay, cache.cells, now);
  }

  // ---- What the getters mean ----

  /** A figure of pack 1 and the same of pack 2, as far as the packs have reported. */
  function Reported(c: Cells, x1: int, x2: int): seq<int>
    requires Full(c)
  {
    if Seen(c[Pack1]) then (if Seen(c[Pack2]) then [x1] + [x2] else [x1])
    else if Seen(c[Pack2]) then [x2] else []
  }

  function Percents(lay: Layout, c: Cells): seq<int>
    requires Full(c)
  {
    Reported(c, lay.packPct(c[Pack1].sample), lay.packPct(c[Pack2].sample))
  }

  function Voltages(lay: Layout, c: Cells): seq<int>
    requires Full(c)
  {
    Reported(c, AsU32(lay.packVoltage(c[Pack1].sample)), AsU32(lay.packVoltage(c[Pack2].sample)))
  }

  function Currents(lay: Layout, c: Cells): seq<int>
    requires Full(c)
  {
    Reported(c, lay.packCurrent(c[Pack1].sample), lay.packCurrent(c[Pack2].sample))
  }

  function Temperatures(lay: Layout, c: Cells): seq<int>
    requires Full(c)
  {
    Reported(c, lay.packTemp(c[Pack1].sample), lay.packTemp(c[Pack2].sample))
  }

  predicate Stale(c: Cells, now: nat)
    requires Full(c)
  {
    !Fresh(c[Whole], now)
  }

  function Sum(xs: seq<int>): int {
    if xs == [] then 0 else xs[0] + Sum(xs[1..])
  }

  /** `x` plus all of `xs`, if no partial sum leaves the type. */
  function Accumulated(x: Int32, xs: seq<int>): Option<Int32> {
    if forall k :: 0 <= k <= |xs| ==> FitsInt32(x + Sum(xs[..k])) then
      assert xs[..|xs|] == xs;
      Some(x + Sum(xs))
    else None
  }

  function Greatest(xs: seq<int>, floor: int): int {
    if xs == [] then floor else Greatest(xs[1..], if xs[0] > floor then xs[0] else floor)
  }

  lemma Short(x1: int, x2: int, floor: int)
    ensures Sum([]) == 0 && Sum([x1]) == x1 && Sum([x2]) == x2 && Sum([x1] + [x2]) == x1 + x2
    ensures Greatest([], floor) == floor && Greatest([x1], floor) == if x1 > floor then x1 else floor
    ensures Greatest([x2], floor) == if x2 > floor then x2 else floor
    ensures var m := if x1 > floor then x1 else floor;
            Greatest([x1] + [x2], floor) == if x2 > m then x2 else m
  {
    assert ([x1] + [x2])[1..] == [x2] && [x1][1..] == [] && [x2][1..] == [];
    assert Sum([x2]) == x2;
    assert forall m :: Greatest([x2], m) == if x2 > m then x2 else m;
  }

  lemma SumReported(c: Cells, x1: int, x2: int)
    requires Full(c)
    ensures Sum(Reported(c, x1, x2)) == (if Seen(c[Pack1]) then x1 else 0) + (if Seen(c[Pack2]) then x2 else 0)
  {
    hide Sum, Greatest;
    Short(x1, x2, 0);
  }

  lemma AccumulatedReported(c: Cells, x: Int32, x1: Int32, x2: Int32)
    requires Full(c)
    ensures Accumulated(x, Reported(c, x1, x2)) ==
            var a := if Seen(c[Pack1]) then AddTo(Some(x), x1) else Some(x);
            if Seen(c[Pack2]) then AddTo(a, x2) else a
  {
    hide Sum;
    Short(x1, x2, 0);
    var xs := Reported(c, x1, x2);
    assert xs[..0] == [] && xs[..|xs|] == xs;
    if |xs| == 2 {
      assert xs[..1] == [x1];
    }
  }

  lemma GreatestReported(c: Cells, x1: int, x2: int, floor: int)
    requires Full(c)
    ensures var m := if Seen(c[Pack1]) && x1 > floor then x1 else floor;
            Greatest(Reported(c, x1, x2), floor) == if Seen(c[Pack2]) && x2 > m then x2 else m
  {
    hide Sum, Greatest;
    Short(x1, x2, floor);
  }

  /** Remaining capacity: the whole-battery figure, or the mean over the packs when that is stale. */
  function Percent(lay: Layout, c: Cells, now: nat): int
    requires Full(c)
  {
    var ps := Percents(lay, c);
    if Stale(c, now) && ps != [] then Mean(Sum(ps), |ps|) else lay.wholePct(c[Whole].sample)
  }

  /** Telemetry voltage: the whole-battery figure, or the highest pack. */
  function TelemetryVoltage(lay: Layout, c: Cells, now: nat): int
    requires Full(c)
  {
    var vs := Voltages(lay, c);
    if Stale(c, now) && vs != [] then Greatest(vs, 0) else AsU32(lay.wholeVoltage(c[Whole].sample))
  }

  /** Battery-info voltage: as above, but the old whole-battery voltage still competes when pack 1
      has never reported. */
  function InfoVoltage(lay: Layout, c: Cells, now: nat): int
    requires Full(c)
  {
    var stale := AsU32(lay.wholeVoltage(c[Whole].sample));
    if Stale(c, now) then Greatest(Voltages(lay, c), if Seen(c[Pack1]) then 0 else stale) else stale
  }

  /** Battery-info current: the old whole-battery current, plus that of every pack when it is stale. */
  function InfoCurrent(lay: Layout, c: Cells, now: nat): Option<Int32>
    requires Full(c)
  {
    var x := lay.wholeCurrent(c[Whole].sample);
    if Stale(c, now) then Accumulated(x, Currents(lay, c)) else Some(x)
  }

  /** Battery-info temperature: the hottest pack, but never below zero without pack 1. */
  function InfoTemperature(lay: Layout, c: Cells, now: nat): int
    requires Full(c)
  {
    if Stale(c, now) then Greatest(Temperatures(lay, c), if Seen(c[Pack1]) then -0x8000 else 0) else 0
  }

  lemma VoltagesAgree(lay: Layout, c: Cells, now: nat)
    requires Full(c)
    ensures TelemetryVoltage(lay, c, now) != InfoVoltage(lay, c, now) <==>
            && Stale(c, now) && !Seen(c[Pack1]) && Seen(c[Pack2])
            && AsU32(lay.wholeVoltage(c[Whole].sample)) > AsU32(lay.packVoltage(c[Pack2].sample))
  {
    hide Greatest;
    var v1, v2 := AsU32(lay.packVoltage(c[Pack1].sample)), AsU32(lay.packVoltage(c[Pack2].sample));
    GreatestReported(c, v1, v2, 0);
    GreatestReported(c, v1, v2, AsU32(lay.wholeVoltage(c[Whole].sample)));
  }

  // ---- The figures in terms of the cells alone ----

  /** The whole-battery sample was stamped, at most 5000 ms ago. */
  predicate Recent(c: Cells, now: nat)
    requires Full(c)
  {
    c[Whole].stamp != 0 && c[Whole].stamp <= now <= c[Whole].stamp + 5000
  }

  predicate Reports(c: Cells, t: Topic)
    requires Full(c)
  {
    c[t].stamp != 0
  }

  /** A voltage as the interface reports it: unchanged unless negative. */
  function Volts(x: Int32): int { if x >= 0 then x else x + 0x1_0000_0000 }

  predicate Highest(x: int, xs: set<int>) { x in xs && forall y :: y in xs ==> y <= x }

  /** The whole battery's charge if recent or nothing else is known; otherwise the only pack's, or the
      mean of both rounded down. */
  predicate ChargeTold(lay: Layout, c: Cells, now: nat, pct: int)
    requires Full(c)
  {
    var p1, p2 := lay.packPct(c[Pack1].sample), lay.packPct(c[Pack2].sample);
    if Recent(c, now) || (!Reports(c, Pack1) && !Reports(c, Pack2)) then pct == lay.wholePct(c[Whole].sample)
    else if Reports(c, Pack1) && Reports(c, Pack2) then 2 * pct <= p1 + p2 <= 2 * pct + 1
    else pct == if Reports(c, Pack1) then p1 else p2
  }

  /** The voltages of the packs that report. */
  function PackVolts(lay: Layout, c: Cells): set<int>
    requires Full(c)
  {
    (if Reports(c, Pack1) then {Volts(lay.packVoltage(c[Pack1].sample))} else {})
    + (if Reports(c, Pack2) then {Volts(lay.packVoltage(c[Pack2].sample))} else {})
  }

  predicate TelemetryVoltageTold(lay: Layout, c: Cells, now: nat, mv: int)
    requires Full(c)
  {
    if Recent(c, now) || PackVolts(lay, c) == {} then mv == Volts(lay.wholeVoltage(c[Whole].sample))
    else Highest(mv, PackVolts(lay, c))
  }

  predicate InfoVoltageTold(lay: Layout, c: Cells, now: nat, mv: int)
    requires Full(c)
  {
    var past := Volts(lay.wholeVoltage(c[Whole].sample));
    if Recent(c, now) then mv == past
    else Highest(mv, PackVolts(lay, c) + if Reports(c, Pack1) then {} else {past})
  }

  predicate InfoTemperatureTold(lay: Layout, c: Cells, now: nat, temp: int)
    requires Full(c)
  {
    if Recent(c, now) then temp == 0
    else Highest(temp, {if Reports(c, Pack1) then lay.packTemp(c[Pack1].sample) else 0}
                       + if Reports(c, Pack2) then {lay.packTemp(c[Pack2].sample)} else {})
  }

  /** Whole battery, then pack 1, then pack 2, as far as they count: a sum with no step beyond the type. */
  predicate InfoCurrentTold(lay: Layout, c: Cells, now: nat, ma: Option<Int32>)
    requires Full(c)
  {
    var i0 := lay.wholeCurrent(c[Whole].sample);
    var i1 := i0 + if !Recent(c, now) && Reports(c, Pack1) then lay.packCurrent(c[Pack1].sample) else 0;
    var i2 := i1 + if !Recent(c, now) && Reports(c, Pack2) then lay.packCurrent(c[Pack2].sample) else 0;
    if -0x8000_0000 <= i1 <= 0x7fff_ffff && -0x8000_0000 <= i2 <= 0x7fff_ffff then ma == Some(i2) else ma == None
  }

  lemma ChargeMeans(lay: Layout, c: Cells, now: nat)
    requires Full(c)
    ensures ChargeTold(lay, c, now, Percent(lay, c, now))
  {
    hide Sum;
    SumReported(c, lay.packPct(c[Pack1].sample), lay.packPct(c[Pack2].sample));
  }

  lemma TelemetryVoltageMeans(lay: Layout, c: Cells, now: nat)
    requires Full(c)
    ensures TelemetryVoltageTold(lay, c, now, TelemetryVoltage(lay, c, now))
  {
    hide Greatest;
    GreatestReported(c, AsU32(lay.packVoltage(c[Pack1].sample)), AsU32(lay.packVoltage(c[Pack2].sample)), 0);
    assert Reports(c, Pack1) ==> Volts(lay.packVoltage(c[Pack1].sample)) in PackVolts(lay, c);
    assert Reports(c, Pack2) ==> Volts(lay.packVoltage(c[Pack2].sample)) in PackVolts(lay, c);
  }

  lemma InfoVoltageMeans(lay: Layout, c: Cells, now: nat)
    requires Full(c)
    ensures InfoVoltageTold(lay, c, now, InfoVoltage(lay, c, now))
  {
    hide Greatest;
    GreatestReported(c, AsU32(lay.packVoltage(c[Pack1].sample)), AsU32(lay.packVoltage(c[Pack2].sample)),
                     if Seen(c[Pack1]) then 0 else AsU32(lay.wholeVoltage(c[Whole].sample)));
  }

  lemma InfoTemperatureMeans(lay: Layout, c: Cells, now: nat)
    requires Full(c)
    ensures InfoTemperatureTold(lay, c, now, InfoTemperature(lay, c, now))
  {
    hide Greatest;
    GreatestReported(c, lay.packTemp(c[Pack1].sample), lay.packTemp(c[Pack2].sample), if Seen(c[Pack1]) then -0x8000 else 0);
  }

  lemma InfoCurrentMeans(lay: Layout, c: Cells, now: nat)
    requires Full(c)
    ensures InfoCurrentTold(lay, c, now, InfoCurrent(lay, c, now))
  {
    hide Accumulated;
    AccumulatedReported(c, lay.wholeCurrent(c[Whole].sample), lay.packCurrent(c[Pack1].sample), lay.packCurrent(c[Pack2].sample));
  }
}
