/** What a client reads: replies as flat JSON objects, numbers as numbers. Nothing here knows how the
    daemon formats them. */
module Client {
  import opened Common
  import opened Text
  import opened Rpc

  // ---- Numbers ----

  function Unsigned(s: string): string { if s != [] && s[0] == '-' then s[1..] else s }

  function ReadInt(s: string): Option<int> {
    if Unsigned(s) == [] || !AllDigits(Unsigned(s)) then None
    else Some(if s[0] == '-' then 0 - Value(Unsigned(s)) else Value(s))
  }

  /** Digits, a point, digits. */
  function ReadMagnitude(s: string): Option<real> {
    var k := Index(s, '.');
    if k == |s| || !AllDigits(s[..k]) || !AllDigits(s[k + 1..]) then None
    else
      var unit := Pow10(|s| - k - 1);
      Some((Value(s[..k]) * unit + Value(s[k + 1..])) as real / unit as real)
  }

  function ReadDecimal(s: string): Option<real> {
    var m := ReadMagnitude(Unsigned(s));
    if m.None? then None else Some(if s != [] && s[0] == '-' then -m.value else m.value)
  }

  /** The text denotes `x` to within `err`. */
  predicate Shows(s: string, x: Float, err: real) {
    ReadDecimal(s).Some? && -err <= ReadDecimal(s).value - x.Val() <= err
  }

  lemma IntReads(n: int)
    ensures ReadInt(Int(n)) == Some(n) && ',' !in Int(n)
  {
    hide Dec, Value;
    var d := Dec(if n < 0 then -n else n);
    DecDigits(if n < 0 then -n else n);
    IntRoundTrip(n);
    assert ("-" + d)[1..] == d;
    assert IsDigit(d[0]);
  }

  lemma DecReads(n: nat)
    ensures ReadInt(Dec(n)) == Some(n) && ',' !in Dec(n)
  {
    IntReads(n);
    hide Dec, Value;
  }

  lemma MagnitudeReads(whole: string, frac: string)
    requires AllDigits(whole) && AllDigits(frac)
    ensures var u := Pow10(|frac|);
            ReadMagnitude(whole + "." + frac) == Some((Value(whole) * u + Value(frac)) as real / u as real)
  {
    hide Index, Value, Pow10;
    IndexAt(whole, '.', frac);
    var s := whole + "." + frac;
    assert s[..|whole|] == whole && s[|whole| + 1..] == frac;
  }

  lemma Quotient(n: int, m: real, u: nat)
    requires u >= 1 && -0.5 <= n as real - m * u as real <= 0.5
    ensures -0.5 / u as real <= n as real / u as real - m <= 0.5 / u as real
  {
    var q := u as real;
    assert n as real / q - m == (n as real - m * q) / q;
  }

  /** A printed fixed-point number reads back to within half a unit of its last place. */
  lemma FixedReads(x: Float, d: nat)
    ensures Shows(Fixed(x, d), x, 0.5 / Pow10(d) as real) && ',' !in Fixed(x, d)
  {
    hide Fixed, Value, Pow10, ReadMagnitude;
    var whole, frac := FixedReadsBack(x, d);
    MagnitudeReads(whole, frac);
    Quotient(Value(whole) * Pow10(d) + Value(frac), x.mag, Pow10(d));
    var t := whole + "." + frac;
    FixedSign(x, d);
    assert Fixed(x, d) == if x.neg then "-" + t else t;
    assert ("-" + t)[1..] == t;
    assert Unsigned(Fixed(x, d)) == t;
  }

  lemma FixedSign(x: Float, d: nat)
    ensures Fixed(x, d) != [] && (Fixed(x, d)[0] == '-' <==> x.neg)
  {
    hide Dec, Pad, Scaled, Pow10;
    DecDigits(Scaled(x.mag, Pow10(d)) / Pow10(d));
  }

  lemma Halves()
    ensures 0.5 / Pow10(1) as real == 0.05 && 0.5 / Pow10(2) as real == 0.005 && 0.5 / Pow10(8) as real == 0.000000005
  {
    assert Pow10(2) == 100 && Pow10(4) == 10000 && Pow10(8) == 100000000;
  }

  // ---- Objects ----

  /** `"key":value` */
  function ReadEntry(s: string): Entry {
    var k := Index(s, ':');
    (if k >= 2 then s[1..k - 1] else [], if k < |s| then s[k + 1..] else [])
  }

  function ReadEntries(s: string): seq<Entry>
    decreases |s|
  {
    var k := Index(s, ',');
    [ReadEntry(s[..k])] + if k < |s| then ReadEntries(s[k + 1..]) else []
  }

  /** The entries of a flat object, in order. */
  function ReadObject(s: string): Option<seq<Entry>> {
    if |s| >= 2 && s[0] == '{' && s[|s| - 1] == '}' then Some(ReadEntries(s[1..|s| - 1])) else None
  }

  predicate Plain(e: Entry) { ',' !in e.0 && ':' !in e.0 && ',' !in e.1 }

  lemma EntryReads(e: Entry)
    requires Plain(e)
    ensures ReadEntry(Item(e)) == e && ',' !in Item(e)
  {
    hide Index;
    var head := "\"" + e.0 + "\"";
    assert Item(e) == head + [':'] + e.1;
    IndexAt(head, ':', e.1);
    assert Item(e)[1..|head| - 1] == e.0 && Item(e)[|head| + 1..] == e.1;
  }

  lemma FirstEntry(e: Entry, rest: string)
    requires Plain(e)
    ensures ReadEntries(Item(e)) == [e] && ReadEntries(Item(e) + "," + rest) == [e] + ReadEntries(rest)
  {
    hide ReadEntry, Item, Index;
    EntryReads(e);
    var s := Item(e) + [','] + rest;
    IndexAt(Item(e), ',', rest);
    assert s[..|Item(e)|] == Item(e) && s[|Item(e)| + 1..] == rest;
    assert Index(Item(e), ',') == |Item(e)| && Item(e)[..|Item(e)|] == Item(e);
  }

  lemma {:induction false} EntriesRead(es: seq<Entry>)
    requires es != [] && forall e :: e in es ==> Plain(e)
    ensures ReadEntries(Items(es)) == es
  {
    hide ReadEntries, Item, Plain;
    assert es[0] in es;
    if |es| == 1 {
      FirstEntry(es[0], []);
    } else {
      FirstEntry(es[0], Items(es[1..]));
      EntriesRead(es[1..]);
    }
  }

  /** An object the daemon prints reads back as its entries. */
  lemma ObjectReads(es: seq<Entry>)
    requires es != [] && forall e :: e in es ==> Plain(e)
    ensures ReadObject(Obj(es)) == Some(es)
  {
    hide ReadEntries, Items, Plain;
    EntriesRead(es);
    assert Obj(es)[1..|Obj(es)| - 1] == Items(es);
  }
}
