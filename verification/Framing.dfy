/** The line protocol of the TCP server, as a specification on whole byte strings.

    Bytes are Dafny characters: the code below only ever compares them with LF, CR and NUL. */
module Framing {

  const LF: char := '\n'
  const CR: char := '\r'
  const NUL: char := '\0'

  /** Position of the first LF at or after `from`, or |s| when there is none (memchr). */
  function FindLF(s: string, from: nat): (k: nat)
    requires from <= |s|
    ensures from <= k <= |s|
    ensures forall j :: from <= j < k ==> s[j] != LF
    ensures k < |s| ==> s[k] == LF
    decreases |s| - from
  {
    if from == |s| || s[from] == LF then from else FindLF(s, from + 1)
  }

  /** The LF-terminated lines of `s`, terminators removed. */
  function Lines(s: string): seq<string>
    decreases |s|
  {
    var k := FindLF(s, 0);
    if k == |s| then [] else [s[..k]] + Lines(s[k + 1..])
  }

  /** What follows the last LF of `s`. */
  function Tail(s: string): string
    decreases |s|
  {
    var k := FindLF(s, 0);
    if k == |s| then s else Tail(s[k + 1..])
  }

  /** One trailing CR is not part of a line. */
  function Strip(l: string): string
  {
    if |l| > 0 && l[|l| - 1] == CR then l[..|l| - 1] else l
  }

  /** Empty lines are not messages. */
  function Clean(ls: seq<string>): seq<string>
  {
    if ls == [] then []
    else (if Strip(ls[0]) == [] then [] else [Strip(ls[0])]) + Clean(ls[1..])
  }

  /** The messages a peer that sent exactly the bytes `s` has completed. */
  function Messages(s: string): seq<string>
  {
    Clean(Lines(s))
  }

  /** Inverse of splitting: terminate each line. */
  function Unlines(ls: seq<string>): string
  {
    if ls == [] then [] else ls[0] + [LF] + Unlines(ls[1..])
  }

  // ---- Splitting is the inverse of terminating and concatenating ----

  lemma FoldLine(l: string, rest: string)
    requires LF !in l
    ensures Lines(l + [LF] + rest) == [l] + Lines(rest) && Tail(l + [LF] + rest) == Tail(rest)
  {
    var s := l + [LF] + rest;
    assert s[|l|] == LF && s[..|l|] == l;
    assert FindLF(s, 0) == |l|;
    assert s[|l| + 1..] == rest;
  }

  /** Either `s` has no LF, or it is a first line, LF and the rest. */
  lemma Unfold(s: string) returns (found: bool, l: string, rest: string)
    ensures !found ==> Lines(s) == [] && Tail(s) == s && LF !in s
    ensures found ==> Lines(s) == [l] + Lines(rest) && Tail(s) == Tail(rest)
    ensures found ==> s == l + [LF] + rest && LF !in l
  {
    hide Lines, Tail;
    var k := FindLF(s, 0);
    found := k < |s|;
    if found {
      l, rest := s[..k], s[k + 1..];
      assert s == l + [LF] + rest;
      FoldLine(l, rest);
    } else {
      l, rest := [], [];
      NoLFNoLines(s);
    }
  }

  lemma NoLFNoLines(t: string)
    requires LF !in t
    ensures Lines(t) == [] && Tail(t) == t && Messages(t) == []
  {
  }

  lemma UnlinesCons(l: string, ls: seq<string>)
    ensures Unlines([l] + ls) == l + [LF] + Unlines(ls)
    ensures Unlines([]) == []
  {
    assert ([l] + ls)[1..] == ls;
  }

  /** Terminating the lines and appending the tail gives the input back. */
  lemma {:induction false} UnlinesLines(s: string)
    ensures Unlines(Lines(s)) + Tail(s) == s
    ensures LF !in Tail(s) && forall l :: l in Lines(s) ==> LF !in l
    decreases |s|
  {
    hide Lines, Tail, Unlines;
    var found, l, rest := Unfold(s);
    UnlinesCons(l, Lines(rest));
    if found {
      UnlinesLines(rest);
      var u, t := Unlines(Lines(rest)), Tail(rest);
      assert l + [LF] + u + t == l + [LF] + (u + t);
    }
  }

  /** The decomposition is unique: any LF-free lines and tail are recovered from their concatenation. */
  lemma {:induction false} LinesUnlines(ls: seq<string>, t: string)
    requires forall l :: l in ls ==> LF !in l
    requires LF !in t
    ensures Lines(Unlines(ls) + t) == ls
    ensures Tail(Unlines(ls) + t) == t
  {
    hide Lines, Tail, Unlines;
    if ls == [] {
      UnlinesCons([], []);
      assert [] + t == t;
      NoLFNoLines(t);
    } else {
      var l, more := ls[0], ls[1..];
      assert ls == [l] + more;
      UnlinesCons(l, more);
      var u := Unlines(more);
      assert l + [LF] + u + t == l + [LF] + (u + t);
      LinesUnlines(more, t);
      FoldLine(l, u + t);
    }
  }

  // ---- Chunking ----

  lemma {:induction false} CleanConcat(a: seq<string>, b: seq<string>)
    ensures Clean(a + b) == Clean(a) + Clean(b)
  {
    hide Strip;
    if a == [] {
      assert a + b == b;
    } else {
      assert (a + b)[1..] == a[1..] + b;
      CleanConcat(a[1..], b);
    }
  }

  lemma {:induction false} LinesConcat(a: string, b: string)
    ensures Lines(a + b) == Lines(a) + Lines(Tail(a) + b)
    ensures Tail(a + b) == Tail(Tail(a) + b)
    decreases |a|
  {
    hide Lines, Tail;
    var found, l, rest := Unfold(a);
    if found {
      assert l + [LF] + rest + b == l + [LF] + (rest + b);
      FoldLine(l, rest + b);
      LinesConcat(rest, b);
    }
  }

  /** Cutting the stream anywhere and carrying the unterminated tail over loses and invents nothing. */
  lemma MessagesConcat(a: string, b: string)
    ensures Messages(a + b) == Messages(a) + Messages(Tail(a) + b)
    ensures Tail(a + b) == Tail(Tail(a) + b)
  {
    LinesConcat(a, b);
    CleanConcat(Lines(a), Lines(Tail(a) + b));
  }

  /** More input only appends messages. */
  lemma MessagesGrow(a: string, b: string)
    ensures Messages(a) <= Messages(a + b)
  {
    MessagesConcat(a, b);
  }

  /** One more complete line is one more message, or none if it is blank. */
  lemma OneLine(done: string, l: string)
    requires Tail(done) == [] && LF !in l
    ensures Tail(done + (l + [LF])) == []
    ensures Messages(done + (l + [LF])) == Messages(done) + (if Strip(l) == [] then [] else [Strip(l)])
  {
    hide Lines, Tail, Strip;
    assert l + [LF] + [] == l + [LF];
    FoldLine(l, []);
    NoLFNoLines([]);
    assert [l] + [] == [l];
    assert Clean([l]) == (if Strip(l) == [] then [] else [Strip(l)]) by { assert [l][1..] == []; }
    LinesConcat(done, l + [LF]);
    assert [] + (l + [LF]) == l + [LF];
    CleanConcat(Lines(done), [l]);
  }

  // ---- What a sender may rely on ----

  /** What a peer writes: a message or a blank line, ended by LF or by CR LF. */
  datatype Piece = Say(text: string, crlf: bool) | Blank(crlf: bool)

  function Wire(ps: seq<Piece>): string {
    if ps == [] then []
    else (if ps[0].Say? then ps[0].text else []) + (if ps[0].crlf then "\r\n" else "\n") + Wire(ps[1..])
  }

  function Said(ps: seq<Piece>): seq<string> {
    if ps == [] then [] else (if ps[0].Say? then [ps[0].text] else []) + Said(ps[1..])
  }

  /** Text that can be a message: not empty, on one line, not ending in CR. */
  predicate Sayable(t: string) { t != [] && '\n' !in t && t[|t| - 1] != '\r' }

  lemma FirstMessage(l: string, rest: string)
    requires '\n' !in l
    ensures Messages(l + "\n" + rest) == (if Strip(l) == [] then [] else [Strip(l)]) + Messages(rest)
    ensures Tail(l + "\n" + rest) == Tail(rest)
  {
    hide Lines, Tail, Strip;
    FoldLine(l, rest);
    CleanConcat([l], Lines(rest));
    assert Clean([l]) == (if Strip(l) == [] then [] else [Strip(l)]) by { assert [l][1..] == []; }
  }

  /** The messages are what was said, whichever line ends were used and however many blank lines came
      in between; a last line not ended yet waits. */
  lemma {:induction false} MessagesOfWire(ps: seq<Piece>, t: string)
    requires forall p :: p in ps && p.Say? ==> Sayable(p.text)
    requires '\n' !in t
    ensures Messages(Wire(ps) + t) == Said(ps) && Tail(Wire(ps) + t) == t
  {
    hide Messages, Tail, Strip;
    if ps == [] {
      assert [] + t == t;
      NoLFNoLines(t);
    } else {
      var p, rest := ps[0], Wire(ps[1..]) + t;
      var x := if p.Say? then p.text else [];
      var l := if p.crlf then x + "\r" else x;
      assert x + "\r\n" == (x + "\r") + "\n";
      assert Wire(ps) + t == l + "\n" + rest;
      assert p in ps;
      assert '\n' !in l && Strip(l) == x by { StripOnce(x); }
      FirstMessage(l, rest);
      MessagesOfWire(ps[1..], t);
    }
  }

  lemma StripOnce(x: string)
    requires x == [] || Sayable(x)
    ensures Strip(x) == x && Strip(x + "\r") == x && '\n' !in x + "\r"
  {
  }

  /** Only one CR goes: a line ending in two of them keeps the other. */
  lemma SecondCRStays(x: string, rest: string)
    requires '\n' !in x
    ensures Messages(x + "\r\r\n" + rest) == [x + "\r"] + Messages(rest)
  {
    hide Messages, Strip;
    var l := x + "\r" + "\r";
    assert x + "\r\r\n" + rest == l + "\n" + rest;
    assert Strip(l) == x + "\r" by { StripLast(x + "\r"); }
    FirstMessage(l, rest);
  }

  lemma StripLast(x: string)
    ensures Strip(x + "\r") == x
  {
  }
}
