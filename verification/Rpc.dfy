/** rpc.c: request parsing over json-c, and the text of replies. */
module Rpc {
  import opened Common
  import opened Text

  // ---- json-c ----

  datatype Json =
    | Null
    | Bool(b: bool)
    | Number(x: real)
    | Str(s: string)
    | Array(items: seq<Json>)
    | Object(fields: map<string, Json>)

  /** The parts of json-c the program relies on, as arbitrary functions: the tokener, the conversions
      and the cast to single precision. */
  datatype JsonLib = JsonLib(
    parse: string -> Option<Json>,
    asInt: Json -> Int32,
    asDouble: Json -> Float,
    asString: Json -> string,
    single: Float -> Single)

  /** The cast keeps the two values the handlers use as defaults. */
  predicate CastsDefaults(l: JsonLib) {
    l.single(Finite(true, 1.0)) == Finite(true, 1.0) && l.single(Finite(false, 0.0)) == Finite(false, 0.0)
  }

  function Narrowed(x: Float): Single { if x.mag <= FLT_MAX then x else Finite(x.neg, FLT_MAX) }

  type JsonC = l: JsonLib | CastsDefaults(l)
    witness JsonLib(_ => None, _ => 0, _ => Finite(false, 0.0), _ => [], x => Narrowed(x))

  /** json_object_object_get_ex: false on anything that is not an object. */
  function Get(j: Json, key: string): Option<Json> {
    if j.Object? && key in j.fields then Some(j.fields[key]) else None
  }

  function Param(params: Option<Json>, key: string): Option<Json> {
    if params.None? then None else Get(params.value, key)
  }

  /** rpc_param_int */
  function ParamInt(lib: JsonC, params: Option<Json>, key: string, def: Int32): Int32 {
    match Param(params, key) case None => def case Some(v) => lib.asInt(v)
  }

  /** rpc_param_double */
  function ParamDouble(lib: JsonC, params: Option<Json>, key: string, def: Float): Float {
    match Param(params, key) case None => def case Some(v) => lib.asDouble(v)
  }

  /** rpc_param_str: none for a missing or null value. */
  function ParamStr(lib: JsonC, params: Option<Json>, key: string): Option<string> {
    match Param(params, key)
    case None => None
    case Some(v) => if v.Null? then None else Some(CStr(lib.asString(v)))
  }

  // ---- Requests ----

  const METHOD_LEN: nat := 64

  datatype Request = Request(id: Int32, name: string, params: Option<Json>)

  /** The tree of a line that is a request: a JSON object with a method. */
  function RequestTree(lib: JsonC, line: string): Option<Json> {
    match lib.parse(CStr(line))
    case None => None
    case Some(root) => if root.Object? && "method" in root.fields then Some(root) else None
  }

  function RequestOf(lib: JsonC, root: Json): Request
    requires root.Object? && "method" in root.fields
  {
    Request(
      if "id" in root.fields then lib.asInt(root.fields["id"]) else -1,
      Snprintf(METHOD_LEN, CStr(lib.asString(root.fields["method"]))).buf,
      Get(root, "params"))
  }

  /** rpc_parse, as a function of the line. */
  function ParseRequest(lib: JsonC, line: string): Option<Request> {
    match RequestTree(lib, line)
    case None => None
    case Some(root) => Some(RequestOf(lib, root))
  }

  /** The trees json-c has handed out, by handle, and how often each was released. */
  class JsonHeap {
    var trees: seq<Json>
    var puts: seq<nat>

    constructor ()
      ensures Valid() && trees == []
    {
      trees, puts := [], [];
    }

    ghost predicate Valid()
      reads this
    {
      |puts| == |trees|
    }

    predicate Live(h: nat)
      reads this
    {
      h < |trees| && h < |puts| && puts[h] == 0
    }

    /** Every tree handed out so far has been released exactly once. */
    ghost predicate Settled()
      reads this
    {
      Valid() && forall h :: 0 <= h < |puts| ==> puts[h] == 1
    }

    /** Exactly the tree `h` is still out. */
    ghost predicate OnlyOut(h: nat)
      reads this
    {
      Valid() && Live(h) && forall g :: 0 <= g < |puts| && g != h ==> puts[g] == 1
    }

    /** Looking into a tree demands that it has not been released. */
    function Tree(h: nat): Json
      requires Live(h)
      reads this
    {
      trees[h]
    }

    /** A borrowed pointer to the parameters inside the tree `p`, if there are any, may be followed. */
    predicate Borrowable(p: Option<nat>)
      reads this
    {
      p.Some? ==> Live(p.value)
    }

    ghost function Params(p: Option<nat>): Option<Json>
      requires Borrowable(p)
      reads this
    {
      if p.None? then None else Get(Tree(p.value), "params")
    }

    /** json_object_object_get_ex through the borrowed pointer. */
    function Field(p: Option<nat>, key: string): (v: Option<Json>)
      requires Borrowable(p)
      reads this
      ensures v == Param(Params(p), key)
    {
      if p.None? then None
      else
        var params := Get(Tree(p.value), "params");
        if params.None? then None else Get(params.value, key)
    }

    /** rpc_param_int */
    function IntParam(lib: JsonC, p: Option<nat>, key: string, def: Int32): (x: Int32)
      requires Borrowable(p)
      reads this
      ensures x == ParamInt(lib, Params(p), key, def)
    {
      match Field(p, key) case None => def case Some(v) => lib.asInt(v)
    }

    /** rpc_param_double */
    function DoubleParam(lib: JsonC, p: Option<nat>, key: string, def: Float): (x: Float)
      requires Borrowable(p)
      reads this
      ensures x == ParamDouble(lib, Params(p), key, def)
    {
      match Field(p, key) case None => def case Some(v) => lib.asDouble(v)
    }

    /** rpc_param_str: a null value has no string. */
    function StringParam(lib: JsonC, p: Option<nat>, key: string): (s: Option<string>)
      requires Borrowable(p)
      reads this
      ensures s == ParamStr(lib, Params(p), key)
    {
      match Field(p, key) case None => None case Some(v) => if v.Null? then None else Some(CStr(lib.asString(v)))
    }

    method Tokenise(lib: JsonC, text: string) returns (h: Option<nat>)
      requires Valid()
      modifies this
      ensures Valid()
      ensures lib.parse(text).None? ==> h == None && trees == old(trees) && puts == old(puts)
      ensures lib.parse(text).Some? ==>
        && h == Some(|old(trees)|) && trees == old(trees) + [lib.parse(text).value] && puts == old(puts) + [0]
    {
      var j := lib.parse(text);
      h := None;
      if j.Some? {
        h := Some(|trees|);
        trees, puts := trees + [j.value], puts + [0];
      }
    }

    /** json_object_put: releasing a tree twice is an error, so it must be live. */
    method Put(h: nat)
      requires Valid() && Live(h)
      modifies this`puts
      ensures Valid() && puts == old(puts)[h := 1]
    {
      puts := puts[h := puts[h] + 1];
    }
  }

  /** `params` is a borrowed pointer into the tree `root` owns. */
  class RpcRequest {
    var id: Int32
    var name: string
    var params: Option<nat>
    var root: Option<nat>

    constructor ()
      ensures root == None && params == None
    {
      id, name, params, root := -1, [], None, None;
    }

    /** What the request says while its tree is live. */
    ghost function Says(heap: JsonHeap): Request
      requires heap.Borrowable(params)
      reads this, heap
    {
      Request(id, name, heap.Params(params))
    }

    /** rpc_parse */
    method Parse(lib: JsonC, heap: JsonHeap, line: string) returns (rc: int)
      requires heap.Settled()
      modifies this, heap
      ensures var t := lib.parse(CStr(line));
              rc == if t.Some? && t.value.Object? && "method" in t.value.fields then 0 else -1
      ensures rc == (if ParseRequest(lib, line).Some? then 0 else -1)
      ensures rc == 0 ==> root.Some? && heap.OnlyOut(root.value) && (params.Some? ==> params == root)
      ensures rc == 0 ==>
        var f := lib.parse(CStr(line)).value.fields;
        var m := CStr(lib.asString(f["method"]));
        && id == (if "id" in f then lib.asInt(f["id"]) else -1) && name == (if |m| < 64 then m else m[..63])
        && heap.Params(params) == (if "params" in f then Some(f["params"]) else None)
      ensures rc == 0 ==> Says(heap) == ParseRequest(lib, line).value
      ensures rc != 0 ==> root == None && params == None && heap.Settled()
    {
      id, name, params := -1, [], None;
      root := heap.Tokenise(lib, CStr(line));
      if root.None? {
        return -1;
      }
      if !heap.Tree(root.value).Object? {
        heap.Put(root.value);
        root := None;
        return -1;
      }
      var jid := Get(heap.Tree(root.value), "id");
      if jid.Some? {
        id := lib.asInt(jid.value);
      }
      var jmethod := Get(heap.Tree(root.value), "method");
      if jmethod.None? {
        heap.Put(root.value);
        root := None;
        return -1;
      }
      name := Snprintf(METHOD_LEN, CStr(lib.asString(jmethod.value))).buf;
      if Get(heap.Tree(root.value), "params").Some? {
        params := root;
      }
      return 0;
    }

    /** rpc_request_free */
    method Free(heap: JsonHeap)
      requires root.Some? ==> heap.OnlyOut(root.value)
      requires root.None? ==> heap.Settled()
      modifies this`root, this`params, heap`puts
      ensures heap.Settled() && (old(root).Some? ==> root == None && params == None)
    {
      if root.Some? {
        heap.Put(root.value);
        root, params := None, None;
      }
    }
  }

  // ---- Replies ----

  /** A missing or empty result is an empty object. */
  function Body(result: Option<string>): string {
    if result.None? || result.value == [] then "{}" else result.value
  }

  /** The format of rpc_build_result. */
  function ResultText(id: Int32, result: Option<string>): string {
    "{\"id\":" + Int(id) + ",\"result\":" + Body(result) + "}"
  }

  /** The format of rpc_build_error. */
  function ErrorText(id: Int32, message: string): string {
    "{\"id\":" + Int(id) + ",\"error\":\"" + message + "\"}"
  }

  datatype Decoded = Decoded(isError: bool, id: int, body: string)

  function Index(s: string, c: char): (k: nat)
    ensures k <= |s| && (k < |s| ==> s[k] == c) && forall j :: 0 <= j < k ==> s[j] != c
  {
    if s == [] || s[0] == c then 0 else 1 + Index(s[1..], c)
  }

  /** A client's view of a reply: which request it answers, whether it failed, and the payload. */
  function Decode(text: string): Option<Decoded> {
    if !("{\"id\":" <= text) then None else
    var rest := text[6..];
    var k := Index(rest, ',');
    var digits := if k > 0 && rest[0] == '-' then rest[1..k] else rest[..k];
    if k == |rest| || !AllDigits(digits) then None else
    var id := ParseInt(rest[..k]);
    var tail := rest[k..];
    if ",\"result\":" <= tail && |tail| >= 11 then Some(Decoded(false, id, tail[10..|tail| - 1]))
    else if ",\"error\":\"" <= tail && |tail| >= 12 then Some(Decoded(true, id, tail[10..|tail| - 2]))
    else None
  }

  lemma IndexAt(a: string, c: char, b: string)
    requires c !in a
    ensures Index(a + [c] + b, c) == |a|
  {
    var s := a + [c] + b;
    assert s[|a|] == c && s[..|a|] == a;
  }

  lemma DecodeParts(id: Int32, sep: string, body: string, close: string)
    requires |sep| == 10 && sep[0] == ','
    ensures var text := "{\"id\":" + Int(id) + sep + body + close;
            && "{\"id\":" <= text && Index(text[6..], ',') == |Int(id)| < |text[6..]|
            && text[6..][..|Int(id)|] == Int(id) && text[6..][|Int(id)|..] == sep + body + close
  {
    hide Int, Index;
    IntRoundTrip(id);
    var text := "{\"id\":" + Int(id) + sep + body + close;
    assert text[6..] == Int(id) + [','] + (sep[1..] + body + close);
    IndexAt(Int(id), ',', sep[1..] + body + close);
    assert [','] + (sep[1..] + body + close) == sep + body + close;
  }

  /** Every result reply can be read back: kind, id and payload. */
  lemma DecodeResult(id: Int32, result: Option<string>)
    ensures Decode(ResultText(id, result)) == Some(Decoded(false, id, Body(result)))
  {
    hide Int, Index, ParseInt, AllDigits;
    var sep, b := ",\"result\":", Body(result);
    DecodeParts(id, sep, b, "}");
    IntRoundTrip(id);
    var tail := sep + b + "}";
    assert tail[10..|tail| - 1] == b;
  }

  /** Every error reply can be read back. */
  lemma DecodeError(id: Int32, message: string)
    ensures Decode(ErrorText(id, message)) == Some(Decoded(true, id, message))
  {
    hide Int, Index, ParseInt, AllDigits;
    var sep := ",\"error\":\"";
    DecodeParts(id, sep, message, "\"}");
    IntRoundTrip(id);
    var tail := sep + message + "\"}";
    assert tail[10..|tail| - 2] == message;
    assert sep[2] != ",\"result\":"[2];
  }
}
