/**
 A JSON-RPC request by itself: how it is read, validated and routed to a channel.
 JSON text is not modelled, only values.
 */
module Rpc {
  import opened Wrappers

  datatype Json =
    | Null
    | Bool(b: bool)
    | Number(r: real)
    | Str(s: string)
    | Arr(items: seq<Json>)
    | Obj(fields: map<string, Json>)

  datatype Code =
    | ExpectedObject | ExpectedStringVersion | UnknownVersion | InvalidNullId | ExpectedStrnumId | ExpectedId
    | MissingMethod | ExpectedStringMethod | ExpectedStructuredParams | MissingParams | ExpectedArrayParams

  const INVALID_REQUEST := -32600
  const METHOD_NOT_FOUND := -32601
  const INVALID_PARAMS := -32602

  datatype Call = Call(id: Option<Json>, version: int, method_: string, params: Json)

  const BLANK := Call(None, 2, "", Null)

  // ----- extract -----

  function Field(jv: Json, key: string): Option<Json>
    requires jv.Obj?
  {
    if key in jv.fields then Some(jv.fields[key]) else None
  }

  /** The checks of `extract` in their order, with what has been filled in when one fails. */
  function Extract(jv: Json): (Call, Option<Code>) {
    if !jv.Obj? then (BLANK, Some(ExpectedObject))
    else
      var c := BLANK.(id := Field(jv, "id"));
      match Field(jv, "jsonrpc")
      case Some(v) =>
        if !v.Str? then (c, Some(ExpectedStringVersion))
        else if v.s != "2.0" then (c, Some(UnknownVersion))
        else if c.id == Some(Null) then (c, Some(InvalidNullId))
        else if c.id.Some? && !c.id.value.Number? && !c.id.value.Str? then (c, Some(ExpectedStrnumId))
        else ExtractMethod(jv, c)
      case None =>
        var c1 := c.(version := 1);
        if c1.id.None? then (c1, Some(ExpectedId)) else ExtractMethod(jv, c1)
  }

  function ExtractMethod(jv: Json, c: Call): (Call, Option<Code>)
    requires jv.Obj?
  {
    match Field(jv, "method")
    case None => (c, Some(MissingMethod))
    case Some(m) =>
      if !m.Str? then (c, Some(ExpectedStringMethod))
      else ExtractParams(jv, c.(method_ := m.s))
  }

  function ExtractParams(jv: Json, c: Call): (Call, Option<Code>)
    requires jv.Obj?
  {
    match Field(jv, "params")
    case None => if c.version == 2 then (c, None) else (c, Some(MissingParams))
    case Some(p) =>
      if c.version == 2 && !p.Obj? && !p.Arr? then (c, Some(ExpectedStructuredParams))
      else if c.version != 2 && !p.Arr? then (c, Some(ExpectedArrayParams))
      else (c.(params := p), None)
  }

  /** A well-formed request, member by member, for version 2 and, without "jsonrpc", version 1. */
  predicate WellFormed(jv: Json) {
    && jv.Obj?
    && var f := jv.fields;
    && "method" in f && f["method"].Str?
    && if "jsonrpc" in f then
         && f["jsonrpc"] == Str("2.0")
         && ("id" in f ==> f["id"].Number? || f["id"].Str?)
         && ("params" in f ==> f["params"].Obj? || f["params"].Arr?)
       else
         "id" in f && "params" in f && f["params"].Arr?
  }

  predicate HasId(jv: Json) {
    jv.Obj? && "id" in jv.fields
  }

  /** The call a well-formed request stands for. */
  function Meaning(jv: Json): Call
    requires WellFormed(jv)
  {
    var f := jv.fields;
    Call(if "id" in f then Some(f["id"]) else None,
         if "jsonrpc" in f then 2 else 1,
         f["method"].s,
         if "params" in f then f["params"] else Null)
  }

  /** `extract` accepts exactly the well-formed requests and fills in what they say. */
  lemma ExtractIffWellFormed(jv: Json)
    ensures Extract(jv).1.None? <==> WellFormed(jv)
    ensures WellFormed(jv) ==> Extract(jv).0 == Meaning(jv)
  {
  }

  /** Whatever is wrong with a request, its id is known for the error reply. */
  lemma ExtractKeepsId(jv: Json)
    ensures Extract(jv).0.id == if HasId(jv) then Some(jv.fields["id"]) else None
  {
  }

  /** The members that come before `method` are in order. */
  predicate HeaderOk(f: map<string, Json>) {
    if "jsonrpc" in f then f["jsonrpc"] == Str("2.0") && ("id" in f ==> f["id"].Number? || f["id"].Str?)
    else "id" in f
  }

  /** The condition on a request that yields each code; it is the first thing that is wrong, in the order of the codes. */
  predicate Yields(jv: Json, code: Code) {
    if !jv.Obj? then code.ExpectedObject?
    else
      var f := jv.fields;
      var two, method_ := "jsonrpc" in f, "method" in f && f["method"].Str?;
      match code
      case ExpectedObject => false
      case ExpectedStringVersion => two && !f["jsonrpc"].Str?
      case UnknownVersion => two && f["jsonrpc"].Str? && f["jsonrpc"].s != "2.0"
      case InvalidNullId => two && f["jsonrpc"] == Str("2.0") && "id" in f && f["id"].Null?
      case ExpectedStrnumId =>
        two && f["jsonrpc"] == Str("2.0") && "id" in f && (f["id"].Bool? || f["id"].Arr? || f["id"].Obj?)
      case ExpectedId => !two && "id" !in f
      case MissingMethod => HeaderOk(f) && "method" !in f
      case ExpectedStringMethod => HeaderOk(f) && "method" in f && !f["method"].Str?
      case ExpectedStructuredParams =>
        two && HeaderOk(f) && method_ && "params" in f && !f["params"].Obj? && !f["params"].Arr?
      case MissingParams => !two && HeaderOk(f) && method_ && "params" !in f
      case ExpectedArrayParams => !two && HeaderOk(f) && method_ && "params" in f && !f["params"].Arr?
  }

  /** `extract` reports a code exactly for the requests that yield it. */
  lemma CodeSpec(jv: Json, code: Code)
    ensures Extract(jv).1 == Some(code) <==> Yields(jv, code)
  {
  }

  // ----- routing -----

  datatype Kind = System | Room | Table

  /** Where a request goes: to a channel, back with an error, or out of the loop in an exception. */
  datatype Route =
    | Refused(code: int)
    | Unconvertible
    | To(cid: nat, call: Call)

  /** `checked_value`: the parameters must be an object with the key. */
  function CheckedValue(params: Json, key: string): Option<Json> {
    if params.Obj? && key in params.fields then Some(params.fields[key]) else None
  }

  predicate CheckedString(params: Json, key: string) {
    CheckedValue(params, key).Some? && CheckedValue(params, key).value.Str?
  }

  /** `number_cast<std::size_t>`: fails with an exception that is not an rpc_error. */
  function NumberCast(jv: Json): Option<nat> {
    if jv.Number? && jv.r >= 0.0 && jv.r.Floor as real == jv.r && jv.r.Floor < 0x1_0000_0000_0000_0000
    then Some(jv.r.Floor) else None
  }

  /** `extract`, then `channel_list::dispatch` for the channels that exist. */
  function RouteOf(cids: set<nat>, jv: Json): Route {
    var (c, ec) := Extract(jv);
    if ec.Some? then Refused(INVALID_REQUEST)
    else match CheckedValue(c.params, "cid")
      case None => Refused(INVALID_PARAMS)
      case Some(j) =>
        match NumberCast(j)
        case None => Unconvertible
        case Some(cid) => if cid in cids then To(cid, c) else Refused(INVALID_PARAMS)
  }

  /**
   A version 1 request is always turned down: its parameters are an array, and
   routing wants an object.  No channel ever sees one.
   */
  lemma Version1NeverReachesAChannel(cids: set<nat>, jv: Json)
    requires WellFormed(jv) && "jsonrpc" !in jv.fields
    ensures RouteOf(cids, jv) == Refused(-32602)
  {
    ExtractIffWellFormed(jv);
  }

  /** A parameter of a well-formed request. */
  function Param(jv: Json, key: string): Option<Json> {
    if WellFormed(jv) && "params" in jv.fields && jv.fields["params"].Obj? && key in jv.fields["params"].fields
    then Some(jv.fields["params"].fields[key]) else None
  }

  function CidField(jv: Json): Option<Json> {
    Param(jv, "cid")
  }

  /** Exactly the whole numbers of 64 bits convert, to themselves. */
  lemma NumberCastSpec(jv: Json, n: nat)
    ensures NumberCast(jv) == Some(n) <==> jv == Number(n as real) && n < 0x1_0000_0000_0000_0000
  {
  }

  /** What a call carries that leads to an exception nobody catches: a cid that is no valid index. */
  predicate BadCid(jv: Json) {
    CidField(jv).Some? && NumberCast(CidField(jv).value).None?
  }

  /** The channel a well-formed request is addressed to, if there is one. */
  function Target(cids: set<nat>, jv: Json): Option<nat> {
    if CidField(jv).Some? && NumberCast(CidField(jv).value).Some? && NumberCast(CidField(jv).value).value in cids
    then NumberCast(CidField(jv).value) else None
  }

  /** The methods a channel knows besides `join` and `leave`. */
  function Methods(kind: Kind): set<string> {
    match kind
    case System => {"identify", "shutdown", "stop"}
    case Room => {"say", "slash"}
    case Table => {"play", "watch", "bet", "start", "hit", "stand"}
  }

  predicate CallsFor(jv: Json, methods: set<string>)
    requires WellFormed(jv)
  {
    jv.fields["method"].s in methods
  }

  /** The request is addressed to the channel: its cid is that number. */
  predicate AddressedTo(jv: Json, cid: nat) {
    Param(jv, "cid") == Some(Number(cid as real)) && cid < 0x1_0000_0000_0000_0000
  }

  lemma TargetIff(cids: set<nat>, jv: Json, cid: nat)
    ensures Target(cids, jv) == Some(cid) <==> cid in cids && AddressedTo(jv, cid)
  {
    if CidField(jv).Some? { NumberCastSpec(CidField(jv).value, cid); }
  }

  /** The request calls the method of the channel. */
  predicate Calls(jv: Json, cid: nat, name: string) {
    AddressedTo(jv, cid) && jv.fields["method"] == Str(name)
  }

  /**
   The three ways out, and when each is taken: refused as invalid iff malformed, thrown
   out of the loop iff the cid does not convert, and delivered, as what the request
   means, iff it is addressed to a channel.
   */
  lemma RouteSpec(cids: set<nat>, jv: Json)
    ensures RouteOf(cids, jv) == Refused(-32600) <==> !WellFormed(jv)
    ensures RouteOf(cids, jv).Unconvertible? <==> BadCid(jv)
    ensures RouteOf(cids, jv).To? <==> Target(cids, jv).Some?
    ensures Target(cids, jv).Some? ==>
              WellFormed(jv) && RouteOf(cids, jv) == To(Target(cids, jv).value, Meaning(jv))
    ensures RouteOf(cids, jv).Refused? ==> RouteOf(cids, jv).code in {-32600, -32602}
  {
    ExtractIffWellFormed(jv);
  }

  /** A request made of the four standard members. */
  function MakeRequest(id: real, name: string, cid: Json): Json {
    Obj(map["jsonrpc" := Str("2.0"), "id" := Number(id), "method" := Str(name),
            "params" := Obj(map["cid" := cid])])
  }

  /** Any method with a string as cid, and an id that asks for a reply, is a request that escapes. */
  lemma StringCidEscapes(id: real, name: string, text: string)
    ensures var jv := MakeRequest(id, name, Str(text)); WellFormed(jv) && HasId(jv) && BadCid(jv)
  {
  }

  // ----- the fields and their updates -----

  class RpcCall {
    var id: Option<Json>
    var version: int
    var method_: string
    var params: Json

    ghost function Value(): Call
      reads this
    {
      Call(id, version, method_, params)
    }

    constructor ()
      ensures Value() == BLANK
    {
      id, version, method_, params := None, 2, "", Null;
    }

    method ExtractFrom(jv: Json) returns (ec: Option<Code>)
      requires Value() == BLANK
      modifies this
      ensures (Value(), ec) == Extract(jv)
    {
      if !jv.Obj? { return Some(ExpectedObject); }
      var f := jv.fields;
      if "id" in f { id := Some(f["id"]); }
      if "jsonrpc" in f {
        if !f["jsonrpc"].Str? { return Some(ExpectedStringVersion); }
        if f["jsonrpc"].s != "2.0" { return Some(UnknownVersion); }
        version := 2;
      } else {
        version := 1;
      }
      if version == 2 {
        if id.Some? {
          if id.value.Null? { return Some(InvalidNullId); }
          if !id.value.Number? && !id.value.Str? { return Some(ExpectedStrnumId); }
        }
      } else {
        if id.None? { return Some(ExpectedId); }
      }
      if "method" !in f { return Some(MissingMethod); }
      if !f["method"].Str? { return Some(ExpectedStringMethod); }
      method_ := f["method"].s;
      if version == 2 {
        if "params" in f {
          if !f["params"].Obj? && !f["params"].Arr? { return Some(ExpectedStructuredParams); }
          params := f["params"];
        }
      } else {
        if "params" !in f { return Some(MissingParams); }
        if !f["params"].Arr? { return Some(ExpectedArrayParams); }
        params := f["params"];
      }
      return None;
    }
  }
}
