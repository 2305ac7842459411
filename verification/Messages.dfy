/**
 JSON-RPC messages and their JSON codec. The decoder reads a union of optional fields in
 which a JSON `null` counts as an absent field.
 */
module Messages {
  import opened Basics
  import opened JsonValues

  /** decodeId yields nothing but ints and strings. */
  datatype Id = IntId(n: int64) | StrId(s: string)

  datatype RpcError = RpcError(code: int64, message: string, data: Json)

  datatype Message =
    | Request(id: Id, method_: string, params: seq<Json>, paramsAreList: bool, traceId: string)
    | Notify(method_: string, params: seq<Json>, paramsAreList: bool, traceId: string)
    | Result(replyTo: Option<Id>, result: Json, traceId: string)
    | Error(replyTo: Option<Id>, error: RpcError, traceId: string)
  {
    predicate IsRequestOrNotify() { Request? || Notify? }
    predicate IsResultOrError() { Result? || Error? }
  }

  type RequestMessage = m: Message | m.Request? witness Request(IntId(1), "m", [], true, "")

  const ErrMethodNotFound := RpcError(-32601, "method not found", Null)
  const ErrInternalError := RpcError(-32603, "internal error", Null)
  const ErrTimeout := RpcError(200, "request timeout", Null)
  const InvalidSchemaCode: int64 := -32633

  // ----- Constructors -----------------------------------------------------------------------

  /** RPCError.ToMessage and NewErrorMessage: the reply copies the request's id and trace id. */
  function ToMessage(e: RpcError, req: RequestMessage): Message {
    Error(Some(req.id), e, req.traceId)
  }

  function NewResultMessage(req: RequestMessage, result: Json): Message {
    Result(Some(req.id), result, req.traceId)
  }

  /** Clone passes the parameter list on as a list, whatever form it had on the wire. */
  function Clone(req: RequestMessage, newId: Id): RequestMessage {
    Request(newId, req.method_, req.params, true, req.traceId)
  }

  function ReplaceId(m: Message, newId: Id): Message
    requires !m.Notify?
  {
    match m
    case Request(_, _, _, _, _) => Clone(m, newId)
    case Result(_, result, trace) => Result(Some(newId), result, trace)
    case Error(_, error, trace) => Error(Some(newId), error, trace)
  }

  // ----- Encoding ---------------------------------------------------------------------------

  function EncodeId(id: Option<Id>): Json {
    match id
    case None => Null
    case Some(IntId(n)) => Int(n)
    case Some(StrId(s)) => Str(s)
  }

  function EncodeParams(params: seq<Json>, asList: bool): Json {
    if asList || |params| == 0 then List(params) else params[0]
  }

  function EncodeError(e: RpcError): Json {
    var fields := map["code" := Int(e.code), "message" := Str(e.message)];
    Obj(if e.data.Null? then fields else fields["data" := e.data])
  }

  function WithTrace(fields: map<string, Json>, traceId: string): Json {
    Obj(if traceId == "" then fields else fields["traceid" := Str(traceId)])
  }

  /** The `Interface` methods, marshalled. */
  function Encode(m: Message): (j: Json)
    ensures j.Obj?
  {
    match m
    case Request(id, name, params, asList, trace) =>
      WithTrace(map["jsonrpc" := Str("2.0"), "method" := Str(name), "id" := EncodeId(Some(id)),
                    "params" := EncodeParams(params, asList)], trace)
    case Notify(name, params, asList, trace) =>
      WithTrace(map["jsonrpc" := Str("2.0"), "method" := Str(name), "params" := EncodeParams(params, asList)], trace)
    case Result(id, result, trace) =>
      WithTrace(map["jsonrpc" := Str("2.0"), "id" := EncodeId(id), "result" := result], trace)
    case Error(id, error, trace) =>
      WithTrace(map["jsonrpc" := Str("2.0"), "id" := EncodeId(id), "error" := EncodeError(error)], trace)
  }

  // ----- Decoding ---------------------------------------------------------------------------

  /** A pointer field of the union: null and absent are the same. */
  function Field(fields: map<string, Json>, name: string): Option<Json> {
    if name in fields && !fields[name].Null? then Some(fields[name]) else None
  }

  /** A string field: null leaves it empty, any other type fails the whole decoding. */
  function StringField(fields: map<string, Json>, name: string): Option<string> {
    match Field(fields, name)
    case None => Some("")
    case Some(Str(s)) => Some(s)
    case _ => None
  }

  function DecodeId(id: Option<Json>): Option<Option<Id>> {
    match id
    case None => Some(None)
    case Some(Int(n)) => if FitsInt64(n) then Some(Some(IntId(n))) else None
    case Some(Str(s)) => Some(Some(StrId(s)))
    case _ => None
  }

  function DecodeParams(params: Option<Json>): Option<(seq<Json>, bool)> {
    match params
    case None => None
    case Some(List(items)) => Some((items, true))
    case Some(single) => Some(([single], false))
  }

  function DecodeError(body: Json): Option<RpcError> {
    if !body.Obj? then None else
    var code := match Field(body.fields, "code")
                case None => Some(0)
                case Some(Int(n)) => if FitsInt64(n) then Some(n) else None
                case _ => None;
    var message := StringField(body.fields, "message");
    if code.Some? && message.Some?
    then Some(RpcError(code.value, message.value, if "data" in body.fields then body.fields["data"] else Null))
    else None
  }

  function Decode(j: Json): Option<Message> {
    if !j.Obj? then None else
    var f := j.fields;
    var method_, trace, id := StringField(f, "method"), StringField(f, "traceid"), DecodeId(Field(f, "id"));
    if method_.None? || trace.None? then None
    else if Field(f, "error").Some? then
      if Field(f, "result").Some? then None else
      var error := DecodeError(f["error"]);
      if error.Some? && id.Some? then Some(Error(id.value, error.value, trace.value)) else None
    else if Field(f, "result").Some? then
      if id.Some? then Some(Result(id.value, f["result"], trace.value)) else None
    else if method_.value != "" then
      var params := DecodeParams(Field(f, "params"));
      if params.None? || id.None? then None
      else if id.value.Some? then
        Some(Request(id.value.value, method_.value, params.value.0, params.value.1, trace.value))
      else Some(Notify(method_.value, params.value.0, params.value.1, trace.value))
    else if Field(f, "id").Some? then
      // a reply whose result is null
      if id.Some? then Some(Result(id.value, Null, trace.value)) else None
    else None
  }

  // ----- Round trips ------------------------------------------------------------------------

  /** Parameters that survive: a list, or one value that is neither null nor itself a list. */
  predicate FaithfulParams(params: seq<Json>, asList: bool) {
    asList || (|params| == 1 && !params[0].Null? && !params[0].List?)
  }

  /** The messages the wire form determines. */
  predicate Faithful(m: Message) {
    match m
    case Request(_, name, params, asList, _) => name != "" && FaithfulParams(params, asList)
    case Notify(name, params, asList, _) => name != "" && FaithfulParams(params, asList)
    case Result(id, result, _) => id.Some? || !result.Null?
    case Error(_, _, _) => true
  }

  lemma ErrorRoundTrip(e: RpcError)
    ensures DecodeError(EncodeError(e)) == Some(e)
  {
  }

  /** The encoded fields as the decoder sees them. */
  lemma EncodedFields(m: Message)
    ensures var f := Encode(m).fields;
            && StringField(f, "traceid") == Some(m.traceId)
            && StringField(f, "method") == Some(if m.IsRequestOrNotify() then m.method_ else "")
            && (m.Notify? ==> Field(f, "id").None?)
            && (m.Request? ==> DecodeId(Field(f, "id")) == Some(Some(m.id)) && Field(f, "id").Some?)
            && (m.IsResultOrError() ==> DecodeId(Field(f, "id")) == Some(m.replyTo) && Field(f, "id").Some? == m.replyTo.Some?)
            && Field(f, "error") == (if m.Error? then Some(EncodeError(m.error)) else None)
            && Field(f, "result") == (if m.Result? && !m.result.Null? then Some(m.result) else None)
            && (m.IsRequestOrNotify() ==> "params" in f && f["params"] == EncodeParams(m.params, m.paramsAreList))
  {
  }

  lemma ParamsRoundTrip(params: seq<Json>, asList: bool)
    ensures var p := EncodeParams(params, asList);
            DecodeParams(if p.Null? then None else Some(p)) == Some((params, asList)) <==> FaithfulParams(params, asList)
  {
    if |params| == 1 { assert [params[0]] == params; }
  }

  /** Decoding what was encoded gives back the message, kind, id, payload, list flag and
      trace id, exactly for the faithful messages. */
  lemma DecodeEncode(m: Message)
    ensures Decode(Encode(m)) == Some(m) <==> Faithful(m)
  {
    EncodedFields(m);
    if m.IsRequestOrNotify() { ParamsRoundTrip(m.params, m.paramsAreList); }
    if m.Error? { ErrorRoundTrip(m.error); }
  }

  /** Whatever decodes is faithful, so decoding is a normal form: encoding the decoded message
      and decoding again changes nothing. */
  lemma DecodeIsNormalForm(j: Json)
    ensures Decode(j).Some? ==> Faithful(Decode(j).value) && Decode(Encode(Decode(j).value)) == Decode(j)
  {
    if Decode(j).Some? { DecodeEncode(Decode(j).value); }
  }

  // ----- Which JSON is which message --------------------------------------------------------

  /** What a message looks like on the wire, entry by entry. */
  lemma EncodedShape(m: Message)
    ensures var f := Encode(m).fields;
            && "jsonrpc" in f && f["jsonrpc"] == Str("2.0")
            && ("traceid" in f <==> m.traceId != "") && ("traceid" in f ==> f["traceid"] == Str(m.traceId))
            && (m.Request? ==> f.Keys - {"traceid"} == {"jsonrpc", "method", "id", "params"})
            && (m.Request? ==> f["id"] == if m.id.IntId? then Int(m.id.n) else Str(m.id.s))
            && (m.Notify? ==> f.Keys - {"traceid"} == {"jsonrpc", "method", "params"})
            && (m.Result? ==> f.Keys - {"traceid"} == {"jsonrpc", "id", "result"} && f["result"] == m.result)
            && (m.Error? ==> f.Keys - {"traceid"} == {"jsonrpc", "id", "error"})
            && (m.IsResultOrError() && m.replyTo.None? ==> f["id"] == Null)
            && (m.IsResultOrError() && m.replyTo.Some? ==>
                  f["id"] == if m.replyTo.value.IntId? then Int(m.replyTo.value.n) else Str(m.replyTo.value.s))
    ensures m.IsRequestOrNotify() ==>
              var f := Encode(m).fields;
              && "method" in f && f["method"] == Str(m.method_) && "params" in f
              && (m.paramsAreList || m.params == [] ==> f["params"] == List(m.params))
              && (!m.paramsAreList && |m.params| == 1 ==> f["params"] == m.params[0])
  {
  }

  lemma EncodedErrorShape(m: Message)
    requires m.Error?
    ensures "error" in Encode(m).fields && Encode(m).fields["error"].Obj?
    ensures var body := Encode(m).fields["error"].fields;
            && "code" in body && body["code"] == Int(m.error.code)
            && "message" in body && body["message"] == Str(m.error.message)
            && (if m.error.data == Null then "data" !in body else "data" in body && body["data"] == m.error.data)
            && body.Keys <= {"code", "message", "data"}
  {
  }

  /** Null and absent are the same. */
  predicate Absent(f: map<string, Json>, key: string) { key in f ==> f[key] == Null }

  predicate SameEntry(f: map<string, Json>, g: map<string, Json>, key: string) {
    if Absent(g, key) then Absent(f, key) else key in f && key in g && f[key] == g[key]
  }

  /** A text that is empty may also be left out. */
  predicate SameText(f: map<string, Json>, g: map<string, Json>, key: string) {
    if Absent(g, key) || (key in g && g[key] == Str("")) then Absent(f, key) || (key in f && f[key] == Str(""))
    else key in f && key in g && f[key] == g[key]
  }

  predicate SameError(body: Json, written: Json) {
    && body.Obj? && written.Obj?
    && SameText(body.fields, written.fields, "message") && SameEntry(body.fields, written.fields, "data")
    && (SameEntry(body.fields, written.fields, "code")
        || (Absent(body.fields, "code") && "code" in written.fields && written.fields["code"] == Int(0)))
  }

  /** `f` says what the encoding of `m` says, in the entries that count for the kind of `m`, and nothing
      that would make it a message of another kind. */
  predicate SaysTheSame(f: map<string, Json>, m: Message) {
    var g := Encode(m).fields;
    && SameText(f, g, "traceid")
    && match m
       case Request(_, _, _, _, _) =>
         SameText(f, g, "method") && SameEntry(f, g, "id") && SameEntry(f, g, "params") && Absent(f, "error") && Absent(f, "result")
       case Notify(_, _, _, _) =>
         SameText(f, g, "method") && Absent(f, "id") && SameEntry(f, g, "params") && Absent(f, "error") && Absent(f, "result")
       case Result(_, result, _) =>
         && (Absent(f, "method") || (f["method"].Str? && (result == Null ==> f["method"] == Str(""))))
         && SameEntry(f, g, "id") && SameEntry(f, g, "result") && Absent(f, "error")
       case Error(_, _, _) =>
         && (Absent(f, "method") || f["method"].Str?)
         && SameEntry(f, g, "id") && "error" in f && SameError(f["error"], g["error"]) && Absent(f, "result")
  }

  lemma RequestDecodes(f: map<string, Json>, m: Message)
    requires m.IsRequestOrNotify()
    ensures Decode(Obj(f)) == Some(m) <==> Faithful(m) && SaysTheSame(f, m)
  {
    EncodedFields(m);
    ParamsRoundTrip(m.params, m.paramsAreList);
  }

  lemma ResultDecodes(f: map<string, Json>, m: Message)
    requires m.Result?
    ensures Decode(Obj(f)) == Some(m) <==> Faithful(m) && SaysTheSame(f, m)
  {
    EncodedFields(m);
    EncodedShape(m);
  }

  lemma ErrorDecodes(f: map<string, Json>, m: Message)
    requires m.Error?
    ensures Decode(Obj(f)) == Some(m) <==> SaysTheSame(f, m)
  {
    EncodedFields(m);
    if "error" in f { ErrorBodyDecodes(f["error"], m.error); }
  }

  lemma ErrorBodyDecodes(body: Json, e: RpcError)
    ensures DecodeError(body) == Some(e) <==> SameError(body, EncodeError(e))
  {
  }

  /** The JSON values that decode to a message are exactly those that say what its encoding says, and
      only faithful messages have any. */
  lemma DecodesExactly(j: Json, m: Message)
    ensures Decode(j) == Some(m) <==> Faithful(m) && j.Obj? && SaysTheSame(j.fields, m)
  {
    if j.Obj? {
      match m
      case Result(_, _, _) => ResultDecodes(j.fields, m);
      case Error(_, _, _) => ErrorDecodes(j.fields, m);
      case _ => RequestDecodes(j.fields, m);
    }
  }

  /** Renaming a request keeps everything on the wire but the id exactly when its parameters
      went out as a list. */
  lemma RenamedOnTheWire(req: RequestMessage, newId: Id)
    ensures Encode(Clone(req, newId)) == Obj(Encode(req).fields["id" := EncodeId(Some(newId))]) <==>
              req.paramsAreList || |req.params| == 0
  {
    var renamed := Encode(Clone(req, newId)).fields;
    var expected := Encode(req).fields["id" := EncodeId(Some(newId))];
    EncodedFields(req);
    EncodedFields(Clone(req, newId));
    if req.paramsAreList || |req.params| == 0 {
      assert renamed == expected;
    } else {
      assert renamed["params"] == List(req.params) && expected["params"] == req.params[0];
      assert req.params[0] != List(req.params) by { NotItsOwnElement(req.params); }
    }
  }

  /** A request with the single value "x" goes out renamed with the list of it. */
  lemma SingleValueIsWrapped(id: Id, newId: Id)
    ensures var req := Request(id, "m", [Str("x")], false, "");
            && Faithful(req) && Encode(req).fields["params"] == Str("x")
            && Encode(Clone(req, newId)).fields["params"] == List([Str("x")])
            && Encode(Clone(req, newId)) != Obj(Encode(req).fields["id" := EncodeId(Some(newId))])
  {
    RenamedOnTheWire(Request(id, "m", [Str("x")], false, ""), newId);
  }

  lemma NotItsOwnElement(items: seq<Json>)
    requires |items| > 0
    ensures items[0] != List(items)
  {
    assert List(items).items[0] < List(items);
  }

  /** Renaming a reply and renaming it back loses nothing. */
  lemma ReplyRenamedBack(m: Message, other: Id)
    requires m.IsResultOrError() && m.replyTo.Some?
    ensures ReplaceId(ReplaceId(m, other), m.replyTo.value) == m
  {
  }
}
