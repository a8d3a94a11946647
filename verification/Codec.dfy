/** `MessageBytes` and `DecodeMessage`, on parsed JSON. */
module Codec {
  import opened Values
  import opened Messages

  datatype Options = Options(idNotNull: bool)

  const DEFAULT := Options(false)

  datatype Decoded = Decoded(msg: Message) | Refused(why: string)

  /** The document that `json.Marshal` writes for a message. */
  function Encode(m: Message): Value {
    Reread(Obj(MessageMap(m)))
  }

  // ---- msgIdT ---------------------------------------------------------------------------

  /** `msgIdT.UnmarshalJSON`: null, a number that is an int, or a string. */
  function DecodeId(v: Value): Option<Value> {
    match v
    case Null => Some(Null)
    case Number(Digits(n)) => if InInt64(n) then Some(Int(n)) else None
    case Str(s) => Some(Str(s))
    case _ => None
  }

  // ---- msgUnion -------------------------------------------------------------------------

  /** A field as a raw message pointer: absent and null are the same. */
  function Raw(f: map<string, Value>, key: string): Option<Value> {
    if key in f && f[key] != Null then Some(f[key]) else None
  }

  /** A string field: absent and null leave it empty; anything else does not decode. */
  function StringField(f: map<string, Value>, key: string): Option<string> {
    if key !in f || f[key] == Null then Some("")
    else if f[key].Str? then Some(f[key].s)
    else None
  }

  /** An integer field, in the same manner. */
  function IntField(f: map<string, Value>, key: string): Option<Int64> {
    if key !in f || f[key] == Null then Some(0)
    else if f[key].Number? then LiteralInt64(f[key].lit)
    else None
  }

  function DecodeError(v: Value): Option<RPCError> {
    if !v.Obj? then None
    else
      var code, message := IntField(v.fields, "code"), StringField(v.fields, "message");
      if code.Some? && message.Some? then
        Some(RPCError(code.value, message.value, if "data" in v.fields then v.fields["data"] else Null))
      else None
  }

  /** `decodeParams`: anything but a list becomes a list of one. */
  function DecodeParams(v: Value): (seq<Value>, bool) {
    if v.List? then (v.items, true) else ([v], false)
  }

  function DecodeMessage(doc: Value, opts: Options): Decoded {
    if doc == Null then Refused("not a jsonrpc message")
    else if !doc.Obj? then Refused("not an object")
    else
      var f := doc.fields;
      var id := if "id" in f then DecodeId(f["id"]) else None;
      var methodName, traceId := StringField(f, "method"), StringField(f, "traceid");
      if ("id" in f && id == None) || methodName == None || traceId == None then Refused("wrong type of field")
      else
        var error, result := Raw(f, "error"), Raw(f, "result");
        if error.Some? then
          if result.Some? then Refused("result and error cannot co exist")
          else if DecodeError(error.value) == None then Refused("not an error body")
          else if id == None then Refused("no message id")
          else Decoded(Error(id.value, DecodeError(error.value), traceId.value))
        else if result.Some? then
          if id == Some(Null) && opts.idNotNull then Refused("Result.id cannot be null")
          else Decoded(Result(if id.Some? then id.value else Null, result.value, traceId.value))
        else if methodName.value != "" then
          if Raw(f, "params") == None then Refused("no params field")
          else
            var (params, isList) := DecodeParams(f["params"]);
            if id == Some(Null) && opts.idNotNull then Refused("Request.id cannot be null")
            else if id.Some? then Decoded(Request(id.value, methodName.value, params, isList, traceId.value))
            else Decoded(Notify(methodName.value, params, isList, traceId.value))
        else if id.Some? then Decoded(Result(id.value, Null, traceId.value))
        else Refused("not a jsonrpc message")
  }

  // ---- round trips ------------------------------------------------------------------------

  /** The ids that keep their type on the wire. */
  predicate WireId(id: Value) {
    id.Null? || id.Int? || id.Str?
  }

  /** Parameters that are not a list survive when there is one, and it is neither null nor
      something that is written as a list. */
  predicate WireParams(params: seq<Value>, areList: bool) {
    areList || (|params| == 1 && params[0] != Null && !params[0].List? && !params[0].Maps? && !params[0].Strs?)
  }

  /** The messages that the other side reads as they were sent. */
  predicate WireSafe(m: Message) {
    match m
    case Request(id, methodName, params, areList, _) => WireId(id) && methodName != "" && WireParams(params, areList)
    case Notify(methodName, params, areList, _) => methodName != "" && WireParams(params, areList)
    case Result(id, _, _) => WireId(id)
    case Error(id, error, _) => WireId(id) && error.Some?
  }

  /** The messages that a reader who insists on ids refuses. */
  predicate NullIdRefused(m: Message) {
    (m.Request? && m.id == Null) || (m.Result? && m.id == Null && m.result != Null)
  }

  /** Decoding the encoding of a message gives it back, values reread, exactly when it is
      safe on the wire. */
  lemma {:induction false} RoundTrip(m: Message, opts: Options)
    ensures DecodeMessage(Encode(m), opts) == Decoded(Received(m))
      <==> WireSafe(m) && !(opts.idNotNull && NullIdRefused(m))
  {
    EncodedFields(m);
    match m {
      case Request(_, _, _, _, _) => RequestRoundTrip(m, opts);
      case Notify(_, _, _, _) => NotifyRoundTrip(m, opts);
      case Result(_, _, _) => ResultRoundTrip(m, opts);
      case Error(_, _, _) => ErrorRoundTrip(m, opts);
    }
  }

  /** What the document of `m` holds, field by field. */
  ghost predicate Holds(m: Message, f: map<string, Value>) {
    && (if m.traceId == "" then "traceid" !in f else "traceid" in f && f["traceid"] == Str(m.traceId))
    && (HasId(m) <==> "id" in f) && (HasId(m) ==> f["id"] == Reread(m.id))
    && (IsResponse(m) <==> "method" in f) && (IsResponse(m) ==> f["method"] == Str(m.methodName))
    && (IsResponse(m) <==> "params" in f)
    && (IsResponse(m) ==> f["params"] == Reread(ParamsField(m.params, m.paramsAreList)))
    && (m.Result? <==> "result" in f) && (m.Result? ==> f["result"] == Reread(m.result))
    && (m.Error? <==> "error" in f) && (m.Error? ==> f["error"] == Reread(ErrorField(m.error)))
  }

  lemma EncodedFields(m: Message)
    ensures Encode(m).Obj? && Holds(m, Encode(m).fields)
  {
    hide Reread, OwnFields;
    OwnFieldsHold(m);
    RereadFields(MessageMap(m));
    StringReread(m.traceId);
    if IsResponse(m) {
      StringReread(m.methodName);
    }
    assert forall k | k in OwnFields(m) :: k in MessageMap(m) && MessageMap(m)[k] == OwnFields(m)[k];
    assert forall k | k in MessageMap(m) :: k in OwnFields(m) || k == "jsonrpc" || k == "traceid";
  }

  /** The document of a message, to the last field: version 2.0, the trace if there is one, and
      the fields of its kind. */
  function DocumentFields(m: Message): map<string, Value> {
    map["jsonrpc" := Str("2.0")]
    + (if m.traceId == "" then map[] else map["traceid" := Str(m.traceId)])
    + match m
      case Request(id, name, params, areList, _) =>
        map["method" := Str(name), "id" := Reread(id), "params" := ParamsDocument(params, areList)]
      case Notify(name, params, areList, _) =>
        map["method" := Str(name), "params" := ParamsDocument(params, areList)]
      case Result(id, result, _) => map["id" := Reread(id), "result" := Reread(result)]
      case Error(id, error, _) => map["id" := Reread(id), "error" := if error.None? then Null else ErrorDocument(error.value)]
  }

  function ParamsDocument(params: seq<Value>, areList: bool): Value {
    if areList || params == [] then List(RereadAll(params)) else Reread(params[0])
  }

  /** The body of an error: code, message, and data unless it is null. */
  function ErrorDocument(e: RPCError): Value {
    Obj(if e.data == Null then map["code" := Number(Digits(e.code)), "message" := Str(e.message)]
        else map["code" := Number(Digits(e.code)), "message" := Str(e.message), "data" := Reread(e.data)])
  }

  lemma EncodedDocument(m: Message)
    ensures Encode(m) == Obj(DocumentFields(m))
  {
    hide Encode, Reread, RereadAll, ErrorDocument, ErrorField, ParamsField, ParamsDocument;
    EncodedFields(m);
    EncodedKeys(m);
    match m {
      case Request(_, _, params, areList, _) => ParamsAreDocument(params, areList);
      case Notify(_, params, areList, _) => ParamsAreDocument(params, areList);
      case Error(_, error, _) => ErrorIsDocument(error);
      case _ =>
    }
    var f, g := Encode(m).fields, DocumentFields(m);
    DocumentKeys(m);
    forall k | k in f ensures f[k] == g[k] {
      DocumentEntry(m, k);
    }
  }

  lemma DocumentKeys(m: Message)
    ensures DocumentFields(m).Keys == (if m.traceId == "" then {} else {"traceid"}) +
      match m
      case Request(_, _, _, _, _) => {"jsonrpc", "method", "id", "params"}
      case Notify(_, _, _, _) => {"jsonrpc", "method", "params"}
      case Result(_, _, _) => {"jsonrpc", "id", "result"}
      case Error(_, _, _) => {"jsonrpc", "id", "error"}
  {
    hide Reread, RereadAll, ErrorDocument, ParamsDocument;
  }

  lemma DocumentEntry(m: Message, k: string)
    requires k in DocumentFields(m)
    ensures DocumentFields(m)[k] ==
      match k
      case "jsonrpc" => Str("2.0")
      case "traceid" => Str(m.traceId)
      case "method" => if IsResponse(m) then Str(m.methodName) else DocumentFields(m)[k]
      case "id" => if HasId(m) then Reread(m.id) else DocumentFields(m)[k]
      case "params" => if IsResponse(m) then ParamsDocument(m.params, m.paramsAreList) else DocumentFields(m)[k]
      case "result" => if m.Result? then Reread(m.result) else DocumentFields(m)[k]
      case "error" => if m.Error? then (if m.error.None? then Null else ErrorDocument(m.error.value)) else DocumentFields(m)[k]
      case _ => DocumentFields(m)[k]
  {
    hide Reread, RereadAll, ErrorDocument, ParamsDocument;
  }

  lemma ErrorIsDocument(error: Option<RPCError>)
    ensures Reread(ErrorField(error)) == if error.None? then Null else ErrorDocument(error.value)
  {
    if error.Some? {
      var e, f := error.value, ErrorField(error).fields;
      RereadFields(f);
      ErrorFields(e, f);
      StringReread(e.message);
      IntReread(e.code);
      hide Reread, ErrorField;
      var g, h := Reread(Obj(f)).fields, ErrorDocument(e).fields;
      assert g.Keys == h.Keys;
      assert g == h;
    }
  }

  lemma ErrorFields(e: RPCError, f: map<string, Value>)
    requires ErrorField(Some(e)) == Obj(f)
    ensures f.Keys == if e.data == Null then {"code", "message"} else {"code", "message", "data"}
    ensures f["code"] == Int(e.code) && f["message"] == Str(e.message) && (e.data != Null ==> f["data"] == e.data)
  {
  }

  lemma IntReread(n: Int64)
    ensures Reread(Int(n)) == Number(Digits(n))
  {
  }

  lemma ParamsAreDocument(params: seq<Value>, areList: bool)
    ensures Reread(ParamsField(params, areList)) == ParamsDocument(params, areList)
  {
  }

  /** Which fields the document of each kind has. */
  lemma EncodedKeys(m: Message)
    ensures Encode(m).Obj? && "jsonrpc" in Encode(m).fields && Encode(m).fields["jsonrpc"] == Str("2.0")
    ensures Encode(m).fields.Keys == (if m.traceId == "" then {} else {"traceid"}) +
      match m
      case Request(_, _, _, _, _) => {"jsonrpc", "method", "id", "params"}
      case Notify(_, _, _, _) => {"jsonrpc", "method", "params"}
      case Result(_, _, _) => {"jsonrpc", "id", "result"}
      case Error(_, _, _) => {"jsonrpc", "id", "error"}
  {
    RereadFields(MessageMap(m));
    StringReread("2.0");
    OwnFieldsHold(m);
    hide Reread, ParamsField, ErrorField;
    assert "jsonrpc" in MessageMap(m) && MessageMap(m)["jsonrpc"] == Str("2.0");
  }

  lemma StringReread(s: string)
    ensures Reread(Str(s)) == Str(s)
  {
  }

  lemma OwnFieldsHold(m: Message)
    ensures var f := OwnFields(m);
      && "traceid" !in f && "jsonrpc" !in f
      && (HasId(m) <==> "id" in f) && (HasId(m) ==> f["id"] == m.id)
      && (IsResponse(m) <==> "method" in f) && (IsResponse(m) ==> f["method"] == Str(m.methodName))
      && (IsResponse(m) <==> "params" in f)
      && (IsResponse(m) ==> f["params"] == ParamsField(m.params, m.paramsAreList))
      && (m.Result? <==> "result" in f) && (m.Result? ==> f["result"] == m.result)
      && (m.Error? <==> "error" in f) && (m.Error? ==> f["error"] == ErrorField(m.error))
  {
    hide ParamsField, ErrorField;
  }

  lemma RequestRoundTrip(m: Message, opts: Options)
    requires m.Request? && Encode(m).Obj? && Holds(m, Encode(m).fields)
    ensures DecodeMessage(Encode(m), opts) == Decoded(Received(m))
      <==> WireSafe(m) && !(opts.idNotNull && NullIdRefused(m))
  {
    hide Encode, Reread;
    IdOnWire(m.id);
    ParamsOnWire(m.params, m.paramsAreList);
  }

  lemma NotifyRoundTrip(m: Message, opts: Options)
    requires m.Notify? && Encode(m).Obj? && Holds(m, Encode(m).fields)
    ensures DecodeMessage(Encode(m), opts) == Decoded(Received(m)) <==> WireSafe(m)
  {
    hide Encode, Reread;
    ParamsOnWire(m.params, m.paramsAreList);
  }

  lemma ResultRoundTrip(m: Message, opts: Options)
    requires m.Result? && Encode(m).Obj? && Holds(m, Encode(m).fields)
    ensures DecodeMessage(Encode(m), opts) == Decoded(Received(m))
      <==> WireSafe(m) && !(opts.idNotNull && NullIdRefused(m))
  {
    hide Encode;
    IdOnWire(m.id);
  }

  lemma ErrorRoundTrip(m: Message, opts: Options)
    requires m.Error? && Encode(m).Obj? && Holds(m, Encode(m).fields)
    ensures DecodeMessage(Encode(m), opts) == Decoded(Received(m)) <==> WireSafe(m)
  {
    hide Encode, Reread;
    IdOnWire(m.id);
    ErrorOnWire(m.error);
  }

  lemma IdOnWire(id: Value)
    ensures DecodeId(Reread(id)) == Some(id) <==> WireId(id)
    ensures Reread(id) == Null <==> id == Null
  {
  }

  /** Parameters that are not safe are lost, or come back in another shape. */
  lemma ParamsOnWire(params: seq<Value>, areList: bool)
    ensures var v := Reread(ParamsField(params, areList));
      (v != Null && DecodeParams(v) == (RereadAll(params), areList)) <==> WireParams(params, areList)
  {
    var v := Reread(ParamsField(params, areList));
    if areList {
      assert v.items == RereadAll(params);
    } else if |params| == 1 {
      assert RereadAll(params) == [Reread(params[0])];
    }
  }

  lemma ErrorOnWire(error: Option<RPCError>)
    ensures error.None? ==> Reread(ErrorField(error)) == Null
    ensures error.Some? ==>
      DecodeError(Reread(ErrorField(error))) == Some(error.value.(data := Reread(error.value.data)))
  {
    hide Reread, ErrorField, DecodeError;
    ErrorIsDocument(error);
    if error.Some? {
      ErrorBodyReads(ErrorDocument(error.value), error.value.(data := Reread(error.value.data)));
      NullRereads(error.value.data);
    }
  }

  lemma NullRereads(v: Value)
    ensures v == Null ==> Reread(v) == Null
  {
  }

  /** A message that has come through the decoder goes through it again unchanged. */
  lemma {:induction false} DecodeEncodeDecode(doc: Value, m: Message, opts: Options)
    requires IsJson(doc) && DecodeMessage(doc, opts) == Decoded(m)
    ensures DecodeMessage(Encode(m), DEFAULT) == Decoded(m)
  {
    hide DecodeMessage, Encode, Received, WireSafe;
    RoundTrip(m, DEFAULT);
    DecodedIsReceived(doc, opts);
  }

  /** It does so under the options it was read with, unless the reader insists on ids and the
      first document was a result without one. */
  lemma {:induction false} DecodeAgainWithOptions(doc: Value, m: Message, opts: Options)
    requires IsJson(doc) && DecodeMessage(doc, opts) == Decoded(m)
    ensures DecodeMessage(Encode(m), opts) == Decoded(m)
      <==> !(opts.idNotNull && m.Result? && m.result != Null && "id" !in doc.fields)
  {
    hide DecodeMessage, Encode, Received, WireSafe;
    RoundTrip(m, opts);
    DecodedIsReceived(doc, opts);
    NullIdDecoded(doc, opts);
  }

  /** The only null id that a reader who insists on ids lets through is a missing one. */
  lemma NullIdDecoded(doc: Value, opts: Options)
    requires DecodeMessage(doc, opts).Decoded?
    ensures var m := DecodeMessage(doc, opts).msg;
      opts.idNotNull ==> (NullIdRefused(m) <==> m.Result? && m.result != Null && "id" !in doc.fields)
  {
    hide DecodeError, DecodeParams;
  }

  /** A field that is null counts as missing; a null id counts as an id. */
  lemma NullFieldIsMissing(f: map<string, Value>, key: string, opts: Options)
    requires key != "id"
    ensures DecodeMessage(Obj(f[key := Null]), opts) == DecodeMessage(Obj(f - {key}), opts)
  {
    hide DecodeMessage;
    var g, h := f[key := Null], f - {key};
    forall k ensures Raw(g, k) == Raw(h, k) && StringField(g, k) == StringField(h, k) {
    }
    SameReading(g, h, opts);
  }

  /** Documents that agree on what is read of them decode alike. */
  lemma SameReading(g: map<string, Value>, h: map<string, Value>, opts: Options)
    requires "id" in g <==> "id" in h
    requires "id" in g ==> g["id"] == h["id"]
    requires forall k :: Raw(g, k) == Raw(h, k) && StringField(g, k) == StringField(h, k)
    ensures DecodeMessage(Obj(g), opts) == DecodeMessage(Obj(h), opts)
  {
    hide DecodeError, DecodeParams, DecodeId, StringField;
    assert Raw(g, "params") == Raw(h, "params") && Raw(g, "error") == Raw(h, "error") && Raw(g, "result") == Raw(h, "result");
    assert Raw(g, "params").Some? ==> g["params"] == h["params"];
    hide Raw;
  }

  /** Exactly which documents decode: the id, the method and the trace have the types that they
      should have, and there is an error body with an id and no result, or a result, or a
      method with parameters, or nothing but an id. */
  lemma DocumentDecodes(f: map<string, Value>, opts: Options)
    ensures DecodeMessage(Obj(f), opts).Decoded? <==>
      && ("id" in f ==> f["id"].Null? || f["id"].Str? || Int64Digits(f["id"]))
      && ("method" in f ==> f["method"].Null? || f["method"].Str?)
      && ("traceid" in f ==> f["traceid"].Null? || f["traceid"].Str?)
      && var hasError, hasResult := "error" in f && f["error"] != Null, "result" in f && f["result"] != Null;
         var hasMethod := "method" in f && f["method"].Str? && f["method"].s != "";
         var refusedId := opts.idNotNull && "id" in f && f["id"] == Null;
         if hasError then !hasResult && "id" in f && DecodeError(f["error"]).Some?
         else if hasResult then !refusedId
         else if hasMethod then "params" in f && f["params"] != Null && !refusedId
         else "id" in f
  {
    hide DecodeError, DecodeParams;
  }

  /** A number that is written as plain digits and fits 64 bits. */
  predicate Int64Digits(v: Value) {
    v.Number? && v.lit.Digits? && -9223372036854775808 <= v.lit.n <= 9223372036854775807
  }

  /** How an error body is read: a code and a message that are missing or null are 0 and empty. */
  lemma ErrorBodyReads(v: Value, e: RPCError)
    ensures DecodeError(v) == Some(e) <==>
      && v.Obj?
      && (if "code" in v.fields && v.fields["code"] != Null then v.fields["code"] == Number(Digits(e.code)) else e.code == 0)
      && (if "message" in v.fields && v.fields["message"] != Null then v.fields["message"] == Str(e.message) else e.message == "")
      && e.data == if "data" in v.fields then v.fields["data"] else Null
  {
  }

  /** What is neither a table nor null is no message, and neither is null. */
  lemma OnlyTablesDecode(doc: Value, opts: Options)
    ensures DecodeMessage(doc, opts).Decoded? ==> doc.Obj?
  {
  }

  lemma NullIdIsAnId(f: map<string, Value>)
    requires DecodeMessage(Obj(f - {"id"}), DEFAULT).Decoded?
    ensures var m, n := DecodeMessage(Obj(f - {"id"}), DEFAULT).msg, DecodeMessage(Obj(f["id" := Null]), DEFAULT);
      n == Decoded(if m.Notify? then Request(Null, m.methodName, m.params, m.paramsAreList, m.traceId) else m)
  {
    hide DecodeError, DecodeParams;
    var g, h := f["id" := Null], f - {"id"};
    forall k | k != "id" ensures Raw(g, k) == Raw(h, k) && StringField(g, k) == StringField(h, k) {
    }
  }

  /** A decoded message says what the document says, and nothing else: its own document has
      the fields of the first, null results aside; a document with both a result and an error
      does not decode; and an id makes the difference between a request and a notification. */
  lemma DecodedReadsDocument(doc: Value, opts: Options)
    requires IsJson(doc) && DecodeMessage(doc, opts).Decoded?
    ensures Encode(DecodeMessage(doc, opts).msg).Obj?
    ensures var m, f := DecodeMessage(doc, opts).msg, doc.fields; var g := Encode(m).fields;
      && (Raw(f, "error") == None || Raw(f, "result") == None)
      && (m.Error? <==> Raw(f, "error").Some?)
      && (IsResponse(m) ==> f["method"] == g["method"] && f["params"] == g["params"])
      && (IsResponse(m) ==> (m.Request? <==> "id" in f))
      && (HasId(m) ==> g["id"] == (if "id" in f then f["id"] else Null))
      && (m.Result? ==> g["result"] == (if "result" in f then f["result"] else Null))
      && ("traceid" in g ==> "traceid" in f && f["traceid"] == g["traceid"])
  {
    DecodedIsReceived(doc, opts);
    var m := DecodeMessage(doc, opts).msg;
    EncodedFields(m);
    DecodedParts(doc, opts);
    hide Encode, DecodeMessage, IsJson, WireSafe, Received;
    if HasId(m) {
      IdOnWire(m.id);
    }
  }

  lemma DecodedParts(doc: Value, opts: Options)
    requires IsJson(doc) && DecodeMessage(doc, opts).Decoded?
    ensures var m, f := DecodeMessage(doc, opts).msg, doc.fields;
      && (Raw(f, "error") == None || Raw(f, "result") == None)
      && (m.Error? <==> Raw(f, "error").Some?)
      && (IsResponse(m) ==> "method" in f && f["method"] == Str(m.methodName))
      && (IsResponse(m) ==> "params" in f && Reread(ParamsField(m.params, m.paramsAreList)) == f["params"])
      && (IsResponse(m) ==> (m.Request? <==> "id" in f))
      && (HasId(m) ==> Reread(m.id) == if "id" in f then f["id"] else Null)
      && (m.Result? ==> Reread(m.result) == if "result" in f then f["result"] else Null)
      && (m.traceId != "" ==> "traceid" in f && f["traceid"] == Str(m.traceId))
  {
    var f := doc.fields;
    FieldsAreJson(f);
    forall k | k in f ensures Reread(f[k]) == f[k] { RereadIsJson(f[k]); }
    IdReread(f);
    hide Reread, IsJson, DecodeError;
  }

  lemma IdReread(f: map<string, Value>)
    ensures Reread(Null) == Null
    ensures "id" in f && DecodeId(f["id"]).Some? ==> Reread(DecodeId(f["id"]).value) == f["id"]
  {
  }

  lemma DecodedIsReceived(doc: Value, opts: Options)
    requires IsJson(doc) && DecodeMessage(doc, opts).Decoded?
    ensures var m := DecodeMessage(doc, opts).msg; Received(m) == m && WireSafe(m)
  {
    hide Reread, RereadAll, IsJson, DecodeError;
    var m, f := DecodeMessage(doc, opts).msg, doc.fields;
    FieldsAreJson(f);
    match m {
      case Result(_, result, _) => NullIsJson(); RereadIsJson(result);
      case Error(_, error, _) =>
        NullIsJson();
        ErrorBodyIsJson(f["error"]);
        RereadIsJson(error.value.data);
      case _ =>
        ParamsAreJson(f["params"]);
        RereadAllIsJson(m.params);
    }
  }

  lemma FieldsAreJson(f: map<string, Value>)
    ensures IsJson(Obj(f)) ==> forall k | k in f :: IsJson(f[k])
  {
  }

  lemma NullIsJson()
    ensures IsJson(Null)
  {
  }

  lemma ErrorBodyIsJson(v: Value)
    requires IsJson(v) && DecodeError(v).Some?
    ensures IsJson(DecodeError(v).value.data)
  {
  }

  lemma ParamsAreJson(v: Value)
    requires IsJson(v)
    ensures IsJson(List(DecodeParams(v).0)) && !v.Maps? && !v.Strs?
  {
  }

  /** A request or a notification as its constructor makes it carries what the caller gave,
      null aside, and is safe unless its id is not or what the caller gave is a Go list of
      tables or of strings. */
  lemma ConstructedIsSafe(id: Value, name: string, params: Value)
    requires name != ""
    ensures var req, ntf := NewRequestMessage(id, name, params), NewNotifyMessage(name, params);
      && MessageMap(req)["params"] == MessageMap(ntf)["params"] == (if params == Null then List([]) else params)
      && (WireSafe(req) <==> WireId(id) && !params.Maps? && !params.Strs?)
      && (WireSafe(ntf) <==> !params.Maps? && !params.Strs?)
  {
  }

  /** A by-name request that has been cloned reaches the server as a list of one. */
  lemma CloneArrivesAsList(m: Message, id: Value)
    requires m.Request? && m.methodName != "" && WireId(id)
    ensures DecodeMessage(Encode(Clone(m, id)), DEFAULT)
      == Decoded(Request(id, m.methodName, RereadAll(m.params), true, m.traceId))
  {
    RoundTrip(Clone(m, id), DEFAULT);
  }

  /** An error message without an error is read as a null result. */
  lemma NilErrorArrivesAsResult(id: Value, traceId: string)
    requires WireId(id)
    ensures DecodeMessage(Encode(Error(id, None, traceId)), DEFAULT) == Decoded(Result(id, Null, traceId))
  {
    EncodedFields(Error(id, None, traceId));
    IdOnWire(id);
  }
}
