/** The four kinds of JSON-RPC message, their constructors, and their templates. */
module Messages {
  import opened Values

  datatype RPCError = RPCError(code: Int64, message: string, data: Value)

  /** `error` is `None` for Go's nil pointer. */
  datatype Message =
    | Request(id: Value, methodName: string, params: seq<Value>, paramsAreList: bool, traceId: string)
    | Notify(methodName: string, params: seq<Value>, paramsAreList: bool, traceId: string)
    | Result(id: Value, result: Value, traceId: string)
    | Error(id: Value, error: Option<RPCError>, traceId: string)

  const ErrMethodNotFound := RPCError(-32601, "method not found", Null)
  const ErrInternalError := RPCError(-32603, "internal error", Null)
  const ErrTimeout := RPCError(200, "request timeout", Null)

  predicate IsResultOrError(m: Message) {
    m.Result? || m.Error?
  }

  /** The source calls a request or a notification a response. */
  predicate IsResponse(m: Message) {
    m.Request? || m.Notify?
  }

  predicate HasId(m: Message) {
    !m.Notify?
  }

  /** The parameter list that `NewRequestMessage` and `NewNotifyMessage` make of their
      argument, and whether the caller gave a list. */
  function ParamsFrom(params: Value): (seq<Value>, bool) {
    match params
    case Null => ([], true)
    case List(vs) => (vs, true)
    case _ => ([params], false)
  }

  /** An empty method panics. */
  function NewRequestMessage(id: Value, methodName: string, params: Value): Message
    requires methodName != ""
  {
    Request(id, methodName, ParamsFrom(params).0, ParamsFrom(params).1, "")
  }

  function NewNotifyMessage(methodName: string, params: Value): Message
    requires methodName != ""
  {
    Notify(methodName, ParamsFrom(params).0, ParamsFrom(params).1, "")
  }

  function SetTraceId(m: Message, traceId: string): Message {
    match m
    case Request(id, methodName, params, areList, _) => Request(id, methodName, params, areList, traceId)
    case Notify(methodName, params, areList, _) => Notify(methodName, params, areList, traceId)
    case Result(id, result, _) => Result(id, result, traceId)
    case Error(id, error, _) => Error(id, error, traceId)
  }

  /** `Clone` goes through the constructor, which takes the parameters for a list. */
  function Clone(m: Message, newId: Value): Message
    requires m.Request? && m.methodName != ""
  {
    SetTraceId(NewRequestMessage(newId, m.methodName, List(m.params)), m.traceId)
  }

  /** A notification panics. */
  function ReplaceId(m: Message, newId: Value): Message
    requires HasId(m) && (m.Request? ==> m.methodName != "")
  {
    match m
    case Request(_, _, _, _, _) => Clone(m, newId)
    case Result(_, result, traceId) => Result(newId, result, traceId)
    case Error(_, error, traceId) => Error(newId, error, traceId)
  }

  function NewResultMessage(req: Message, result: Value): Message
    requires HasId(req)
  {
    Result(req.id, result, req.traceId)
  }

  /** `RPCError.ToMessage`. */
  function ToMessage(e: RPCError, req: Message): Message
    requires HasId(req)
  {
    Error(req.id, Some(e), req.traceId)
  }

  // ---- templates ------------------------------------------------------------------------

  /** What the template writes for the parameters. */
  function ParamsField(params: seq<Value>, areList: bool): Value {
    if areList || |params| == 0 then List(params) else params[0]
  }

  function TraceField(traceId: string): map<string, Value> {
    if traceId == "" then map[] else map["traceid" := Str(traceId)]
  }

  function ErrorField(error: Option<RPCError>): Value {
    match error
    case None => Null
    case Some(e) =>
      Obj(map["code" := Int(e.code), "message" := Str(e.message)]
          + if e.data == Null then map[] else map["data" := e.data])
  }

  /** The template of a message as a table, which is also what `MessageMap` gives. */
  function MessageMap(m: Message): map<string, Value> {
    map["jsonrpc" := Str("2.0")] + TraceField(m.traceId) + OwnFields(m)
  }

  /** The fields that depend on the kind of message. */
  function OwnFields(m: Message): map<string, Value> {
    match m
    case Request(id, methodName, params, areList, _) =>
      map["method" := Str(methodName), "id" := id, "params" := ParamsField(params, areList)]
    case Notify(methodName, params, areList, _) =>
      map["method" := Str(methodName), "params" := ParamsField(params, areList)]
    case Result(id, result, _) => map["id" := id, "result" := result]
    case Error(id, error, _) => map["id" := id, "error" := ErrorField(error)]
  }

  // ---- messages read back -----------------------------------------------------------------

  /** The same message with its values as they come back from text. */
  function Received(m: Message): Message {
    match m
    case Request(id, methodName, params, areList, t) => Request(id, methodName, RereadAll(params), areList, t)
    case Notify(methodName, params, areList, t) => Notify(methodName, RereadAll(params), areList, t)
    case Result(id, result, t) => Result(id, Reread(result), t)
    case Error(id, error, t) =>
      Error(id, if error.Some? then Some(error.value.(data := Reread(error.value.data))) else None, t)
  }

  /** A response that has had its id replaced gets its own id back. */
  lemma ReplacedIdComesBack(m: Message, id: Value)
    requires IsResultOrError(m)
    ensures ReplaceId(ReplaceId(m, id), m.id) == m
    ensures var r := ReplaceId(m, id);
      && r.id == id && r.traceId == m.traceId && (r.Result? <==> m.Result?)
      && (m.Result? ==> r.result == m.result) && (m.Error? ==> r.error == m.error)
  {
  }

  /** Constructors keep what they are given; a response is to the request that it is made for. */
  lemma ConstructorsKeep(id: Value, name: string, params: Value, m: Message, v: Value, e: RPCError)
    requires name != "" && HasId(m)
    ensures var req, ntf := NewRequestMessage(id, name, params), NewNotifyMessage(name, params);
      && req.Request? && req.id == id && req.methodName == name && req.traceId == ""
      && ntf.Notify? && ntf.methodName == name && ntf.traceId == ""
      && req.params == ntf.params && req.paramsAreList == ntf.paramsAreList
      && (req.paramsAreList <==> params == Null || params.List?)
      && req.params == (if params == Null then [] else if params.List? then params.items else [params])
    ensures NewResultMessage(m, v) == Result(m.id, v, m.traceId) && ToMessage(e, m) == Error(m.id, Some(e), m.traceId)
    ensures ErrMethodNotFound == RPCError(-32601, "method not found", Null)
    ensures ErrInternalError == RPCError(-32603, "internal error", Null)
    ensures ErrTimeout == RPCError(200, "request timeout", Null)
  {
  }

  /** A clone is the request under the new id, with its parameters in a list. */
  lemma CloneKeeps(m: Message, id: Value, traceId: string)
    requires m.Request? && m.methodName != ""
    ensures Clone(m, id) == Request(id, m.methodName, m.params, true, m.traceId)
    ensures SetTraceId(m, traceId) == Request(m.id, m.methodName, m.params, m.paramsAreList, traceId)
  {
  }
}
