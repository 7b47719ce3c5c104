/**
  `MCPToolHandler`: routes an MCP request by method name to one of three handlers,
  puts the handler's value in the response's result, and turns an unknown method
  into a 404 error and any exception into a 500 error.
 */
module ToolHandler {
  import opened Wrappers
  import opened Messages

  /** The Int32 range of `TryGetInt32` / `GetInt32`. */
  const Int32Min: int := -0x8000_0000
  const Int32Max: int := 0x7FFF_FFFF

  predicate InInt32(i: int) {
    Int32Min <= i <= Int32Max
  }

  /** The exceptions the handlers can raise while reading their parameters, and those of the tool service. */
  datatype Failure =
    | NullReference            // unboxing absent parameters
    | InvalidOperation         // a `JsonElement` of the wrong kind
    | KeyNotFound              // `GetProperty` of a missing name
    | Format                   // `GetInt32` of a number outside Int32
    | Thrown(message: string)  // an exception of the tool service, with its message

  /** A parameter value after the kind conversion of `HandleModifyElementParameterAsync`. */
  datatype Arg =
    | IntArg(i: int)
    | DoubleArg(n: Number)
    | StringArg(s: string)
    | BoolArg(b: bool)
    | RawArg(raw: Json)  // carried as `GetRawText()` of this element

  /** The value kinds of `parameterValue`: an Int32 number, another number, a string, a boolean, or raw JSON text. */
  function ConvertParameterValue(v: Json): (a: Arg)
    ensures a.IntArg? <==> v.JNumber? && v.n.IntegerLiteral? && InInt32(v.n.i)
    ensures a.DoubleArg? <==> v.JNumber? && !(v.n.IntegerLiteral? && InInt32(v.n.i))
    ensures a.StringArg? <==> v.JString?
    ensures a.BoolArg? <==> v.JBool?
    ensures a.RawArg? <==> v.JNull? || v.JArray? || v.JObject?
  {
    match v
    case JNumber(n) => if n.IntegerLiteral? && InInt32(n.i) then IntArg(n.i) else DoubleArg(n)
    case JString(s) => StringArg(s)
    case JBool(b) => BoolArg(b)
    case _ => RawArg(v)
  }

  /** The JSON value an argument stands for. */
  function ArgToJson(a: Arg): Json {
    match a
    case IntArg(i) => JNumber(IntegerLiteral(i))
    case DoubleArg(n) => JNumber(n)
    case StringArg(s) => JString(s)
    case BoolArg(b) => JBool(b)
    case RawArg(raw) => raw
  }

  /** The conversion loses nothing: the argument stands for exactly the JSON value it came from. */
  lemma ConvertParameterValueRoundTrip(v: Json)
    ensures ArgToJson(ConvertParameterValue(v)) == v
  {
  }

  /** `JsonElement.GetProperty`: the value of the last member with that name. */
  function GetProperty(element: Json, name: string): (r: Result<Json, Failure>)
    ensures !element.JObject? ==> r == Err(InvalidOperation)
    ensures element.JObject? ==>
      (r.Ok? <==> exists i :: 0 <= i < |element.members| && element.members[i].0 == name)
    ensures r.Ok? ==> exists i :: 0 <= i < |element.members| && element.members[i] == (name, r.value)
    ensures r.Err? && element.JObject? ==> r.error == KeyNotFound
  {
    if !element.JObject? then Err(InvalidOperation)
    else LastMember(element.members, name)
  }

  function LastMember(members: seq<(string, Json)>, name: string): (r: Result<Json, Failure>)
    ensures r.Ok? <==> exists i :: 0 <= i < |members| && members[i].0 == name
    ensures r.Ok? ==> exists i :: 0 <= i < |members| && members[i] == (name, r.value)
    ensures r.Err? ==> r.error == KeyNotFound
    decreases |members|
  {
    if members == [] then Err(KeyNotFound)
    else
      var last := members[|members| - 1];
      if last.0 == name then Ok(last.1)
      else
        var r := LastMember(members[..|members| - 1], name);
        assert forall i :: 0 <= i < |members| - 1 ==> members[..|members| - 1][i] == members[i];
        r
  }

  /** `JsonElement.GetInt32`: an integer literal in Int32; another number is a format error, any other kind an invalid operation. */
  function GetInt32(element: Json): (r: Result<int, Failure>)
    ensures r.Ok? <==> element.JNumber? && element.n.IntegerLiteral? && InInt32(element.n.i)
    ensures r.Ok? ==> r.value == element.n.i && InInt32(r.value)
    ensures r.Err? ==> r.error == (if element.JNumber? then Format else InvalidOperation)
  {
    match element
    case JNumber(n) => if n.IntegerLiteral? && InInt32(n.i) then Ok(n.i) else Err(Format)
    case _ => Err(InvalidOperation)
  }

  /** `JsonElement.GetString`: a string, null for a JSON null, an invalid operation otherwise. */
  function GetString(element: Json): (r: Result<Option<string>, Failure>)
    ensures r.Ok? <==> element.JString? || element.JNull?
    ensures r == Ok(None) <==> element.JNull?
    ensures element.JString? ==> r == Ok(Some(element.s))
  {
    match element
    case JString(s) => Ok(Some(s))
    case JNull => Ok(None)
    case _ => Err(InvalidOperation)
  }

  /** What a call into the tool service does: returns a value, or throws with a message. */
  datatype Outcome = Returned(value: Json) | Threw(message: string)

  /**
    The tool service the handlers call (its answers are canned data and are not part
    of this model), together with the runtime's message text for the parameter-reading
    exceptions.
   */
  datatype ToolService = ToolService(
    getElement: int -> Outcome,
    getElementsByCategory: Option<string> -> Outcome,
    modifyElementParameter: (int, Option<string>, Arg) -> Outcome,
    exceptionMessage: Failure -> string)

  function FromOutcome(o: Outcome): Result<Json, Failure> {
    match o
    case Returned(v) => Ok(v)
    case Threw(m) => Err(Thrown(m))
  }

  /** The value of the last member named `name` of the parameter object, when there is one. */
  function Member(parameters: Option<Json>, name: string): Option<Json> {
    if parameters.Some? && GetProperty(parameters.value, name).Ok? then Some(GetProperty(parameters.value, name).value) else None
  }

  /** The member is present and `GetInt32` reads it. */
  predicate ReadsInt32(parameters: Option<Json>, name: string) {
    Member(parameters, name).Some? && GetInt32(Member(parameters, name).value).Ok?
  }

  /** The member is present and `GetString` reads it (a string or null). */
  predicate ReadsString(parameters: Option<Json>, name: string) {
    Member(parameters, name).Some? && GetString(Member(parameters, name).value).Ok?
  }

  /**
    `HandleGetElementAsync`: reads `elementId` as an Int32 and calls the service.
    The service is reached exactly when the id is present and is an Int32, and then
    the answer is the service's.
   */
  function HandleGetElement(service: ToolService, parameters: Option<Json>): (r: Result<Json, Failure>)
    ensures parameters.None? ==> r == Err(NullReference)
    ensures (r.Ok? || r.error.Thrown?) <==> ReadsInt32(parameters, "elementId")
    ensures r.Ok? || r.error.Thrown? ==>
      r == FromOutcome(service.getElement(GetInt32(Member(parameters, "elementId").value).value))
  {
    if parameters.None? then Err(NullReference)
    else
      var id := GetProperty(parameters.value, "elementId");
      if id.Err? then Err(id.error)
      else
        var elementId := GetInt32(id.value);
        if elementId.Err? then Err(elementId.error)
        else FromOutcome(service.getElement(elementId.value))
  }

  /**
    `HandleGetElementsByCategoryAsync`: reads `category` as a string and calls the
    service. The service is reached exactly when the category is present and is a
    string or null, and it receives that string (or null).
   */
  function HandleGetElementsByCategory(service: ToolService, parameters: Option<Json>): (r: Result<Json, Failure>)
    ensures parameters.None? ==> r == Err(NullReference)
    ensures (r.Ok? || r.error.Thrown?) <==>
      Member(parameters, "category").Some? && (Member(parameters, "category").value.JString? || Member(parameters, "category").value.JNull?)
    ensures r.Ok? || r.error.Thrown? ==>
      r == FromOutcome(service.getElementsByCategory(GetString(Member(parameters, "category").value).value))
  {
    if parameters.None? then Err(NullReference)
    else
      var c := GetProperty(parameters.value, "category");
      if c.Err? then Err(c.error)
      else
        var category := GetString(c.value);
        if category.Err? then Err(category.error)
        else FromOutcome(service.getElementsByCategory(category.value))
  }

  /**
    `HandleModifyElementParameterAsync`: reads `elementId`, `parameterName` and
    `parameterValue` in that order, converts the value by its kind and calls the service.
    The service is reached exactly when all three are readable, and it receives the
    Int32 id, the name (or null) and the converted value.
   */
  function HandleModifyElementParameter(service: ToolService, parameters: Option<Json>): (r: Result<Json, Failure>)
    ensures parameters.None? ==> r == Err(NullReference)
    ensures (r.Ok? || r.error.Thrown?) <==>
      ReadsInt32(parameters, "elementId") && ReadsString(parameters, "parameterName")
      && Member(parameters, "parameterValue").Some?
    ensures r.Ok? || r.error.Thrown? ==>
      r == FromOutcome(service.modifyElementParameter(
        GetInt32(Member(parameters, "elementId").value).value,
        GetString(Member(parameters, "parameterName").value).value,
        ConvertParameterValue(Member(parameters, "parameterValue").value)))
  {
    if parameters.None? then Err(NullReference)
    else
      var p := parameters.value;
      var id := GetProperty(p, "elementId");
      if id.Err? then Err(id.error)
      else
        var elementId := GetInt32(id.value);
        if elementId.Err? then Err(elementId.error)
        else
          var n := GetProperty(p, "parameterName");
          if n.Err? then Err(n.error)
          else
            var parameterName := GetString(n.value);
            if parameterName.Err? then Err(parameterName.error)
            else
              var v := GetProperty(p, "parameterValue");
              if v.Err? then Err(v.error)
              else FromOutcome(service.modifyElementParameter(elementId.value, parameterName.value, ConvertParameterValue(v.value)))
  }

  /**
    The parameters are read in order and the first failure is the one reported: a
    bad `elementId` is reported whatever the other members are, a bad
    `parameterName` whatever `parameterValue` is, and a missing `parameterValue`
    only once both are readable.
   */
  lemma ModifyElementParameterReadsInOrder(service: ToolService, p: Json)
    requires p.JObject?
    ensures Member(Some(p), "elementId").None? ==> HandleModifyElementParameter(service, Some(p)) == Err(KeyNotFound)
    ensures Member(Some(p), "elementId").Some? && GetInt32(Member(Some(p), "elementId").value).Err? ==>
      HandleModifyElementParameter(service, Some(p)) == Err(GetInt32(Member(Some(p), "elementId").value).error)
    ensures ReadsInt32(Some(p), "elementId") && Member(Some(p), "parameterName").None? ==>
      HandleModifyElementParameter(service, Some(p)) == Err(KeyNotFound)
    ensures ReadsInt32(Some(p), "elementId") && Member(Some(p), "parameterName").Some? && !ReadsString(Some(p), "parameterName") ==>
      HandleModifyElementParameter(service, Some(p)) == Err(InvalidOperation)
    ensures ReadsInt32(Some(p), "elementId") && ReadsString(Some(p), "parameterName") && Member(Some(p), "parameterValue").None? ==>
      HandleModifyElementParameter(service, Some(p)) == Err(KeyNotFound)
  {
  }

  /** An MCP request: a method name and its parameters, either of which may be null (the request type itself is not part of this model). */
  datatype MCPRequest = MCPRequest(methodName: Option<string>, params: Option<Json>)

  /** An MCP error: a code and a message. */
  datatype MCPError = MCPError(code: int, message: string)

  const UnknownMethodPrefix := "未知方法: "
  const InternalErrorPrefix := "处理请求时发生错误: "

  /** The three routed methods, compared exactly (ordinal, case-sensitive). */
  predicate IsKnownMethod(m: Option<string>) {
    m == Some("getElement") || m == Some("getElementsByCategory") || m == Some("modifyElementParameter")
  }

  /** The handler a known method routes to. */
  function Route(service: ToolService, request: MCPRequest): Result<Json, Failure>
    requires IsKnownMethod(request.methodName)
  {
    if request.methodName == Some("getElement") then HandleGetElement(service, request.params)
    else if request.methodName == Some("getElementsByCategory") then HandleGetElementsByCategory(service, request.params)
    else HandleModifyElementParameter(service, request.params)
  }

  /** The message of a caught exception. */
  function MessageOf(service: ToolService, f: Failure): string {
    if f.Thrown? then f.message else service.exceptionMessage(f)
  }

  /** The response object; result and error start out null. */
  class MCPResponse {
    var result: Option<Json>
    var error: Option<MCPError>

    constructor()
      ensures result.None? && error.None?
    {
      result := None;
      error := None;
    }
  }

  /**
    The response `HandleRequestAsync` builds, as (result, error): the handler's value
    for a known method, a 404 naming any other method (a null method prints as ""),
    a 500 carrying the exception's message when the handler throws or the request
    itself is null.
   */
  function Expected(service: ToolService, request: Option<MCPRequest>): (r: (Option<Json>, Option<MCPError>))
    ensures r.0.Some? != r.1.Some?
    ensures r.1.Some? ==> r.1.value.code == 404 || r.1.value.code == 500
    ensures r.1.Some? && r.1.value.code == 404 <==> request.Some? && !IsKnownMethod(request.value.methodName)
    ensures r.1.Some? && r.1.value.code == 404 ==> r.1.value.message == UnknownMethodPrefix + request.value.methodName.GetOr("")
    ensures r.0.Some? <==> request.Some? && IsKnownMethod(request.value.methodName) && Route(service, request.value).Ok?
    ensures r.0.Some? ==> r.0.value == Route(service, request.value).value
    ensures request.Some? && IsKnownMethod(request.value.methodName) && Route(service, request.value).Err? ==>
      r.1 == Some(MCPError(500, InternalErrorPrefix + MessageOf(service, Route(service, request.value).error)))
    ensures request.None? ==> r.1 == Some(MCPError(500, InternalErrorPrefix + service.exceptionMessage(NullReference)))
  {
    if request.None? then
      (None, Some(MCPError(500, InternalErrorPrefix + service.exceptionMessage(NullReference))))
    else if !IsKnownMethod(request.value.methodName) then
      (None, Some(MCPError(404, UnknownMethodPrefix + request.value.methodName.GetOr(""))))
    else match Route(service, request.value)
      case Ok(v) => (Some(v), None)
      case Err(f) => (None, Some(MCPError(500, InternalErrorPrefix + MessageOf(service, f))))
  }

  /** A method name differing from the three routed ones, even only in letter case, gets the 404 error naming it. */
  lemma UnknownMethodIs404(service: ToolService, m: string, params: Option<Json>)
    requires m != "getElement" && m != "getElementsByCategory" && m != "modifyElementParameter"
    ensures Expected(service, Some(MCPRequest(Some(m), params))) == (None, Some(MCPError(404, UnknownMethodPrefix + m)))
  {
  }

  /** `getElement` without parameters, or without an Int32 `elementId`, fails with a 500 and never reaches the service. */
  lemma GetElementNeedsInt32Id(service: ToolService, params: Option<Json>)
    requires params.None? || !params.value.JObject?
      || GetProperty(params.value, "elementId").Err?
      || GetInt32(GetProperty(params.value, "elementId").value).Err?
    ensures Expected(service, Some(MCPRequest(Some("getElement"), params))).1.Some?
    ensures Expected(service, Some(MCPRequest(Some("getElement"), params))).1.value.code == 500
  {
  }

  /** `MCPToolHandler` over a tool service. */
  class MCPToolHandler {
    const service: ToolService

    constructor(service: ToolService)
      ensures this.service == service
    {
      this.service := service;
    }

    /**
      `HandleRequestAsync`: always returns a new response; exactly one of its result
      and error is set, as `Expected` says. No exception escapes.
     */
    method HandleRequest(request: Option<MCPRequest>) returns (response: MCPResponse)
      ensures fresh(response)
      ensures (response.result, response.error) == Expected(service, request)
    {
      response := new MCPResponse();
      if request.None? {
        response.error := Some(MCPError(500, InternalErrorPrefix + service.exceptionMessage(NullReference)));
        return;
      }
      var handled: Result<Json, Failure>;
      if request.value.methodName == Some("getElement") {
        handled := HandleGetElement(service, request.value.params);
      } else if request.value.methodName == Some("getElementsByCategory") {
        handled := HandleGetElementsByCategory(service, request.value.params);
      } else if request.value.methodName == Some("modifyElementParameter") {
        handled := HandleModifyElementParameter(service, request.value.params);
      } else {
        response.error := Some(MCPError(404, UnknownMethodPrefix + request.value.methodName.GetOr("")));
        return;
      }
      match handled
      case Ok(v) =>
        response.result := Some(v);
      case Err(f) =>
        response.error := Some(MCPError(500, InternalErrorPrefix + MessageOf(service, f)));
    }
  }
}
