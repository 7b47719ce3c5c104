/**
  `MCPTestClient`, the stub the integration tests talk to: it answers every known
  query type with a canned success and any other type with "not implemented".
 */
module TestClient {
  import opened Wrappers
  import opened Family
  import Messages

  /** The shared `QueryMessage` model; `payload` is an arbitrary object, shown as JSON. */
  datatype QueryMessage = QueryMessage(
    queryType: Option<string>,
    payload: Option<Messages.Json>,
    requestId: string,
    sender: Option<string>,
    timestamp: Timestamp)

  /** A `RevitParameterInfo`. */
  datatype ParameterInfo = ParameterInfo(
    name: string,
    value: Option<Value>,
    paramType: string,
    unit: Option<string>,
    description: Option<string>)

  /** A `RevitElementInfo` as the stub fills it in: id, name, category and parameter list. */
  datatype ElementInfo = ElementInfo(id: string, name: string, category: string, parameters: seq<ParameterInfo>)

  /** The objects the stub puts in a response's `Data`. */
  datatype Data =
    | ElementList(elements: seq<ElementInfo>)
    | Element(element: ElementInfo)
    | FamilyData(family: FamilyMetadata)

  /** The shared `ResponseMessage` model. */
  datatype ResponseMessage = ResponseMessage(
    success: bool,
    message: string,
    data: Option<Data>,
    errorCode: Option<string>,
    details: Option<string>)

  const SimulatedSuccess := "模拟成功"
  const UnknownCommand := "未知命令"
  const NotImplemented := "NOT_IMPLEMENTED"

  /** The query types the stub recognises, compared exactly. */
  predicate IsKnownQueryType(t: Option<string>) {
    t == Some("GetElementsByCategory") || t == Some("GetElementById") || t == Some("ModifyElementParameter")
    || t == Some("AddFamily") || t == Some("GetFamilyById")
  }

  /** The one wall parameter of the canned elements. */
  const Height := ParameterInfo("Height", Some(IntValue(4000)), "double", None, None)

  /** The canned family of `GetFamilyById`; its last-modified time is the clock's current value. */
  function TestFamily(now: Timestamp): FamilyMetadata {
    FamilyMetadata("fam-001", "TestFamily", "Doors", Some([]), Some([]), None, None, None, now)
  }

  /** The elements in a response's data (none for a family or no data). */
  function Elements(d: Option<Data>): seq<ElementInfo> {
    match d
    case Some(ElementList(es)) => es
    case Some(Element(e)) => [e]
    case _ => []
  }

  /** Every canned element is a wall carrying its height parameter. */
  predicate AllWallsWithHeight(d: Option<Data>) {
    forall e :: e in Elements(d) ==> e.category == "Walls" && Height in e.parameters
  }

  /**
    `SendQueryAsync`: a success with the simulated-success message exactly for the
    five known query types, carrying data only for the three reading ones; otherwise
    a failure with the unknown-command message and the "NOT_IMPLEMENTED" error code.
    The clock (`DateTime.Now`) is a parameter.
   */
  function SendQuery(query: QueryMessage, now: Timestamp): (r: ResponseMessage)
    ensures r.success <==> IsKnownQueryType(query.queryType)
    ensures r.success ==> r.message == SimulatedSuccess && r.errorCode.None?
    ensures !r.success ==> r.message == UnknownCommand && r.errorCode == Some(NotImplemented) && r.data.None?
    ensures r.details.None?
    ensures r.data.Some? <==>
      query.queryType == Some("GetElementsByCategory") || query.queryType == Some("GetElementById")
      || query.queryType == Some("GetFamilyById")
    ensures query.queryType == Some("GetElementsByCategory") ==> r.data.value.ElementList? && |r.data.value.elements| == 1
    ensures query.queryType == Some("GetElementById") ==> r.data.value.Element?
    ensures query.queryType == Some("GetFamilyById") ==> r.data == Some(FamilyData(TestFamily(now)))
    ensures AllWallsWithHeight(r.data)
  {
    if query.queryType == Some("GetElementsByCategory") then
      Success(Some(ElementList([ElementInfo("wall-001", "墙1", "Walls", [Height])])))
    else if query.queryType == Some("GetElementById") then
      Success(Some(Element(ElementInfo("test-wall-001", "测试墙", "Walls", [Height]))))
    else if query.queryType == Some("ModifyElementParameter") || query.queryType == Some("AddFamily") then
      Success(None)
    else if query.queryType == Some("GetFamilyById") then
      Success(Some(FamilyData(TestFamily(now))))
    else
      ResponseMessage(false, UnknownCommand, None, Some(NotImplemented), None)
  }

  function Success(data: Option<Data>): ResponseMessage {
    ResponseMessage(true, SimulatedSuccess, data, None, None)
  }

  /**
    The answer depends on the query's type alone (and on the clock only for
    `GetFamilyById`): payload, request id, sender and timestamp are ignored.
   */
  lemma AnswerDependsOnlyOnType(q1: QueryMessage, q2: QueryMessage, t1: Timestamp, t2: Timestamp)
    requires q1.queryType == q2.queryType
    ensures q1.queryType != Some("GetFamilyById") ==> SendQuery(q1, t1) == SendQuery(q2, t2)
    ensures SendQuery(q1, t1) == SendQuery(q2, t1)
  {
  }
}
