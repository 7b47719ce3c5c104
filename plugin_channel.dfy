/**
  The plugin side of the channel: each query is written to the server's standard
  input as one line, then one line is read back from its standard output.
 */
module PluginChannel {
  import opened Wrappers
  import opened Text
  import opened Messages
  import ServerChannel

  /** `JsonSerializer.Deserialize` threw on the reply line. */
  datatype JsonError = JsonException

  /** `ReadLineAsync` on the server's output: the next line, or null at the end of the stream. */
  function NextLine(pending: seq<string>): Option<string> {
    if pending == [] then None else Some(pending[0])
  }

  /** The unread lines after one `ReadLineAsync`. */
  function AfterRead(pending: seq<string>): (rest: seq<string>)
    ensures pending != [] ==> pending == [pending[0]] + rest
    ensures pending == [] ==> rest == []
  {
    if pending == [] then [] else pending[1..]
  }

  /**
    What `SendQueryAsync` returns for the reply line it read: null for a null or
    blank line or the JSON literal `null`, the decoded response otherwise, and an
    exception when the line cannot be decoded. The query sent plays no part: the
    reply's request id is never compared with it.
   */
  function ReadReply(codec: Codec, line: Option<string>): (r: Result<Option<ResponseMessage>, JsonError>)
    ensures IsNullOrWhiteSpace(line) ==> r == Ok(None)
    ensures !IsNullOrWhiteSpace(line) ==>
      (r.Err? <==> codec.decodeResponse(line.value).Malformed?)
      && (r == Ok(None) <==> codec.decodeResponse(line.value).NullLiteral?)
      && (codec.decodeResponse(line.value).Decoded? ==> r == Ok(Some(codec.decodeResponse(line.value).value)))
  {
    if IsNullOrWhiteSpace(line) then Ok(None)
    else match codec.decodeResponse(line.value)
      case Decoded(response) => Ok(Some(response))
      case NullLiteral => Ok(None)
      case Malformed => Err(JsonException)
  }

  /** The plugin's end of the channel to a running server process. */
  class ClientChannel {
    const codec: Codec
    var sent: seq<string>      // lines written to the server's standard input
    var pending: seq<string>   // lines on the server's standard output not yet read

    constructor(codec: Codec, pending: seq<string>)
      ensures this.codec == codec && this.pending == pending && sent == []
    {
      this.codec := codec;
      this.pending := pending;
      sent := [];
    }

    /**
      `SendQueryAsync`: writes exactly one line, the serialised query, then consumes
      exactly one line of the server's output and interprets it.
     */
    method SendQuery(query: QueryMessage) returns (r: Result<Option<ResponseMessage>, JsonError>)
      modifies this
      ensures sent == old(sent) + [codec.encodeQuery(query)]
      ensures pending == AfterRead(old(pending))
      ensures r == ReadReply(codec, NextLine(old(pending)))
    {
      var json := codec.encodeQuery(query);
      sent := sent + [json];
      var responseLine: Option<string> := None;
      if pending != [] {
        responseLine := Some(pending[0]);
        pending := pending[1..];
      }
      if IsNullOrWhiteSpace(responseLine) {
        return Ok(None);
      }
      var response := codec.decodeResponse(responseLine.value);
      if response.Malformed? {
        return Err(JsonException);
      }
      if response.NullLiteral? {
        return Ok(None);
      }
      r := Ok(Some(response.value));
    }
  }

  /** The codec carries this query and its answer over one line each, both ways. */
  predicate CarriesExchange(codec: Codec, query: QueryMessage) {
    var response := ServerChannel.HandleQuery(query);
    codec.decodeQuery(codec.encodeQuery(query)) == Decoded(query)
    && !AllWhiteSpace(codec.encodeQuery(query))
    && codec.decodeResponse(codec.encodeResponse(response)) == Decoded(response)
    && !AllWhiteSpace(codec.encodeResponse(response))
  }

  /**
    End to end: the line the plugin writes for a query is answered by the server's
    loop with exactly one line, and reading that line back gives the server's
    response to the query, which echoes its request id.
   */
  lemma Exchange(codec: Codec, query: QueryMessage)
    requires CarriesExchange(codec, query)
    ensures ServerChannel.Replies(codec, [codec.encodeQuery(query)]) == [ServerChannel.Reply(codec, query)]
    ensures ReadReply(codec, NextLine(ServerChannel.Replies(codec, [codec.encodeQuery(query)])))
      == Ok(Some(ServerChannel.HandleQuery(query)))
    ensures ServerChannel.HandleQuery(query).requestId == query.requestId
  {
    var line := codec.encodeQuery(query);
    assert !ServerChannel.Faulty(codec, line) && !ServerChannel.Skipped(codec, line);
    assert ServerChannel.Accepted(codec, [line]) == [query] by {
      assert [line][1..] == [];
    }
  }

  /** The server answers the text "Ping" with success and "Pong". */
  lemma PingAnswered(query: QueryMessage)
    requires query.queryText == Some("Ping")
    ensures ServerChannel.HandleQuery(query).success
    ensures ServerChannel.HandleQuery(query).message == ServerChannel.PongMessage
  {
    assert "" + "Ping" + "" == "Ping";
    assert Fold("Ping") == "ping";
    ServerChannel.PingPadded(query, "", "Ping", "");
  }

  /** A query whose text is "Ping" gets back, through both ends of the channel, success with "Pong". */
  lemma PingPong(codec: Codec, query: QueryMessage)
    requires CarriesExchange(codec, query)
    requires query.queryText == Some("Ping")
    ensures
      var r := ReadReply(codec, NextLine(ServerChannel.Replies(codec, [codec.encodeQuery(query)])));
      r.Ok? && r.value.Some? && r.value.value.success && r.value.value.message == ServerChannel.PongMessage
      && r.value.value.requestId == query.requestId
  {
    Exchange(codec, query);
    PingAnswered(query);
  }
}
