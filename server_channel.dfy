/**
  The server side of the standard-input/standard-output channel: a loop that reads
  query lines, answers each with one response line, and the ping handler.
 */
module ServerChannel {
  import opened Wrappers
  import opened Text
  import opened Sequences
  import opened Messages

  const PongMessage := "Pong"
  const UnknownCommandMessage := "未知命令"

  /**
    `HandleQuery`: success with "Pong" exactly when the query text, trimmed and
    lower-cased, is "ping", otherwise failure with the unknown-command message;
    always a response message echoing the request id and carrying no data.
   */
  function HandleQuery(query: QueryMessage): (r: ResponseMessage)
    ensures r.messageType == Some(MessageTypeResponse) && r.requestId == query.requestId && r.data.None?
    ensures r.success <==> query.queryText.Some? && Fold(Trim(query.queryText.value)) == "ping"
    ensures r.message == if r.success then PongMessage else UnknownCommandMessage
  {
    if query.queryText.Some? && Fold(Trim(query.queryText.value)) == "ping" then
      ResponseMessage(Some(MessageTypeResponse), query.requestId, true, PongMessage, None)
    else
      ResponseMessage(Some(MessageTypeResponse), query.requestId, false, UnknownCommandMessage, None)
  }

  /** "ping" in any letter case, with any white space around it, is answered with "Pong". */
  lemma PingPadded(query: QueryMessage, pre: string, word: string, post: string)
    requires AllWhiteSpace(pre) && AllWhiteSpace(post)
    requires Fold(word) == "ping"
    requires query.queryText == Some(pre + word + post)
    ensures HandleQuery(query).success && HandleQuery(query).message == PongMessage
  {
    assert Fold(word)[0] == 'p' && Fold(word)[3] == 'g';
    TrimPadded(pre, word, post);
  }

  /** A line that the loop skips: blank, or the JSON literal `null`. */
  predicate Skipped(codec: Codec, line: string) {
    AllWhiteSpace(line) || codec.decodeQuery(line).NullLiteral?
  }

  /** A line whose decoding throws, ending the loop. */
  predicate Faulty(codec: Codec, line: string) {
    !AllWhiteSpace(line) && codec.decodeQuery(line).Malformed?
  }

  /** A line that carries a query and is answered. */
  predicate Answered(codec: Codec, line: string) {
    !AllWhiteSpace(line) && codec.decodeQuery(line).Decoded?
  }

  predicate HasFault(codec: Codec, lines: seq<string>) {
    exists i :: 0 <= i < |lines| && Faulty(codec, lines[i])
  }

  /** The queries the loop answers, in input order, up to the first faulty line. */
  function Accepted(codec: Codec, lines: seq<string>): (qs: seq<QueryMessage>)
    ensures |qs| <= |lines|
    decreases |lines|
  {
    if lines == [] then []
    else if Faulty(codec, lines[0]) then []
    else if Skipped(codec, lines[0]) then Accepted(codec, lines[1..])
    else [codec.decodeQuery(lines[0]).value] + Accepted(codec, lines[1..])
  }

  /** The response line written for a query. */
  function Reply(codec: Codec, query: QueryMessage): string {
    codec.encodeResponse(HandleQuery(query))
  }

  /** The lines the loop writes for the given input: one reply per accepted query. */
  function Replies(codec: Codec, lines: seq<string>): (out: seq<string>)
    ensures |out| == |Accepted(codec, lines)|
  {
    var qs := Accepted(codec, lines);
    seq(|qs|, i requires 0 <= i < |qs| => Reply(codec, qs[i]))
  }

  /** A faulty first line: nothing is answered. */
  lemma RepliesFaulty(codec: Codec, lines: seq<string>)
    requires lines != [] && Faulty(codec, lines[0])
    ensures Replies(codec, lines) == []
  {
  }

  /** A skipped first line adds no reply. */
  lemma RepliesSkipped(codec: Codec, lines: seq<string>)
    requires lines != [] && !Faulty(codec, lines[0]) && Skipped(codec, lines[0])
    ensures Replies(codec, lines) == Replies(codec, lines[1..])
  {
  }

  /** A query line adds its reply in front of the rest. */
  lemma RepliesAnswered(codec: Codec, lines: seq<string>)
    requires lines != [] && Answered(codec, lines[0])
    ensures Replies(codec, lines) == [Reply(codec, codec.decodeQuery(lines[0]).value)] + Replies(codec, lines[1..])
  {
    var qs := Accepted(codec, lines);
    assert qs == [codec.decodeQuery(lines[0]).value] + Accepted(codec, lines[1..]);
    assert forall i :: 1 <= i < |qs| ==> qs[i] == Accepted(codec, lines[1..])[i - 1];
  }

  lemma HasFaultStep(codec: Codec, lines: seq<string>)
    requires lines != []
    ensures HasFault(codec, lines) <==> Faulty(codec, lines[0]) || HasFault(codec, lines[1..])
  {
    if HasFault(codec, lines) && !Faulty(codec, lines[0]) {
      var i :| 0 <= i < |lines| && Faulty(codec, lines[i]);
      assert lines[1..][i - 1] == lines[i];
    }
    if HasFault(codec, lines[1..]) {
      var i :| 0 <= i < |lines[1..]| && Faulty(codec, lines[1..][i]);
      assert lines[i + 1] == lines[1..][i];
    }
  }

  /**
    Without a faulty line, the answered queries are exactly the decoded query lines
    in input order: every other line is skipped and every query line is answered once.
   */
  lemma {:induction false} AcceptedWithoutFault(codec: Codec, lines: seq<string>)
    requires !HasFault(codec, lines)
    ensures |Accepted(codec, lines)| == |Filter(lines, (l: string) => Answered(codec, l))|
    ensures forall i :: 0 <= i < |Accepted(codec, lines)| ==>
      Accepted(codec, lines)[i] == codec.decodeQuery(Filter(lines, (l: string) => Answered(codec, l))[i]).value
    decreases |lines|
  {
    if lines != [] {
      HasFaultStep(codec, lines);
      AcceptedWithoutFault(codec, lines[1..]);
    }
  }

  /** Line i is the first line of `lines` whose decoding throws. */
  predicate FirstFaultAt(codec: Codec, lines: seq<string>, i: int) {
    0 <= i < |lines| && Faulty(codec, lines[i]) && !HasFault(codec, lines[..i])
  }

  /** A fault-free prefix stays fault-free when it grows by a line that is not faulty. */
  lemma NoFaultExtends(codec: Codec, lines: seq<string>, k: nat)
    requires k < |lines| && !HasFault(codec, lines[..k]) && !Faulty(codec, lines[k])
    ensures !HasFault(codec, lines[..k + 1])
  {
    assert lines[..k + 1] == lines[..k] + [lines[k]];
  }

  /** Nothing after a faulty line is answered: the loop has ended. */
  lemma {:induction false} FaultStopsListening(codec: Codec, before: seq<string>, bad: string, after: seq<string>)
    requires !HasFault(codec, before) && Faulty(codec, bad)
    ensures Accepted(codec, before + [bad] + after) == Accepted(codec, before)
    ensures HasFault(codec, before + [bad] + after)
    decreases |before|
  {
    var lines := before + [bad] + after;
    assert lines[|before|] == bad;
    if before != [] {
      HasFaultStep(codec, before);
      assert lines[1..] == before[1..] + [bad] + after;
      FaultStopsListening(codec, before[1..], bad, after);
    }
  }

  /** How the loop stops: the input ran out (the real loop then waits forever), or a line could not be decoded. */
  datatype ListenOutcome = InputExhausted | Faulted

  /** The server's channel: the lines still to be read from standard input and the lines written to standard output. */
  class ServerChannel {
    const codec: Codec
    var input: seq<string>
    var output: seq<string>

    constructor(codec: Codec, input: seq<string>)
      ensures this.codec == codec && this.input == input && output == []
    {
      this.codec := codec;
      this.input := input;
      output := [];
    }

    /**
      `ListenAsync`: reads every line; blank lines and `null` documents are skipped,
      each query is answered with one response line, and a line that cannot be
      decoded ends the loop with an exception.
     */
    method Listen() returns (outcome: ListenOutcome)
      modifies this
      ensures output == old(output) + Replies(codec, old(input))
      ensures outcome == Faulted <==> HasFault(codec, old(input))
      ensures outcome == InputExhausted ==> input == []
      ensures |input| <= |old(input)| && input == old(input)[|old(input)| - |input|..]
      ensures outcome == Faulted ==> FirstFaultAt(codec, old(input), |old(input)| - |input| - 1)
    {
      ghost var input0 := input;
      ghost var output0 := output;
      ghost var k := 0;
      while input != []
        invariant output0 + Replies(codec, input0) == output + Replies(codec, input)
        invariant HasFault(codec, input0) <==> HasFault(codec, input)
        invariant 0 <= k <= |input0| && input == input0[k..]
        invariant !HasFault(codec, input0[..k])
        decreases |input|
      {
        var line := input[0];
        HasFaultStep(codec, input);
        assert line == input0[k];
        if Faulty(codec, line) {
          RepliesFaulty(codec, input);
          input := input[1..];
          return Faulted;
        }
        NoFaultExtends(codec, input0, k);
        k := k + 1;
        if AllWhiteSpace(line) {
          RepliesSkipped(codec, input);
          input := input[1..];
          continue;
        }
        var query := codec.decodeQuery(line);
        if query.NullLiteral? {
          RepliesSkipped(codec, input);
          input := input[1..];
          continue;
        }
        RepliesAnswered(codec, input);
        var response := HandleQuery(query.value);
        ghost var rest := Replies(codec, input[1..]);
        assert output + ([codec.encodeResponse(response)] + rest) == (output + [codec.encodeResponse(response)]) + rest;
        output := output + [codec.encodeResponse(response)];
        input := input[1..];
      }
      return InputExhausted;
    }
  }
}
