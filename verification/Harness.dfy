/** The read loop of the harness (harness/src/index.ts, runHarness) and what happens to lines that come back. */
module Harness {
  import opened JsonRpc
  import opened Options
  import R = RpcClient

  /** A line after trimming. */
  datatype Raw = Blank | Text(line: Line)

  /** The answers written for a list of lines, none of which raises the shutdown flag in the middle. */
  function Answers(registry: map<string, Handler>, lines: seq<Raw>): seq<Json> {
    if lines == [] then []
    else Answers(registry, lines[..|lines| - 1]) + AnswerTo(registry, lines[|lines| - 1])
  }

  function AnswerTo(registry: map<string, Handler>, raw: Raw): seq<Json> {
    if raw.Blank? || LooksLikeResponse(raw.line) then []
    else
      match HandleLine(registry, raw.line)
      case None => []
      case Some(json) => [json]
  }

  /** The responses that reach the client for its own requests. */
  function Deliver(c: R.Client, lines: seq<Raw>): R.Client {
    if lines == [] then c else DeliverOne(Deliver(c, lines[..|lines| - 1]), lines[|lines| - 1])
  }

  function DeliverOne(c: R.Client, raw: Raw): R.Client {
    if raw.Text? && LooksLikeResponse(raw.line) && ParseResponse(raw.line).Answer?
    then R.AfterResponse(c, ParseResponse(raw.line).response)
    else c
  }

  /** A request or a notification whose method has a handler that raises the flag: `stops` says which handlers do. */
  predicate Raises(registry: map<string, Handler>, stops: string -> bool, raw: Raw) {
    raw.Text? && (IsRequest(raw.line) || IsNotification(raw.line)) &&
    var name := raw.line.json.fields["method"].s;
    name in registry && stops(name)
  }

  lemma RaisesAsParsed(registry: map<string, Handler>, stops: string -> bool, line: Line)
    ensures LooksLikeResponse(line) ==> !Raises(registry, stops, Text(line))
    ensures !LooksLikeResponse(line) ==>
      (Raises(registry, stops, Text(line)) <==>
        match ParseRequest(line)
        case Call(request) => request.name in registry && stops(request.name)
        case Notification(name, _) => name in registry && stops(name)
        case BadRequest(_, _, _) => false)
  {
    LinesGoWhereTheyBelong(line);
  }

  predicate Raised(registry: map<string, Handler>, stops: string -> bool, outside: nat -> bool, lines: seq<Raw>, n: nat)
    requires n <= |lines|
  {
    (exists k :: 0 <= k <= n && outside(k)) || (exists k :: 0 <= k < n && Raises(registry, stops, lines[k]))
  }

  lemma RaisedGrows(registry: map<string, Handler>, stops: string -> bool, outside: nat -> bool, lines: seq<Raw>, n: nat)
    requires n < |lines|
    ensures Raised(registry, stops, outside, lines, n + 1)
      <==> Raised(registry, stops, outside, lines, n) || outside(n + 1) || Raises(registry, stops, lines[n])
  {
  }

  /** The loop looks at the flag before each line: a signal may raise it from outside, `outside(k)` before line `k`, or
      a handler may.  It answers every line before the one at which it finds the flag raised, and no other. */
  method ReadLoop(
    registry: map<string, Handler>, stops: string -> bool, outside: nat -> bool, lines: seq<Raw>, rpc: R.PendingRequests)
    returns (out: seq<Json>, n: nat)
    modifies rpc
    ensures n <= |lines| && out == Answers(registry, lines[..n]) && rpc.View() == Deliver(old(rpc.View()), lines[..n])
    ensures n < |lines| ==> Raised(registry, stops, outside, lines, n)
    ensures forall k :: 0 <= k < n ==> !Raised(registry, stops, outside, lines, k)
  {
    var shouldExit := outside(0);
    out, n := [], 0;
    while n < |lines|
      invariant n <= |lines|
      invariant shouldExit == Raised(registry, stops, outside, lines, n)
      invariant forall k :: 0 <= k < n ==> !Raised(registry, stops, outside, lines, k)
      invariant out == Answers(registry, lines[..n]) && rpc.View() == Deliver(old(rpc.View()), lines[..n])
    {
      if shouldExit {
        break;
      }
      assert lines[..n + 1][..n] == lines[..n];
      RaisedGrows(registry, stops, outside, lines, n);
      var written;
      written, shouldExit := ReadLine(registry, stops, lines[n], rpc);
      out := out + written;
      n := n + 1;
      shouldExit := shouldExit || outside(n);
    }
    assert lines[..|lines|] == lines;
  }

  /** One turn of the loop: a response goes to the client, anything else to the dispatcher. */
  method ReadLine(registry: map<string, Handler>, stops: string -> bool, raw: Raw, rpc: R.PendingRequests)
    returns (written: seq<Json>, raised: bool)
    modifies rpc
    ensures written == AnswerTo(registry, raw) && raised == Raises(registry, stops, raw)
    ensures rpc.View() == DeliverOne(old(rpc.View()), raw)
  {
    written, raised := [], false;
    if raw.Text? {
      RaisesAsParsed(registry, stops, raw.line);
      if LooksLikeResponse(raw.line) {
        var parsed := rpc.HandleResponseLine(raw.line);
      } else {
        var response := HandleLine(registry, raw.line);
        if response.Some? {
          written := [response.value];
        }
        var parsed := ParseRequest(raw.line);
        match parsed {
          case Call(request) => raised := request.name in registry && stops(request.name);
          case Notification(name, _) => raised := name in registry && stops(name);
          case BadRequest(_, _, _) =>
        }
      }
    }
  }

  /** What another harness would read if these lines were sent to it. */
  function Echo(out: seq<Json>): seq<Raw> {
    seq(|out|, i requires 0 <= i < |out| => Text(Of(out[i])))
  }

  lemma AnswerIsSilent(registry: map<string, Handler>, other: map<string, Handler>, raw: Raw)
    requires AnswerTo(registry, raw) != []
    ensures AnswerTo(other, Text(Of(AnswerTo(registry, raw)[0]))) == []
  {
    var r := AnswersAreRight(registry, raw.line);
  }

  lemma {:induction false} EveryAnswerIsSilent(registry: map<string, Handler>, other: map<string, Handler>, lines: seq<Raw>, i: nat)
    requires i < |Answers(registry, lines)|
    ensures AnswerTo(other, Text(Of(Answers(registry, lines)[i]))) == []
  {
    var before, raw := lines[..|lines| - 1], lines[|lines| - 1];
    if i < |Answers(registry, before)| {
      EveryAnswerIsSilent(registry, other, before, i);
    } else {
      AnswerIsSilent(registry, other, raw);
    }
  }

  lemma {:induction false} SilentLines(other: map<string, Handler>, out: seq<Json>)
    requires forall i :: 0 <= i < |out| ==> AnswerTo(other, Text(Of(out[i]))) == []
    ensures Answers(other, Echo(out)) == []
  {
    if out != [] {
      var n := |out| - 1;
      SilentLines(other, out[..n]);
      assert Echo(out)[..n] == Echo(out[..n]);
    }
  }

  /** Every line that the loop writes, fed back into a loop, writes nothing, with any registries: two harnesses never
      answer each other's answers. */
  lemma EchoIsSilent(registry: map<string, Handler>, other: map<string, Handler>, lines: seq<Raw>)
    ensures Answers(other, Echo(Answers(registry, lines))) == []
  {
    var out := Answers(registry, lines);
    forall i | 0 <= i < |out|
      ensures AnswerTo(other, Text(Of(out[i]))) == []
    {
      EveryAnswerIsSilent(registry, other, lines, i);
    }
    SilentLines(other, out);
  }

  /** A request that one side prints is answered by the other with a response that settles exactly that request. */
  lemma RequestIsSettledByItsAnswer(registry: map<string, Handler>, c: R.Client, name: string, params: Option<Json>)
    requires R.Inv(c) && name != "" && |c.issued| < R.MAX_EXACT
    ensures var asked := R.AfterRequest(c, true);
      var line := Text(Of(RequestJson(Request(NumberId(c.nextId), name, params))));
      && |AnswerTo(registry, line)| == 1
      && var settled := Deliver(asked, Echo(AnswerTo(registry, line)));
         && settled.pending == c.pending
         && |settled.settled| == |c.settled| + 1
         && settled.settled[|c.settled|].ticket == |c.issued|
         && var how := settled.settled[|c.settled|].how;
            if name !in registry then how.Rejected? && how.code == -32601.0
            else
              match registry[name](params)
              case Returned(value) => how == R.Resolved(value)
              case ThrewMethodError(code, message, data) => how == R.Rejected(code, message, data)
              case ThrewError(message) => how == R.Rejected(-32603.0, message, None)
              case ThrewOther => how.Rejected? && how.code == -32603.0
  {
    var q := Request(NumberId(c.nextId), name, params);
    RequestRoundTrip(q);
    var reply := Reply(q.id, Dispatch(registry, name, params));
    ResponseRoundTrip(reply);
    R.NextIdIsFree(c);
    var echo := Echo(AnswerTo(registry, Text(Of(RequestJson(q)))));
    assert echo == [Text(Of(ResponseJson(reply)))] && echo[..0] == [];
    assert Deliver(R.AfterRequest(c, true), echo[..0]) == R.AfterRequest(c, true);
    assert c.pending[c.nextId := |c.issued|] - {c.nextId} == c.pending;
  }
}
