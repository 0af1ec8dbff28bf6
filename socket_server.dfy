/**
 * The socket server example (lib_db/examples/socket.rs): it reads commands from one client
 * until the stream ends, keeps every decoded message and answers each command with one byte.
 * The bytes the client sent are the input; what the server writes back is the output.
 */
module SocketServer {
  import opened Wrappers
  import opened Records
  import opened Wire

  /** Said when the stream ends inside a frame (`read_exact` on the length or the payload). */
  const EarlyEnd := "early eof"

  /** One command handled: the reply byte, the messages kept and the bytes consumed. */
  datatype StepResult = StepResult(reply: byte, accepted: seq<Record>, consumed: nat)

  /** The command starting at `pos`, or `None` when the stream ends inside it. */
  function Step(json: Json, input: seq<byte>, pos: nat): (r: Option<StepResult>)
    requires pos < |input|
    ensures r.Some? ==> r.value.consumed > 0 && pos + r.value.consumed <= |input|
    ensures r.Some? && r.value.reply == ReplyErr ==> r.value.accepted == []
  {
    if input[pos] == CmdInsert then
      if |input| < pos + 5 then None
      else
        var len := FromU32BE(input[pos + 1..pos + 5]);
        if |input| < pos + 5 + len then None
        else
          match json.decode(input[pos + 5..pos + 5 + len])
          case Some(messages) => Some(StepResult(ReplyOk, messages, 5 + len))
          case None => Some(StepResult(ReplyErr, [], 5 + len))
    else if input[pos] == CmdFlush then Some(StepResult(ReplyOk, [], 1))
    else Some(StepResult(ReplyErr, [], 1))
  }

  /** Everything the server does with one connection. */
  datatype Served = Served(replies: seq<byte>, accepted: seq<Record>, outcome: Result<(), string>)

  /** The session from `pos` on: commands until the stream ends; a frame cut short ends
      the session with an error. */
  function Serve(json: Json, input: seq<byte>, pos: nat): (r: Served)
    requires pos <= |input|
    decreases |input| - pos, 1
  {
    if pos == |input| then Served([], [], Ok(())) else ServeCommand(json, input, pos)
  }

  /** The session from the command at `pos` on. */
  function ServeCommand(json: Json, input: seq<byte>, pos: nat): (r: Served)
    requires pos < |input|
    decreases |input| - pos, 0
  {
    match Step(json, input, pos)
    case None => Served([], [], Err(EarlyEnd))
    case Some(s) =>
      var rest := Serve(json, input, pos + s.consumed);
      Served([s.reply] + rest.replies, s.accepted + rest.accepted, rest.outcome)
  }

  /** The session prefixed with what was already handled. */
  function After(replies: seq<byte>, accepted: seq<Record>, rest: Served): Served {
    Served(replies + rest.replies, accepted + rest.accepted, rest.outcome)
  }

  /** One command handled, then the rest of the session. */
  lemma ServeUnfold(json: Json, input: seq<byte>, pos: nat, s: StepResult)
    requires pos < |input| && Step(json, input, pos) == Some(s)
    ensures Serve(json, input, pos) == After([s.reply], s.accepted, Serve(json, input, pos + s.consumed))
  {
  }

  /** Handling the command at `pos` moves its reply and messages from the rest of the
      session to what was already handled. */
  lemma ServeStep(json: Json, input: seq<byte>, pos: nat, s: StepResult, whole: Served, replies: seq<byte>, accepted: seq<Record>)
    requires pos < |input| && Step(json, input, pos) == Some(s)
    requires whole == After(replies, accepted, Serve(json, input, pos))
    ensures whole == After(replies + [s.reply], accepted + s.accepted, Serve(json, input, pos + s.consumed))
  {
    assert (accepted + s.accepted) + Serve(json, input, pos + s.consumed).accepted
        == accepted + (s.accepted + Serve(json, input, pos + s.consumed).accepted);
  }

  /** Where the stream ends, or a frame is cut short, the session is what was handled. */
  lemma ServeStops(json: Json, input: seq<byte>, pos: nat, whole: Served, replies: seq<byte>, accepted: seq<Record>)
    requires pos <= |input| && (pos < |input| ==> Step(json, input, pos).None?)
    requires whole == After(replies, accepted, Serve(json, input, pos))
    ensures whole == Served(replies, accepted, if pos == |input| then Ok(()) else Err(EarlyEnd))
  {
    assert replies + [] == replies && accepted + [] == accepted;
  }

  /** `ServerState`. */
  class ServerState {
    var messages: seq<Record>
    var totalReceived: nat
    var uniqueGuids: set<string>

    constructor ()
      ensures messages == [] && totalReceived == 0 && uniqueGuids == {}
    {
      messages := [];
      totalReceived := 0;
      uniqueGuids := {};
    }

    /** The `match` on the command byte in `run_server`: an insert reads the length and
        the payload and counts and keeps the decoded messages; a flush is acknowledged; any
        other byte is refused. A frame cut short changes nothing. */
    method HandleCommand(json: Json, input: seq<byte>, pos: nat) returns (step: Option<StepResult>)
      requires pos < |input|
      modifies this
      ensures step == Step(json, input, pos)
      ensures step.Some? ==> messages == old(messages) + step.value.accepted
                             && totalReceived == old(totalReceived) + |step.value.accepted|
      ensures step.None? ==> messages == old(messages) && totalReceived == old(totalReceived)
      ensures uniqueGuids == old(uniqueGuids)
    {
      if input[pos] == CmdInsert {
        if |input| < pos + 5 {
          return None;
        }
        var len := FromU32BE(input[pos + 1..pos + 5]);
        if |input| < pos + 5 + len {
          return None;
        }
        var buffer := input[pos + 5..pos + 5 + len];
        match json.decode(buffer) {
          case Some(batch) =>
            totalReceived := totalReceived + |batch|;
            messages := messages + batch;
            step := Some(StepResult(ReplyOk, batch, 5 + len));
          case None =>
            step := Some(StepResult(ReplyErr, [], 5 + len));
        }
      } else if input[pos] == CmdFlush {
        step := Some(StepResult(ReplyOk, [], 1));
      } else {
        step := Some(StepResult(ReplyErr, [], 1));
      }
    }

    /** `run_server` after the client connected: each decoded batch is counted and appended
        to the messages, each command is answered, and the guid set is never touched. */
    method RunServer(json: Json, input: seq<byte>) returns (replies: seq<byte>, r: Result<(), string>)
      modifies this
      ensures var s := Serve(json, input, 0);
              replies == s.replies && r == s.outcome
              && messages == old(messages) + s.accepted
              && totalReceived == old(totalReceived) + |s.accepted|
      ensures uniqueGuids == old(uniqueGuids)
    {
      var pos: nat := 0;
      replies := [];
      ghost var accepted: seq<Record> := [];
      ghost var whole := Serve(json, input, 0);
      while pos < |input|
        invariant pos <= |input|
        invariant whole == After(replies, accepted, Serve(json, input, pos))
        invariant messages == old(messages) + accepted
        invariant totalReceived == old(totalReceived) + |accepted|
        invariant uniqueGuids == old(uniqueGuids)
        decreases |input| - pos
      {
        var step := HandleCommand(json, input, pos);
        match step {
          case None =>
            ServeStops(json, input, pos, whole, replies, accepted);
            return replies, Err(EarlyEnd);
          case Some(handled) =>
            ServeStep(json, input, pos, handled, whole, replies, accepted);
            accepted := accepted + handled.accepted;
            replies := replies + [handled.reply];
            pos := pos + handled.consumed;
        }
      }
      ServeStops(json, input, pos, whole, replies, accepted);
      r := Ok(());
    }
  }

  /** Every reply is 'K' or 'E', one per command handled. */
  lemma {:induction false} RepliesAreCodes(json: Json, input: seq<byte>, pos: nat)
    requires pos <= |input|
    ensures forall k :: 0 <= k < |Serve(json, input, pos).replies| ==> Serve(json, input, pos).replies[k] in {ReplyOk, ReplyErr}
    ensures |Serve(json, input, pos).replies| <= |input| - pos
    decreases |input| - pos
  {
    if pos < |input| {
      match Step(json, input, pos)
      case None =>
      case Some(s) => RepliesAreCodes(json, input, pos + s.consumed);
    }
  }
}
