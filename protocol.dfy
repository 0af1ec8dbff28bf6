/**
 * The socket client and the socket server together: what the server does with the bytes
 * the client writes, and which reply the client takes as the answer to each call.
 */
module Protocol {
  import opened Wrappers
  import opened Records
  import opened Wire
  import opened SocketServer
  import opened SocketClient

  /** The server's answer to one command that arrived whole. */
  function ReplyTo(json: Json, c: Command): (r: byte)
    ensures r == ReplyOk || r == ReplyErr
    ensures c.Flush? ==> r == ReplyOk
  {
    match c
    case Insert(batch) => if json.decode(json.encode(batch)).Some? then ReplyOk else ReplyErr
    case Flush => ReplyOk
  }

  /** The messages the server keeps from one command that arrived whole. */
  function KeptFrom(json: Json, c: Command): seq<Record> {
    match c
    case Insert(batch) => (match json.decode(json.encode(batch)) case Some(ms) => ms case None => [])
    case Flush => []
  }

  /** The server's replies to a session, one per command. */
  function ServerReplies(json: Json, cmds: seq<Command>): (r: seq<byte>)
    ensures |r| == |cmds|
    ensures forall k :: 0 <= k < |cmds| ==> r[k] == ReplyTo(json, cmds[k])
  {
    if cmds == [] then [] else [ReplyTo(json, cmds[0])] + ServerReplies(json, cmds[1..])
  }

  /** The messages the server keeps from a session, in order. */
  function Kept(json: Json, cmds: seq<Command>): seq<Record> {
    if cmds == [] then [] else KeptFrom(json, cmds[0]) + Kept(json, cmds[1..])
  }

  /** The records of every insert of a session, in order. */
  function Inserted(cmds: seq<Command>): seq<Record> {
    if cmds == [] then []
    else (match cmds[0] case Insert(batch) => batch case Flush => []) + Inserted(cmds[1..])
  }

  /** A whole frame, wherever it sits in the stream, is read as exactly that command. */
  lemma StepFrame(json: Json, p: seq<byte>, c: Command, t: seq<byte>)
    requires c.Insert? ==> |json.encode(c.batch)| < U32Modulus
    ensures |p| < |p + Frame(json, c) + t|
    ensures Step(json, p + Frame(json, c) + t, |p|) == Some(StepResult(ReplyTo(json, c), KeptFrom(json, c), |Frame(json, c)|))
  {
    var input := p + Frame(json, c) + t;
    match c
    case Insert(batch) =>
      var data := json.encode(batch);
      assert Frame(json, c) == [CmdInsert] + U32BE(|data|) + data;
      assert input[|p|] == CmdInsert;
      assert input[|p| + 1..|p| + 5] == U32BE(|data|);
      U32RoundTrip(|data|);
      assert input[|p| + 5..|p| + 5 + |data|] == data;
    case Flush =>
      assert input[|p|] == CmdFlush;
  }

  /** The server reads the client's frames back as the same commands: one reply per command
      and the kept messages in order, with the session ending cleanly. */
  lemma {:induction false} ServeFrames(json: Json, p: seq<byte>, cmds: seq<Command>)
    requires LengthsFit(json, cmds)
    ensures Serve(json, p + Frames(json, cmds), |p|) == Served(ServerReplies(json, cmds), Kept(json, cmds), Ok(()))
    decreases |cmds|
  {
    if cmds == [] {
      assert p + Frames(json, cmds) == p;
    } else {
      var f := Frame(json, cmds[0]);
      var rest := Frames(json, cmds[1..]);
      var input := p + f + rest;
      FramesCons(json, p, cmds);
      StepFrame(json, p, cmds[0], rest);
      var s := StepResult(ReplyTo(json, cmds[0]), KeptFrom(json, cmds[0]), |f|);
      ServeUnfold(json, input, |p|, s);
      LengthsFitTail(json, cmds);
      ServeFrames(json, p + f, cmds[1..]);
      var tail := Serve(json, input, |p| + |f|);
      assert tail == Served(ServerReplies(json, cmds[1..]), Kept(json, cmds[1..]), Ok(()));
      assert ServerReplies(json, cmds) == [s.reply] + ServerReplies(json, cmds[1..]);
      assert Kept(json, cmds) == s.accepted + Kept(json, cmds[1..]);
    }
  }

  /** The stream of a non-empty session, after any prefix, is its first frame and then the others. */
  lemma FramesCons(json: Json, p: seq<byte>, cmds: seq<Command>)
    requires cmds != []
    ensures p + Frames(json, cmds) == p + Frame(json, cmds[0]) + Frames(json, cmds[1..])
    ensures |p + Frame(json, cmds[0])| == |p| + |Frame(json, cmds[0])|
  {
    Associative(p, Frame(json, cmds[0]), Frames(json, cmds[1..]));
  }

  lemma Associative(a: seq<byte>, b: seq<byte>, c: seq<byte>)
    ensures a + (b + c) == a + b + c
  {
  }

  lemma LengthsFitTail(json: Json, cmds: seq<Command>)
    requires cmds != [] && LengthsFit(json, cmds)
    ensures LengthsFit(json, cmds[1..])
  {
    forall k | 0 <= k < |cmds[1..]| && cmds[1..][k].Insert?
      ensures |json.encode(cmds[1..][k].batch)| < U32Modulus
    {
      assert cmds[1..][k] == cmds[k + 1];
    }
  }

  /** With an encoder and decoder that agree, every command is acknowledged and the server
      keeps exactly the records that were inserted, in order. */
  lemma {:induction false} WireRoundTrip(json: Json, cmds: seq<Command>)
    requires RoundTrips(json) && LengthsFit(json, cmds)
    ensures Serve(json, Frames(json, cmds), 0).outcome == Ok(())
    ensures Serve(json, Frames(json, cmds), 0).accepted == Inserted(cmds)
    ensures |Serve(json, Frames(json, cmds), 0).replies| == |cmds|
    ensures forall k :: 0 <= k < |cmds| ==> Serve(json, Frames(json, cmds), 0).replies[k] == ReplyOk
  {
    ServeFrames(json, [], cmds);
    assert [] + Frames(json, cmds) == Frames(json, cmds);
    KeptIsInserted(json, cmds);
  }

  lemma {:induction false} KeptIsInserted(json: Json, cmds: seq<Command>)
    requires RoundTrips(json)
    ensures Kept(json, cmds) == Inserted(cmds)
    decreases |cmds|
  {
    if cmds != [] {
      KeptIsInserted(json, cmds[1..]);
      match cmds[0]
      case Insert(batch) => assert json.decode(json.encode(batch)) == Some(batch);
      case Flush =>
    }
  }

  // ================================================================ which reply is whose

  /** A client that reads the reply to every command takes the `k`-th reply as the answer
      to its `k`-th call. */
  lemma {:induction false} AckedClientInStep(cmds: seq<Command>, replies: seq<byte>, read: nat)
    requires read + |cmds| <= |replies|
    ensures forall k :: 0 <= k < |cmds| ==>
              (ClientSession(cmds, replies, read, true)[k].Ok? <==> replies[read + k] == ReplyOk)
    decreases |cmds|
  {
    if cmds != [] {
      AckedClientInStep(cmds[1..], replies, read + 1);
      var r := ClientSession(cmds, replies, read, true);
      var tail := ClientSession(cmds[1..], replies, read + 1, true);
      assert r == [ReadReply(replies, read).0] + tail;
      forall k | 1 <= k < |cmds|
        ensures r[k].Ok? <==> replies[read + k] == ReplyOk
      {
        assert r[k] == tail[k - 1];
      }
    }
  }

  /** With the acknowledged flush, each call succeeds exactly when the server accepted
      that very command. */
  lemma AckedClientAgrees(json: Json, cmds: seq<Command>)
    ensures forall k :: 0 <= k < |cmds| ==>
              (ClientSession(cmds, ServerReplies(json, cmds), 0, true)[k].Ok? <==> ReplyTo(json, cmds[k]) == ReplyOk)
  {
    var replies := ServerReplies(json, cmds);
    AckedClientInStep(cmds, replies, 0);
    forall k | 0 <= k < |cmds|
      ensures ClientSession(cmds, replies, 0, true)[k].Ok? <==> ReplyTo(json, cmds[k]) == ReplyOk
    {
      assert replies[0 + k] == ReplyTo(json, cmds[k]);
    }
  }

  /** The encoder and decoder of a server that reads only the empty batch: any other batch
      is a parse error, and the server answers 'E'. */
  const Picky := Json(
    (batch: seq<Record>) => if batch == [] then [0 as byte] else [1 as byte],
    (data: seq<byte>) => if data == [0 as byte] then Some([]) else None)

  const OneRecord := Record("g", None, None, "", None, "", [], "", false, false, false)

  /** As written, a flush leaves its 'K' unread, so the next insert reads that 'K' as its
      own answer: the insert is reported a success although the server refused it, and the
      refusal is left for whatever call comes next. */
  lemma FlushLeavesReplyUnread()
    ensures ServerReplies(Picky, [Command.Flush, Insert([OneRecord])]) == [ReplyOk, ReplyErr]
    ensures ClientSession([Command.Flush, Insert([OneRecord])], [ReplyOk, ReplyErr], 0, false) == [Ok(()), Ok(())]
    ensures ClientSession([Command.Flush, Insert([OneRecord])], [ReplyOk, ReplyErr], 0, true) == [Ok(()), Err(ServerError)]
  {
    var cmds := [Command.Flush, Insert([OneRecord])];
    assert cmds[1..] == [Insert([OneRecord])];
    assert Picky.encode([OneRecord]) == [1 as byte];
    assert Picky.decode([1 as byte]) == None;
    assert ReplyTo(Picky, cmds[1]) == ReplyErr;
    assert ClientSession(cmds[1..], [ReplyOk, ReplyErr], 0, false) == [Ok(())];
    assert ClientSession(cmds[1..], [ReplyOk, ReplyErr], 1, true) == [Err(ServerError)];
  }
}
