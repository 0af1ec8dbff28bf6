/**
 * The socket back end of lib_db (databases/socket.rs). The stream is the client's end of
 * the connection: the bytes it wrote, the reply bytes the server sends back, and how many
 * of those it has read. Which replies arrive is given with the stream; how they depend on
 * what was written is the server's business (`Protocol`).
 */
module SocketClient {
  import opened Wrappers
  import opened Records
  import opened Wire

  const DefaultSocketPath := "/tmp/imessage-exporter.sock"
  const ServerError := "Server error"
  /** `read_exact` on a stream that has nothing more to read. */
  const EarlyEnd := "early eof"

  /** The socket the client connects to: `DBPATH` when it is an absolute path, otherwise
      the default. */
  function SocketPath(dbpath: Option<string>): (r: string)
    ensures r == DefaultSocketPath || dbpath == Some(r)
    ensures dbpath.Some? && dbpath.value != r ==> r == DefaultSocketPath
  {
    match dbpath
    case Some(path) => if |path| > 0 && path[0] == '/' then path else DefaultSocketPath
    case None => DefaultSocketPath
  }

  /** Whatever `DBPATH` says, the client connects to an absolute path, and `DBPATH` is taken
      exactly when it is one. */
  lemma SocketPathAbsolute(dbpath: Option<string>)
    ensures |SocketPath(dbpath)| > 0 && SocketPath(dbpath)[0] == '/'
    ensures SocketPath(dbpath) == (if dbpath.Some? && |dbpath.value| > 0 && dbpath.value[0] == '/' then dbpath.value else DefaultSocketPath)
  {
  }

  // ================================================================ reading replies

  /** Reading one reply byte at position `read`: 'K' is success, any other byte the server's
      error, and no byte at all ends the call with the stream's error. Gives the outcome and
      the next read position. */
  function ReadReply(replies: seq<byte>, read: nat): (r: (Result<(), string>, nat))
    ensures read < |replies| ==> r.1 == read + 1 && (r.0.Ok? <==> replies[read] == ReplyOk)
    ensures read >= |replies| ==> r == (Err(EarlyEnd), read)
  {
    if read < |replies| then
      (if replies[read] == ReplyOk then Ok(()) else Err(ServerError), read + 1)
    else (Err(EarlyEnd), read)
  }

  /** What one command's call returns and where it leaves the read position; `acked` says
      whether a flush waits for its reply. */
  function ClientStep(c: Command, replies: seq<byte>, read: nat, acked: bool): (r: (Result<(), string>, nat))
    ensures r.1 <= read + 1
  {
    match c
    case Insert(_) => ReadReply(replies, read)
    case Flush => if acked then ReadReply(replies, read) else (Ok(()), read)
  }

  /** The outcome of each call of a session, in order. */
  function ClientSession(cmds: seq<Command>, replies: seq<byte>, read: nat, acked: bool): (r: seq<Result<(), string>>)
    ensures |r| == |cmds|
  {
    if cmds == [] then []
    else
      var step := ClientStep(cmds[0], replies, read, acked);
      [step.0] + ClientSession(cmds[1..], replies, step.1, acked)
  }

  // ================================================================ the stream

  /** The client's end of the Unix socket. */
  class Stream {
    var written: seq<byte>
    var replies: seq<byte>
    var read: nat

    constructor (replies: seq<byte>)
      ensures written == [] && this.replies == replies && read == 0
    {
      written := [];
      this.replies := replies;
      read := 0;
    }

    /** `write_u8`, `write_u32` and `write_all`. */
    method Write(bytes: seq<byte>)
      modifies this
      ensures written == old(written) + bytes
      ensures replies == old(replies) && read == old(read)
    {
      written := written + bytes;
    }

    /** `read_exact` of one byte. */
    method ReadByte() returns (b: Result<byte, string>)
      modifies this
      ensures old(read) < |replies| ==> b == Ok(replies[old(read)]) && read == old(read) + 1
      ensures old(read) >= |replies| ==> b == Err(EarlyEnd) && read == old(read)
      ensures written == old(written) && replies == old(replies)
    {
      if read < |replies| {
        b := Ok(replies[read]);
        read := read + 1;
      } else {
        b := Err(EarlyEnd);
      }
    }
  }

  // ================================================================ the database

  /** `SocketDatabase`: `stream` is `None` when null. */
  class SocketDatabase {
    const json: Json
    const socketPath: string
    var stream: Stream?

    constructor (json: Json, socketPath: string, stream: Stream?)
      ensures this.json == json && this.socketPath == socketPath && this.stream == stream
    {
      this.json := json;
      this.socketPath := socketPath;
      this.stream := stream;
    }

    /** `create`: connects to the chosen socket; `connect` is the outcome of connecting to
        it, and a failure is returned as it is. */
    static method Create(json: Json, dbpath: Option<string>, connect: Result<Stream, string>) returns (r: Result<SocketDatabase, string>)
      ensures connect.Err? ==> r == Err(connect.error)
      ensures connect.Ok? ==> r.Ok? && fresh(r.value) && r.value.json == json
                              && r.value.socketPath == SocketPath(dbpath) && r.value.stream == connect.value
    {
      var path := SocketPath(dbpath);
      match connect {
        case Err(e) =>
          r := Err(e);
        case Ok(s) =>
          var db := new SocketDatabase(json, path, s);
          r := Ok(db);
      }
    }

    /** `insert_batch`: one insert frame, then one reply byte, which must be 'K'. Without a
        stream nothing happens and the call succeeds. */
    method InsertBatch(batch: seq<Record>) returns (r: Result<(), string>)
      modifies stream
      ensures stream == null ==> r.Ok?
      ensures stream != null ==>
                stream.written == old(stream.written) + Frame(json, Insert(batch))
                && stream.replies == old(stream.replies)
                && (r, stream.read) == ClientStep(Insert(batch), stream.replies, old(stream.read), false)
    {
      if stream != null {
        stream.Write([CmdInsert]);
        var data := json.encode(batch);
        stream.Write(U32BE(LengthField(data)));
        stream.Write(data);
        var response := stream.ReadByte();
        match response {
          case Err(e) =>
            return Err(e);
          case Ok(b) =>
            if b != ReplyOk {
              return Err(ServerError);
            }
        }
      }
      r := Ok(());
    }

    /** `flush` as written: the flush command goes out and its reply is never read. */
    method Flush() returns (r: Result<(), string>)
      modifies stream
      ensures r.Ok?
      ensures stream != null ==>
                stream.written == old(stream.written) + Frame(json, Command.Flush)
                && stream.replies == old(stream.replies)
                && (r, stream.read) == ClientStep(Command.Flush, stream.replies, old(stream.read), false)
    {
      if stream != null {
        stream.Write([CmdFlush]);
      }
      r := Ok(());
    }

    /** `flush` as the protocol means it: the server answers every command, so the flush
        reads its reply like an insert does. */
    method FlushAcked() returns (r: Result<(), string>)
      modifies stream
      ensures stream == null ==> r.Ok?
      ensures stream != null ==>
                stream.written == old(stream.written) + Frame(json, Command.Flush)
                && stream.replies == old(stream.replies)
                && (r, stream.read) == ClientStep(Command.Flush, stream.replies, old(stream.read), true)
    {
      if stream != null {
        stream.Write([CmdFlush]);
        var response := stream.ReadByte();
        match response {
          case Err(e) =>
            return Err(e);
          case Ok(b) =>
            if b != ReplyOk {
              return Err(ServerError);
            }
        }
      }
      r := Ok(());
    }
  }
}
