/**
 * The SurrealDB back end of lib_db (databases/surreal.rs and the constants of lib.rs):
 * which endpoint and credentials `create` chooses, the calls it makes to set up the
 * session, the one-create-per-message insert loop and the commit on flush. The
 * environment, the filesystem and the database's answers are parameters.
 */
module Surreal {
  import opened Wrappers
  import opened Records

  const Namespace := "lynx"
  const DatabaseName := "lynx"
  const MessagesTable := "messages"
  const DefaultUsername := "root"
  const DefaultPassword := "root"
  const FallbackEndpoint := "ws://localhost:8000"
  const CommitQuery := "COMMIT TRANSACTION"

  // ================================================================ create

  /** `DBUSER` and `DBPASS` are used only together; otherwise root/root. */
  function Credentials(dbuser: Option<string>, dbpass: Option<string>): (r: (string, string))
    ensures dbuser.Some? && dbpass.Some? ==> r == (dbuser.value, dbpass.value)
    ensures dbuser.None? || dbpass.None? ==> r == (DefaultUsername, DefaultPassword)
  {
    match (dbuser, dbpass)
    case (Some(user), Some(pass)) => (user, pass)
    case _ => (DefaultUsername, DefaultPassword)
  }

  /** The cache directory joined with `export/db`, or `/export/db` without one. */
  function DefaultPath(cacheDir: Option<string>): (r: string)
    ensures cacheDir.None? ==> r == "/export/db"
    ensures cacheDir.Some? ==> r == cacheDir.value + "/export/db"
  {
    match cacheDir
    case Some(dir) => dir + "/export/db"
    case None => "/export/db"
  }

  /** A local RocksDB store in `dir` if the directory can be created, else the WebSocket
      server. The flag says whether the endpoint is the WebSocket server. */
  function LocalOrFallback(dir: string, canCreate: string -> bool): (r: (string, bool))
    ensures canCreate(dir) ==> r == ("rocksdb:" + dir, false)
    ensures !canCreate(dir) ==> r == (FallbackEndpoint, true)
  {
    if canCreate(dir) then ("rocksdb:" + dir, false) else (FallbackEndpoint, true)
  }

  /** The endpoint `DBPATH` selects. `canCreate` is `create_dir_all` succeeding. A path
      with neither a root nor any component is the empty one. */
  function Endpoint(dbpath: Option<string>, defaultPath: string, canCreate: string -> bool): (r: (string, bool))
    ensures dbpath == None || dbpath == Some("1") ==> r == LocalOrFallback(defaultPath, canCreate)
    ensures dbpath == Some("remote") || dbpath == Some("") ==> r == (FallbackEndpoint, true)
    ensures dbpath.Some? && dbpath.value !in {"1", "remote", ""} ==> r == LocalOrFallback(dbpath.value, canCreate)
  {
    match dbpath
    case None => LocalOrFallback(defaultPath, canCreate)
    case Some(path) =>
      if path == "1" then LocalOrFallback(defaultPath, canCreate)
      else if path == "remote" then (FallbackEndpoint, true)
      else if path != "" then LocalOrFallback(path, canCreate)
      else (FallbackEndpoint, true)
  }

  /** The flag is right: it is set exactly when the endpoint is the WebSocket server. */
  lemma WebsocketIffFallback(dbpath: Option<string>, defaultPath: string, canCreate: string -> bool)
    ensures Endpoint(dbpath, defaultPath, canCreate).1 <==> Endpoint(dbpath, defaultPath, canCreate).0 == FallbackEndpoint
  {
    var e := Endpoint(dbpath, defaultPath, canCreate);
    if !e.1 {
      var dir :| e.0 == "rocksdb:" + dir;
      assert e.0[0] == 'r' && FallbackEndpoint[0] == 'w';
    }
  }

  /** The calls `create` makes to the database. */
  datatype Call = Connect(endpoint: string) | SignIn(username: string, password: string) | Use(namespace: string, database: string)

  /** Connect, sign in only for the WebSocket server, then select the namespace. */
  function SetupCalls(endpoint: string, isWebsocket: bool, credentials: (string, string)): (r: seq<Call>)
    ensures 2 <= |r| <= 3
    ensures r[0] == Connect(endpoint) && r[|r| - 1] == Use(Namespace, DatabaseName)
    ensures isWebsocket <==> (|r| == 3 && r[1] == SignIn(credentials.0, credentials.1))
  {
    [Connect(endpoint)]
    + (if isWebsocket then [SignIn(credentials.0, credentials.1)] else [])
    + [Use(Namespace, DatabaseName)]
  }

  /** The calls made until the first one fails, and how `create` ends: each call's failure
      is returned with `?`. */
  function RunCalls(calls: seq<Call>, answer: Call -> Result<(), string>): (r: (seq<Call>, Result<(), string>))
    ensures |r.0| <= |calls| && r.0 == calls[..|r.0|]
    ensures r.1.Ok? <==> forall c :: c in calls ==> answer(c).Ok?
    ensures r.1.Err? ==> |r.0| > 0 && answer(r.0[|r.0| - 1]) == r.1
    decreases |calls|
  {
    if calls == [] then ([], Ok(()))
    else
      match answer(calls[0])
      case Err(e) => ([calls[0]], Err(e))
      case Ok(_) =>
        var rest := RunCalls(calls[1..], answer);
        assert forall c :: c in calls <==> c == calls[0] || c in calls[1..];
        ([calls[0]] + rest.0, rest.1)
  }

  /** Everything `create` reads from its environment. */
  datatype Env = Env(dbuser: Option<string>, dbpass: Option<string>, dbpath: Option<string>, cacheDir: Option<string>)

  /** `create`: the setup calls made and the outcome. */
  function Create(env: Env, canCreate: string -> bool, answer: Call -> Result<(), string>): (r: (seq<Call>, Result<(), string>))
  {
    var (endpoint, isWebsocket) := Endpoint(env.dbpath, DefaultPath(env.cacheDir), canCreate);
    RunCalls(SetupCalls(endpoint, isWebsocket, Credentials(env.dbuser, env.dbpass)), answer)
  }

  /** Sign-in happens only with the WebSocket server, and with the chosen credentials. */
  lemma SignInOnlyForWebsocket(env: Env, canCreate: string -> bool, answer: Call -> Result<(), string>, c: Call)
    requires c in Create(env, canCreate, answer).0 && c.SignIn?
    ensures Endpoint(env.dbpath, DefaultPath(env.cacheDir), canCreate).0 == FallbackEndpoint
    ensures (c.username, c.password) == Credentials(env.dbuser, env.dbpass)
  {
    var (endpoint, isWebsocket) := Endpoint(env.dbpath, DefaultPath(env.cacheDir), canCreate);
    var calls := SetupCalls(endpoint, isWebsocket, Credentials(env.dbuser, env.dbpass));
    WebsocketIffFallback(env.dbpath, DefaultPath(env.cacheDir), canCreate);
    assert c in calls;
  }

  // ================================================================ the database

  /** `SurrealDatabase` with the database behind it: the records created in the messages
      table and the queries sent. `create` answers each create call. */
  class SurrealDatabase {
    var table: seq<Record>
    var queries: seq<string>
    const create: Record -> Result<(), string>
    const query: string -> Result<(), string>

    constructor (create: Record -> Result<(), string>, query: string -> Result<(), string>)
      ensures table == [] && queries == [] && this.create == create && this.query == query
    {
      table := [];
      queries := [];
      this.create := create;
      this.query := query;
    }

    /** `insert_batch`: one create per message in order; the first failure stops the loop
        and is returned, and what was created before it stays. */
    method InsertBatch(messages: seq<Record>) returns (r: Result<(), string>)
      modifies this
      ensures var k := FirstRefused(messages, create);
              table == old(table) + messages[..k]
              && (r.Ok? <==> k == |messages|)
              && (r.Err? ==> r == create(messages[k]))
      ensures queries == old(queries)
    {
      var i := 0;
      while i < |messages|
        invariant 0 <= i <= |messages|
        invariant table == old(table) + messages[..i]
        invariant forall j :: 0 <= j < i ==> create(messages[j]).Ok?
        invariant queries == old(queries)
      {
        var created := create(messages[i]);
        if created.Err? {
          FirstRefusedAt(messages, create, i);
          return created;
        }
        table := table + [messages[i]];
        assert messages[..i + 1] == messages[..i] + [messages[i]];
        i := i + 1;
      }
      FirstRefusedAt(messages, create, i);
      assert messages[..i] == messages;
      r := Ok(());
    }

    /** `flush`: commits, and returns what the commit returns. */
    method Flush() returns (r: Result<(), string>)
      modifies this
      ensures queries == old(queries) + [CommitQuery] && r == query(CommitQuery)
      ensures table == old(table)
    {
      queries := queries + [CommitQuery];
      r := query(CommitQuery);
    }
  }

  /** The position of the first message the database refuses, or the length if none. */
  function FirstRefused(messages: seq<Record>, create: Record -> Result<(), string>): (k: nat)
    ensures k <= |messages|
    ensures forall j :: 0 <= j < k ==> create(messages[j]).Ok?
    ensures k < |messages| ==> create(messages[k]).Err?
  {
    if messages == [] then 0
    else if create(messages[0]).Err? then 0
    else 1 + FirstRefused(messages[1..], create)
  }

  /** The first refusal is where every earlier message was accepted and this one was not. */
  lemma {:induction false} FirstRefusedAt(messages: seq<Record>, create: Record -> Result<(), string>, i: nat)
    requires i <= |messages|
    requires forall j :: 0 <= j < i ==> create(messages[j]).Ok?
    requires i < |messages| ==> create(messages[i]).Err?
    ensures FirstRefused(messages, create) == i
    decreases i
  {
    if i > 0 {
      FirstRefusedAt(messages[1..], create, i - 1);
    }
  }
}
