/**
 * The HTTP test server (lib_db/examples/server.rs): `/ingest` appends a batch and records
 * every guid, warning about duplicates; `/flush` reports how many messages are held and
 * drops them.
 */
module HttpServer {
  import opened Records

  const StatusOk: nat := 200

  /** The guids of `batch` that are already known when they arrive: known before the
      batch, or seen earlier in it. One entry per warning, in order. */
  function Duplicates(seen: set<string>, batch: seq<Record>): seq<string>
    decreases |batch|
  {
    if batch == [] then []
    else
      (if batch[0].guid in seen then [batch[0].guid] else [])
      + Duplicates(seen + {batch[0].guid}, batch[1..])
  }

  /** The guid set after the batch has been recorded. */
  function SeenAfter(seen: set<string>, batch: seq<Record>): set<string>
    decreases |batch|
  {
    if batch == [] then seen else SeenAfter(seen + {batch[0].guid}, batch[1..])
  }

  /** The guid set grows by exactly the guids of the batch. */
  lemma {:induction false} SeenAfterIsUnion(seen: set<string>, batch: seq<Record>)
    ensures SeenAfter(seen, batch) == seen + (set m | m in batch :: m.guid)
    decreases |batch|
  {
    if batch != [] {
      SeenAfterIsUnion(seen + {batch[0].guid}, batch[1..]);
      assert batch == [batch[0]] + batch[1..];
      assert (set m | m in batch :: m.guid) == {batch[0].guid} + (set m | m in batch[1..] :: m.guid);
    }
  }

  /** Every message either adds a new guid or raises one warning, never both. */
  lemma {:induction false} DuplicatesAccountForBatch(seen: set<string>, batch: seq<Record>)
    ensures |SeenAfter(seen, batch)| + |Duplicates(seen, batch)| == |seen| + |batch|
    ensures forall k :: 0 <= k < |Duplicates(seen, batch)| ==> Duplicates(seen, batch)[k] in SeenAfter(seen, batch)
    decreases |batch|
  {
    if batch != [] {
      var g := batch[0].guid;
      DuplicatesAccountForBatch(seen + {g}, batch[1..]);
      if g in seen {
        assert seen + {g} == seen;
      } else {
        assert |seen + {g}| == |seen| + 1;
      }
      SeenAfterGrows(seen + {g}, batch[1..]);
      var d := Duplicates(seen, batch);
      var rest := Duplicates(seen + {g}, batch[1..]);
      assert d == (if g in seen then [g] else []) + rest;
      forall k | 0 <= k < |d|
        ensures d[k] in SeenAfter(seen, batch)
      {
        if g in seen && k == 0 {
          assert d[k] == g;
        } else if g in seen {
          assert d[k] == rest[k - 1];
        } else {
          assert d[k] == rest[k];
        }
      }
    }
  }

  lemma {:induction false} SeenAfterGrows(seen: set<string>, batch: seq<Record>)
    ensures seen <= SeenAfter(seen, batch)
    decreases |batch|
  {
    if batch != [] {
      SeenAfterGrows(seen + {batch[0].guid}, batch[1..]);
    }
  }

  /** `ServerState`. */
  class ServerState {
    var messages: seq<Record>
    var totalReceived: nat
    var uniqueGuids: set<string>

    constructor ()
      ensures messages == [] && totalReceived == 0 && uniqueGuids == {}
    {
      messages := [];
      totalReceived := 0;
      uniqueGuids := {};
    }

    /** `handle_messages`: every guid is recorded, a duplicate only warns, and the whole
        batch is counted and appended in order; the answer is always 200. */
    method HandleMessages(batch: seq<Record>) returns (status: nat, warned: seq<string>)
      modifies this
      ensures status == StatusOk
      ensures uniqueGuids == SeenAfter(old(uniqueGuids), batch)
      ensures warned == Duplicates(old(uniqueGuids), batch)
      ensures totalReceived == old(totalReceived) + |batch|
      ensures messages == old(messages) + batch
    {
      warned := [];
      var i := 0;
      while i < |batch|
        invariant 0 <= i <= |batch|
        invariant SeenAfter(uniqueGuids, batch[i..]) == SeenAfter(old(uniqueGuids), batch)
        invariant warned + Duplicates(uniqueGuids, batch[i..]) == Duplicates(old(uniqueGuids), batch)
        invariant messages == old(messages) && totalReceived == old(totalReceived)
      {
        var guid := batch[i].guid;
        assert batch[i..][1..] == batch[i + 1..];
        if guid in uniqueGuids {
          warned := warned + [guid];
        }
        uniqueGuids := uniqueGuids + {guid};
        i := i + 1;
      }
      assert batch[i..] == [];
      totalReceived := totalReceived + |batch|;
      messages := messages + batch;
      status := StatusOk;
    }

    /** `handle_flush`: reports the number of messages held and drops them; the counter and
        the guid set stay. */
    method HandleFlush() returns (status: nat, messageCount: nat)
      modifies this
      ensures status == StatusOk && messageCount == |old(messages)|
      ensures messages == []
      ensures totalReceived == old(totalReceived) && uniqueGuids == old(uniqueGuids)
    {
      messageCount := |messages|;
      messages := [];
      status := StatusOk;
    }
  }

  /** The server's own test: one message in, then a flush reports one message. */
  method IngestThenFlush(message: Record) returns (ingestStatus: nat, flushStatus: nat, messageCount: nat)
    ensures ingestStatus == StatusOk && flushStatus == StatusOk && messageCount == 1
  {
    var state := new ServerState();
    var warned;
    ingestStatus, warned := state.HandleMessages([message]);
    flushStatus, messageCount := state.HandleFlush();
  }
}
