/**
 * The buffering side of the database exporter (db.rs): `write_message` turns a message
 * into a record and pushes it onto `self.messages`; `flush_messages` hands the whole buffer
 * to the database once it holds 1000 records, and once more after the last message.
 * The database behind `insert_batch` is outside the model: whether it accepts a batch is
 * given as a function of the batch.
 */
module Export {
  import opened Wrappers
  import opened Text
  import opened Transcript
  import opened Renderer
  import opened Records

  /** The buffer size at which `write_message` flushes. */
  const BatchLimit: nat := 1000

  const MissingChatSuffix: string := ":Missing_chat_id"

  // ================================================================ one record

  /** `unique_chat_id`: the deduplicated chat id of the message's conversation, else its own
      chat id, else `"<who>:Missing_chat_id"`. */
  function UniqueChatId(conversationId: Option<int>, chatId: Option<int>, who: string): (r: string)
    ensures r != ""
  {
    var deduped := if conversationId.Some? then conversationId else chatId;
    match deduped
    case Some(id) => IntToString(id)
    case None => who + MissingChatSuffix
  }

  /** A printed id is only digits after an optional sign. */
  lemma IntToStringChars(n: int)
    ensures forall i :: 0 <= i < |IntToString(n)| ==> IntToString(n)[i] == '-' || '0' <= IntToString(n)[i] <= '9'
  {
    if n < 0 {
      var digits := NatToString(-n);
      assert forall i :: 1 <= i < |IntToString(n)| ==> IntToString(n)[i] == digits[i - 1];
    }
  }

  /** The fallback id never reads like a printed id: it holds a colon. */
  lemma FallbackIsNotAnId(id: int, who: string)
    ensures IntToString(id) != who + MissingChatSuffix
  {
    IntToStringChars(id);
    var fallback := who + MissingChatSuffix;
    assert fallback[|who|] == ':';
  }

  /** The chat id a record is filed under tells the chats apart: two messages with ids get
      the same unique id only when their ids agree, and a message without any id never
      shares its fallback with one that has an id. */
  lemma UniqueChatIdSeparates(conv1: Option<int>, chat1: Option<int>, who1: string,
                              conv2: Option<int>, chat2: Option<int>, who2: string)
    requires UniqueChatId(conv1, chat1, who1) == UniqueChatId(conv2, chat2, who2)
    ensures (conv1.Some? || chat1.Some?) <==> (conv2.Some? || chat2.Some?)
    ensures conv1.Some? && conv2.Some? ==> conv1 == conv2
    ensures conv1.None? && conv2.None? && chat1.Some? && chat2.Some? ==> chat1 == chat2
  {
    if (conv1.Some? || chat1.Some?) && !(conv2.Some? || chat2.Some?) {
      FallbackIsNotAnId(if conv1.Some? then conv1.value else chat1.value, who2);
    }
    if !(conv1.Some? || chat1.Some?) && (conv2.Some? || chat2.Some?) {
      FallbackIsNotAnId(if conv2.Some? then conv2.value else chat2.value, who1);
    }
    if conv1.Some? && conv2.Some? {
      IntToStringInjective(conv1.value, conv2.value);
    }
    if conv1.None? && conv2.None? && chat1.Some? && chat2.Some? {
      IntToStringInjective(chat1.value, chat2.value);
    }
  }

  /** The paths `format_attachment` resolves, in attachment order; an attachment it fails on
      contributes nothing. */
  function ResolvedPaths(atts: seq<Attachment>): (r: seq<string>)
    ensures |r| <= |atts|
  {
    if atts == [] then []
    else
      var last := atts[|atts| - 1];
      ResolvedPaths(atts[..|atts| - 1]) + (if last.resolved.Ok? then [last.resolved.value] else [])
  }

  /** `attachment_paths`: looked up only when the message says it has attachments; a failed
      lookup gives none. */
  function AttachmentPaths(numAttachments: int, lookup: AttachmentLookup): seq<string> {
    if numAttachments > 0 && lookup.AttachmentsFound? then ResolvedPaths(lookup.items) else []
  }

  /** Every path comes from an attachment that resolved to it. */
  lemma {:induction false} ResolvedPathsSound(atts: seq<Attachment>)
    ensures forall p :: p in ResolvedPaths(atts) ==> exists i :: 0 <= i < |atts| && atts[i].resolved == Ok(p)
    decreases |atts|
  {
    if atts != [] {
      var init := atts[..|atts| - 1];
      ResolvedPathsSound(init);
      forall p | p in ResolvedPaths(atts)
        ensures exists i :: 0 <= i < |atts| && atts[i].resolved == Ok(p)
      {
        if p in ResolvedPaths(init) {
          var i :| 0 <= i < |init| && init[i].resolved == Ok(p);
          assert atts[i] == init[i];
        } else {
          assert atts[|atts| - 1].resolved == Ok(p);
        }
      }
    }
  }

  /** When every attachment resolves, each contributes its path, in order. */
  lemma {:induction false} ResolvedPathsComplete(atts: seq<Attachment>)
    requires forall i :: 0 <= i < |atts| ==> atts[i].resolved.Ok?
    ensures |ResolvedPaths(atts)| == |atts|
    ensures forall i :: 0 <= i < |atts| ==> ResolvedPaths(atts)[i] == atts[i].resolved.value
    decreases |atts|
  {
    if atts != [] {
      var init := atts[..|atts| - 1];
      ResolvedPathsComplete(init);
    }
  }

  /** The attachment loop of `write_message`. */
  method CollectAttachmentPaths(numAttachments: int, lookup: AttachmentLookup) returns (paths: seq<string>)
    ensures paths == AttachmentPaths(numAttachments, lookup)
  {
    paths := [];
    if numAttachments > 0 && lookup.AttachmentsFound? {
      var atts := lookup.items;
      var k := 0;
      while k < |atts|
        invariant k <= |atts|
        invariant paths == ResolvedPaths(atts[..k])
      {
        assert atts[..k + 1][..k] == atts[..k];
        if atts[k].resolved.Ok? {
          paths := paths + [atts[k].resolved.value];
        }
        k := k + 1;
      }
      assert atts[..k] == atts;
    }
  }

  /** One message as the exporter reads it: the message and what `config` knows about its
      chat. */
  datatype ExportInput = ExportInput(
    message: Message,
    /** The deduplicated id of the chat, when `config.conversation` finds one. */
    conversationId: Option<int>,
    chatId: Option<int>,
    /** `config.filename(chatroom)` of the chat, when there is one. */
    threadName: Option<string>,
    numAttachments: int)

  /** The record `write_message` builds around a rendered transcript. */
  function RecordOf(input: ExportInput, full: string): Record {
    var m := input.message;
    Record(
      guid := m.guid,
      text := m.text,
      chatId := input.chatId,
      uniqueChatId := UniqueChatId(input.conversationId, input.chatId, m.sender),
      threadName := input.threadName,
      fullMessage := full,
      attachmentPaths := AttachmentPaths(input.numAttachments, m.attachments),
      phoneNumber := m.sender,
      isFromMe := m.isFromMe,
      isDeleted := m.isDeleted,
      isReply := m.isReply)
  }

  /** The records of a message stream, in order, or the first render failure. */
  function ExportedRecords(cfg: Config, inputs: seq<ExportInput>): Result<seq<Record>, string> {
    if inputs == [] then Ok([])
    else match ExportedRecords(cfg, inputs[..|inputs| - 1])
      case Err(e) => Err(e)
      case Ok(records) =>
        var last := inputs[|inputs| - 1];
        match Render(cfg, last.message, 0)
        case Err(e) => Err(e)
        case Ok(full) => Ok(records + [RecordOf(last, full)])
  }

  /** One more message: its record follows the earlier ones, or its failure is the
      stream's. */
  lemma ExportedRecordsNext(cfg: Config, inputs: seq<ExportInput>, k: nat, records: seq<Record>)
    requires k < |inputs| && ExportedRecords(cfg, inputs[..k]) == Ok(records)
    ensures Render(cfg, inputs[k].message, 0).Err? ==> ExportedRecords(cfg, inputs[..k + 1]).Err?
    ensures Render(cfg, inputs[k].message, 0).Ok? ==>
              ExportedRecords(cfg, inputs[..k + 1]) == Ok(records + [RecordOf(inputs[k], Render(cfg, inputs[k].message, 0).value)])
  {
    assert inputs[..k + 1][..k] == inputs[..k];
  }

  lemma TakeAll(inputs: seq<ExportInput>)
    ensures inputs[..|inputs|] == inputs
  {
  }

  /** A message that fails to render fails the whole stream. */
  lemma {:induction false} ExportedRecordsErrStays(cfg: Config, inputs: seq<ExportInput>, k: nat)
    requires k <= |inputs| && ExportedRecords(cfg, inputs[..k]).Err?
    ensures ExportedRecords(cfg, inputs).Err?
    decreases |inputs| - k
  {
    if k < |inputs| {
      assert inputs[..k + 1][..k] == inputs[..k];
      ExportedRecordsErrStays(cfg, inputs, k + 1);
    } else {
      assert inputs[..k] == inputs;
    }
  }

  // ================================================================ batches

  /** How a finished export has delivered its records: batches of exactly 1000, then one
      last batch of fewer. */
  predicate IsBatching(batches: seq<seq<Record>>) {
    |batches| > 0
    && (forall i :: 0 <= i < |batches| - 1 ==> |batches[i]| == BatchLimit)
    && |batches[|batches| - 1]| < BatchLimit
  }

  /** Batches of exactly 1000 hold 1000 records each. */
  lemma {:induction false} FullBatchesLength(batches: seq<seq<Record>>)
    requires forall i :: 0 <= i < |batches| ==> |batches[i]| == BatchLimit
    ensures |Flatten(batches)| == BatchLimit * |batches|
    decreases |batches|
  {
    if batches != [] {
      FullBatchesLength(batches[..|batches| - 1]);
    }
  }

  /** `n` records go out as `n / 1000` full batches and one last batch of `n % 1000`; the
      last is sent even when it is empty. */
  lemma BatchCounts(batches: seq<seq<Record>>)
    requires IsBatching(batches)
    ensures |batches| == |Flatten(batches)| / BatchLimit + 1
    ensures |batches[|batches| - 1]| == |Flatten(batches)| % BatchLimit
  {
    var init := batches[..|batches| - 1];
    FullBatchesLength(init);
    assert batches == init + [batches[|batches| - 1]];
    FlattenSnoc(init, batches[|batches| - 1]);
  }

  /** For instance 1500 records are sent as a batch of 1000 and then a batch of 500. */
  lemma FifteenHundredRecords(batches: seq<seq<Record>>)
    requires IsBatching(batches) && |Flatten(batches)| == 1500
    ensures |batches| == 2 && |batches[0]| == 1000 && |batches[1]| == 500
  {
    BatchCounts(batches);
  }

  // ================================================================ the exporter

  /** `DB`: the record buffer and the database it drains into. */
  class DbExporter {
    /** `self.messages`: records waiting for the next flush. */
    var messages: seq<Record>
    /** The batches handed to `insert_batch`, oldest first. */
    var sent: seq<seq<Record>>
    /** Whether `create_graph` was asked for. */
    var graphRequested: bool
    /** Every record pushed so far, in order. */
    ghost var written: seq<Record>
    /** `self.database.is_some()`. */
    const connected: bool
    /** Whether `insert_batch` succeeds on a batch. */
    const accepts: seq<Record> -> bool
    /** Whether `create_graph` succeeds. */
    const graphBuilds: bool

    /** Nothing is lost or reordered: what was sent, then what waits, is everything written;
        with a database the buffer never reaches the flush size between calls. */
    ghost predicate Valid()
      reads this
    {
      Flatten(sent) + messages == written && (connected ==> |messages| < BatchLimit)
    }

    constructor (connected: bool, accepts: seq<Record> -> bool, graphBuilds: bool)
      ensures this.connected == connected && this.accepts == accepts && this.graphBuilds == graphBuilds
      ensures messages == [] && sent == [] && written == [] && !graphRequested
      ensures Valid()
    {
      this.connected := connected;
      this.accepts := accepts;
      this.graphBuilds := graphBuilds;
      messages := [];
      sent := [];
      written := [];
      graphRequested := false;
    }

    /** `flush_messages`: with a database, the whole buffer goes to `insert_batch` and the
        buffer is left empty, even when the database refuses it; without one nothing
        happens. */
    method FlushMessages() returns (r: Result<(), string>)
      modifies this
      requires Flatten(sent) + messages == written
      ensures Valid()
      ensures written == old(written) && graphRequested == old(graphRequested)
      ensures !connected ==> messages == old(messages) && sent == old(sent) && r.Ok?
      ensures connected ==> messages == [] && sent == old(sent) + [old(messages)]
      ensures connected ==> (r.Ok? <==> accepts(old(messages)))
    {
      r := Ok(());
      if connected {
        var batch := messages;
        messages := [];
        FlattenSnoc(sent, batch);
        sent := sent + [batch];
        if !accepts(batch) {
          r := Err("insert_batch failed");
        }
      }
    }

    /** `write_message`: the rendered record is pushed at the end of the buffer, which is
        flushed when it reaches 1000 records; a message that fails to render changes
        nothing. */
    method WriteMessage(cfg: Config, input: ExportInput) returns (r: Result<(), string>)
      modifies this
      requires Valid()
      ensures Valid()
      ensures graphRequested == old(graphRequested)
      ensures Render(cfg, input.message, 0).Err? ==>
                r == Err(Render(cfg, input.message, 0).error) && messages == old(messages)
                && sent == old(sent) && written == old(written)
      ensures Render(cfg, input.message, 0).Ok? ==>
                var record := RecordOf(input, Render(cfg, input.message, 0).value);
                written == old(written) + [record]
                && if connected && |old(messages)| + 1 == BatchLimit
                   then messages == [] && sent == old(sent) + [old(messages) + [record]]
                        && (r.Ok? <==> accepts(old(messages) + [record]))
                   else messages == old(messages) + [record] && sent == old(sent) && r.Ok?
    {
      var built := BuildRecord(cfg, input);
      if built.Err? {
        return Err(built.error);
      }
      r := PushRecord(built.value);
    }

    /** The record of one message: its rendered text and the fields taken from the message
        and its chat, or the render's failure. */
    static method BuildRecord(cfg: Config, input: ExportInput) returns (r: Result<Record, string>)
      ensures Render(cfg, input.message, 0).Err? ==> r == Err(Render(cfg, input.message, 0).error)
      ensures Render(cfg, input.message, 0).Ok? ==> r == Ok(RecordOf(input, Render(cfg, input.message, 0).value))
    {
      var m := input.message;
      var uniqueChatId := UniqueChatId(input.conversationId, input.chatId, m.sender);
      var full := FormatMessage(cfg, m, 0);
      if full.Err? {
        return Err(full.error);
      }
      var paths := CollectAttachmentPaths(input.numAttachments, m.attachments);
      r := Ok(Record(
        guid := m.guid,
        text := m.text,
        chatId := input.chatId,
        uniqueChatId := uniqueChatId,
        threadName := input.threadName,
        fullMessage := full.value,
        attachmentPaths := paths,
        phoneNumber := m.sender,
        isFromMe := m.isFromMe,
        isDeleted := m.isDeleted,
        isReply := m.isReply));
    }

    /** The record goes at the end of the buffer, and a buffer that reaches 1000 records is
        flushed. */
    method PushRecord(record: Record) returns (r: Result<(), string>)
      modifies this
      requires Valid()
      ensures Valid()
      ensures graphRequested == old(graphRequested)
      ensures written == old(written) + [record]
      ensures connected && |old(messages)| + 1 == BatchLimit ==>
                messages == [] && sent == old(sent) + [old(messages) + [record]]
                && (r.Ok? <==> accepts(old(messages) + [record]))
      ensures !(connected && |old(messages)| + 1 == BatchLimit) ==>
                messages == old(messages) + [record] && sent == old(sent) && r.Ok?
    {
      messages := messages + [record];
      written := written + [record];
      r := Ok(());
      if |messages| >= BatchLimit {
        r := FlushMessages();
      }
    }

    /** `iter_messages`: every message written in order, then the final flush, then the
        graph; the first failure stops the export. A finished export has delivered every
        record, in order, in batches of 1000 and one last shorter batch. */
    method ExportAll(cfg: Config, inputs: seq<ExportInput>) returns (r: Result<(), string>)
      modifies this
      requires Valid() && written == [] && sent == []
      ensures Valid()
      ensures r.Ok? ==> ExportedRecords(cfg, inputs) == Ok(written)
      ensures r.Ok? && connected ==> messages == [] && IsBatching(sent) && graphRequested
      ensures r.Ok? && !connected ==> messages == written && sent == []
      ensures ExportedRecords(cfg, inputs).Ok? && (forall batch :: accepts(batch)) && graphBuilds ==> r.Ok?
    {
      r := WriteAll(cfg, inputs);
      if r.Err? {
        return;
      }
      var flushed := FlushMessages();
      if flushed.Err? {
        return flushed;
      }
      if connected {
        graphRequested := true;
        if !graphBuilds {
          return Err("create_graph failed");
        }
      }
    }

    /** The loop of `iter_messages`: each message written in turn until one fails. Only
        full batches have gone out when it ends. */
    method WriteAll(cfg: Config, inputs: seq<ExportInput>) returns (r: Result<(), string>)
      modifies this
      requires Valid() && written == [] && sent == []
      ensures Valid() && graphRequested == old(graphRequested)
      ensures r.Ok? ==> ExportedRecords(cfg, inputs) == Ok(written) && r == Ok(())
      ensures forall i :: 0 <= i < |sent| ==> |sent[i]| == BatchLimit
      ensures !connected ==> sent == []
      ensures ExportedRecords(cfg, inputs).Ok? && (forall batch :: accepts(batch)) ==> r.Ok?
    {
      var k := 0;
      while k < |inputs|
        invariant k <= |inputs|
        invariant Valid() && graphRequested == old(graphRequested)
        invariant ExportedRecords(cfg, inputs[..k]) == Ok(written)
        invariant forall i :: 0 <= i < |sent| ==> |sent[i]| == BatchLimit
        invariant !connected ==> sent == []
      {
        var wrote := WriteNext(cfg, inputs, k);
        if wrote.Err? {
          return wrote;
        }
        k := k + 1;
      }
      TakeAll(inputs);
      r := Ok(());
    }

    /** One turn of that loop: the record of message `k` joins those before it, or the
        export stops because the message does not render or the database refused a batch. */
    method WriteNext(cfg: Config, inputs: seq<ExportInput>, k: nat) returns (r: Result<(), string>)
      modifies this
      requires k < |inputs| && Valid() && ExportedRecords(cfg, inputs[..k]) == Ok(written)
      requires forall i :: 0 <= i < |sent| ==> |sent[i]| == BatchLimit
      requires !connected ==> sent == []
      ensures Valid() && graphRequested == old(graphRequested)
      ensures r.Ok? ==> ExportedRecords(cfg, inputs[..k + 1]) == Ok(written)
      ensures forall i :: 0 <= i < |sent| ==> |sent[i]| == BatchLimit
      ensures !connected ==> sent == []
      ensures r.Err? ==> ExportedRecords(cfg, inputs).Err? || exists batch :: !accepts(batch)
    {
      ExportedRecordsNext(cfg, inputs, k, written);
      ghost var rendered := Render(cfg, inputs[k].message, 0);
      ghost var waiting := messages;
      r := WriteMessage(cfg, inputs[k]);
      if r.Err? {
        if rendered.Err? {
          ExportedRecordsErrStays(cfg, inputs, k + 1);
        } else {
          assert !accepts(waiting + [RecordOf(inputs[k], rendered.value)]);
        }
      }
    }
  }
}
