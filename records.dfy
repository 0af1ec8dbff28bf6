/**
 * The record every database back end receives (`lib_db::Message`), the bytes the socket
 * back end moves, and the JSON encoding (`serde_json`) the records travel in, taken as an
 * opaque encoder and decoder.
 */
module Records {
  import opened Wrappers

  newtype byte = x: int | 0 <= x < 256

  /** `lib_db::Message`, limited to the fields the exporter computes rather than copies:
      the ids, the rendered transcript, the attachment paths and the flags. */
  datatype Record = Record(
    guid: string,
    text: Option<string>,
    chatId: Option<int>,
    uniqueChatId: string,
    threadName: Option<string>,
    fullMessage: string,
    attachmentPaths: seq<string>,
    phoneNumber: string,
    isFromMe: bool,
    isDeleted: bool,
    isReply: bool)

  /** `serde_json::to_vec` and `serde_json::from_slice` for a list of records. */
  datatype Json = Json(encode: seq<Record> -> seq<byte>, decode: seq<byte> -> Option<seq<Record>>)

  /** The encoder and decoder agree: whatever is encoded decodes back to itself. */
  ghost predicate RoundTrips(json: Json) {
    forall batch :: json.decode(json.encode(batch)) == Some(batch)
  }

  /** Batches concatenated in the order they were delivered. */
  function Flatten(batches: seq<seq<Record>>): seq<Record> {
    if batches == [] then [] else Flatten(batches[..|batches| - 1]) + batches[|batches| - 1]
  }

  /** Delivering one more batch appends its records after all the earlier ones. */
  lemma FlattenSnoc(batches: seq<seq<Record>>, batch: seq<Record>)
    ensures Flatten(batches + [batch]) == Flatten(batches) + batch
  {
    assert (batches + [batch])[..|batches|] == batches;
  }
}
