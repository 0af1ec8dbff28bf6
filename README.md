# imessage-exporter: the transcript renderer and the export sinks, in Dafny

This project models the core of imessage-exporter's database export:

- **The transcript renderer** of `exporters/db.rs`. `format_message` turns one iMessage into text:
  - a time line, a sender line and a deletion notice;
  - the subject, the SharePlay notice and the shared-location notice;
  - every body part in turn: text slices, attachments, stickers, app balloons, and edited or unsent parts;
  - after each part, its expressive label, its tapbacks and its replies, each reply rendered at indentation 4;
  - a reply note and a blank line, both only at the top level.
  
  All balloon formatters are modelled as well.
- **The export buffer** of `exporters/db.rs`. `write_message` builds one record per message and buffers it. `flush_messages` hands every 1000 records to the database, and the export ends with a last flush and a graph request.
- **The `DbValue` conversions** and `DbMessage` of `exporters/database.rs`.
- **The lib_db back ends:**
  - the Unix-socket client and its test server (`I` + big-endian u32 length + JSON, `F`, reply `K`/`E`), and the two together;
  - the HTTP back end and its test server;
  - the SurrealDB back end.

Each module follows one source file. Code that builds strings or state step by step is modelled by a method with loops or by a class. Each such method is proved equal to a specification function, and the lemmas state what the source promises about those functions. Things outside the core are parameters:
- who sent a message, date formatting and `readable_diff`;
- the payload decoders, attachment resolution and replies;
- JSON;
- the database's answers.

Modules:

- `Wrappers`: `Option` and `Result`.
- `Text`: `add_line`, indentation, decimal printing, and `str::get` on UTF-8 byte offsets.
- `Transcript`: the message data model and the small pure formatters.
- `BalloonFormatter`: the balloon formatters.
- `Renderer`: `format_message`, `format_edited` and `format_app`.
- `Records`: the exported record.
- `Export`: `write_message`, `flush_messages` and the export loop.
- `DatabaseValues`: the `From` conversions and `DbMessage`.
- `Wire`: the socket frame format.
- `SocketClient` and `SocketServer`: the two ends of the socket.
- `Protocol`: the two socket ends together.
- `HttpServer`, `Surreal` and `Http`: the other back ends.

Two behaviours of the code worth knowing:
- the HTTP back end posts each batch to the base URL itself (lib_db/src/databases/http.rs:67);
- a failed `format_app` never aborts a message: it is rendered inline as "Unable to format app message: …" (imessage-exporter/src/exporters/db.rs:415-423).

## Model

| member | source | states |
|---|---|---|
| Text.Line | imessage-exporter/src/exporters/db.rs:271-277 | the line `add_line` contributes is empty exactly when the part is empty |
| Text.LineShape | imessage-exporter/src/exporters/db.rs:271-277 | a non-empty part becomes one line: it starts with the indentation and ends with a newline |
| Text.AppendLineIsLine | imessage-exporter/src/exporters/db.rs:271-277 | `add_line` appends exactly indent, part and newline, or nothing for an empty part |
| Text.AppendLineExtends | imessage-exporter/src/exporters/db.rs:271-277 | the text only grows; it grows iff the part is non-empty, and then ends with a newline |
| Text.AddLine | imessage-exporter/src/exporters/db.rs:271-277 | the in-place `push_str` sequence produces exactly the specified line |
| Text.Spaces | imessage-exporter/src/exporters/db.rs:290 | the indentation of depth n is n spaces |
| Text.StripNewline | imessage-exporter/src/exporters/db.rs:824 | at most one trailing newline is removed, and only when present |
| Text.ReplaceAllAtStart | imessage-exporter/src/exporters/db.rs:380-385 | a text starting with the placeholder starts, once replaced, with the replacement |
| Text.ReplaceAllSame | imessage-exporter/src/exporters/db.rs:962-977 | replacing a pattern by itself leaves the text unchanged |
| Text.ReplaceAllAbsent | imessage-exporter/src/exporters/db.rs:962-977 | a one-character pattern that does not occur leaves the text unchanged |
| Text.NatToString | imessage-exporter/src/exporters/db.rs:160-165 | a printed id is a non-empty run of decimal digits |
| Text.ParseNatToString | imessage-exporter/src/exporters/db.rs:160-165 | reading the printed digits back gives the number |
| Text.IntToStringInjective | imessage-exporter/src/exporters/db.rs:160-165 | distinct ids print differently |
| Text.Utf8Width | imessage-exporter/src/exporters/db.rs:363-366 | a character takes one to four UTF-8 bytes |
| Text.ByteLen | imessage-exporter/src/exporters/db.rs:363-366 | a text's byte length is at least its character count |
| Text.ByteLenConcat | imessage-exporter/src/exporters/db.rs:363-366 | byte lengths add up over concatenation |
| Text.ByteLenPrefixGrows | imessage-exporter/src/exporters/db.rs:363-366 | a longer prefix spans strictly more bytes |
| Text.CharIndex | imessage-exporter/src/exporters/db.rs:363-366 | a found character index is one whose prefix spans exactly the given bytes |
| Text.CharIndexComplete | imessage-exporter/src/exporters/db.rs:363-366 | every character index is found again from its byte offset: the boundaries are exactly the prefix lengths |
| Text.ByteSlice | imessage-exporter/src/exporters/db.rs:363-366 | a slice taken by `str::get` spans exactly end - start bytes |
| Text.ByteSliceAccepts | imessage-exporter/src/exporters/db.rs:363-366 | an ordered pair of character boundaries is always accepted |
| Text.ByteSliceSound | imessage-exporter/src/exporters/db.rs:363-366 | an accepted range is ordered, on boundaries, and gives the characters between them |
| Text.ByteSliceSpec | imessage-exporter/src/exporters/db.rs:363-366 | `str::get` succeeds iff the range is ordered with both ends on character boundaries, then gives the characters between, empty iff start = end |
| Transcript.EditedPartAt | imessage-exporter/src/exporters/db.rs:724-727 | a part's edit record exists iff the message has edit data covering that index |
| Transcript.YouName | imessage-exporter/src/exporters/db.rs:762-764 | without a custom name, the owner is "You" |
| Transcript.TimeLine | imessage-exporter/src/exporters/db.rs:256-270 | the time line is the bare date iff there is no read-after text |
| Transcript.TimeLineShape | imessage-exporter/src/exporters/db.rs:256-270 | the line starts with the date and, when read, ends with "after ...)" |
| Transcript.StickerText | imessage-exporter/src/exporters/db.rs:520-540 | a sticker always renders a non-empty line |
| Transcript.StickerTextShape | imessage-exporter/src/exporters/db.rs:520-540 | it ends with the sender and the sticker's path or its error, after any effect name |
| Transcript.TapbackText | imessage-exporter/src/exporters/db.rs:616-648 | a removed reaction renders nothing and an added one something; only a sticker tapback whose attachments fail is an error |
| Transcript.ReactionNamesActor | imessage-exporter/src/exporters/db.rs:622-628 | an added reaction names who reacted |
| Transcript.ExpressiveText | imessage-exporter/src/exporters/db.rs:650-674 | screen and bubble effects read "Sent with ...", an unknown one is its id, no effect is empty |
| Transcript.ExpressiveLabelsDistinct | imessage-exporter/src/exporters/db.rs:650-674 | distinct effects get distinct labels |
| Transcript.SharedLocationText | imessage-exporter/src/exporters/db.rs:707-715 | started, else stopped, else plain shared location |
| Transcript.AnnouncementText | imessage-exporter/src/exporters/db.rs:676-701 | an unreadable announcement renders the fixed error text |
| Transcript.AnnouncementEndsBlank | imessage-exporter/src/exporters/db.rs:676-701 | every announcement ends with a blank line |
| Transcript.AnnouncementNamesActor | imessage-exporter/src/exporters/db.rs:676-701 | every readable announcement opens with the date and who acted |
| BalloonFormatter.Field | imessage-exporter/src/exporters/db.rs:808-822 | a missing field adds nothing, a present one adds its line |
| BalloonFormatter.PushField | imessage-exporter/src/exporters/db.rs:808-822 | the method appends exactly that field's line |
| BalloonFormatter.Header | imessage-exporter/src/exporters/db.rs:853-860 | the "<name> message:" header appears iff indentation or name is non-empty |
| BalloonFormatter.UrlText | imessage-exporter/src/exporters/db.rs:806-826 | the url balloon is its field lines less one trailing newline |
| BalloonFormatter.FormatUrl | imessage-exporter/src/exporters/db.rs:806-826 | the method builds exactly the url balloon |
| BalloonFormatter.MusicText | imessage-exporter/src/exporters/db.rs:827-848 | empty iff every field is blank, and otherwise ends with a newline, which is not stripped |
| BalloonFormatter.FormatMusic | imessage-exporter/src/exporters/db.rs:827-848 | the method builds exactly the music balloon |
| BalloonFormatter.CollaborationText | imessage-exporter/src/exporters/db.rs:849-873 | header and lines less one trailing newline |
| BalloonFormatter.FormatCollaboration | imessage-exporter/src/exporters/db.rs:849-873 | the method builds exactly the collaboration balloon |
| BalloonFormatter.AppStoreText | imessage-exporter/src/exporters/db.rs:874-900 | the lines less one trailing newline when they end in one, else unchanged; with every field blank, only the (stripped) leading indentation |
| BalloonFormatter.FormatAppStore | imessage-exporter/src/exporters/db.rs:874-900 | the method builds exactly the App Store balloon |
| BalloonFormatter.PlacemarkText | imessage-exporter/src/exporters/db.rs:901-955 | the lines less one trailing newline when they end in one, else unchanged; with every field blank, only the (stripped) indentation |
| BalloonFormatter.PlacemarkBlank | imessage-exporter/src/exporters/db.rs:901-955 | with all twelve fields blank the placemark lines are the bare indentation |
| BalloonFormatter.FormatPlacemark | imessage-exporter/src/exporters/db.rs:901-955 | the method builds exactly the placemark balloon |
| BalloonFormatter.HandwritingText | imessage-exporter/src/exporters/db.rs:956-979 | the saved image path when the manager saved one, else the ASCII drawing, unchanged at the top level |
| BalloonFormatter.HandwritingUnindented | imessage-exporter/src/exporters/db.rs:962-977 | indentation changes a drawing only when nested and multi-line |
| BalloonFormatter.FormatHandwriting | imessage-exporter/src/exporters/db.rs:956-979 | the method builds exactly the handwriting text |
| BalloonFormatter.ApplePayText | imessage-exporter/src/exporters/db.rs:980-995 | the amount, or "unknown amount", closes the line, after "<caption> transaction: " |
| BalloonFormatter.FormatApplePay | imessage-exporter/src/exporters/db.rs:980-995 | the method builds exactly the Apple Pay text |
| BalloonFormatter.FitnessText | imessage-exporter/src/exporters/db.rs:996-1009 | the workout, or "unknown workout", closes the line, after "<app> message: " |
| BalloonFormatter.FormatFitness | imessage-exporter/src/exporters/db.rs:996-1009 | the method builds exactly the Fitness text |
| BalloonFormatter.SlideshowText | imessage-exporter/src/exporters/db.rs:1010-1024 | the album title then the url; neither gives the bare indentation |
| BalloonFormatter.FormatSlideshow | imessage-exporter/src/exporters/db.rs:1010-1024 | the method builds exactly the slideshow text |
| BalloonFormatter.FindMyText | imessage-exporter/src/exporters/db.rs:1025-1039 | the app name then the status; neither gives the bare indentation |
| BalloonFormatter.FormatFindMy | imessage-exporter/src/exporters/db.rs:1025-1039 | the method builds exactly the Find My text |
| BalloonFormatter.CheckInText | imessage-exporter/src/exporters/db.rs:1040-1082 | the caption or "Check In", then the first present of end time, trigger time and send date, each with its own wording |
| BalloonFormatter.FormatCheckIn | imessage-exporter/src/exporters/db.rs:1040-1082 | the method builds exactly the check-in text |
| BalloonFormatter.GenericAppText | imessage-exporter/src/exporters/db.rs:1083-1128 | header and lines less one trailing newline |
| BalloonFormatter.FormatGenericApp | imessage-exporter/src/exporters/db.rs:1083-1128 | the method builds exactly the generic app balloon |
| Renderer.UnsenderName | imessage-exporter/src/exporters/db.rs:761-765 | the owner's own name for their messages, "They" otherwise |
| Renderer.EditedText | imessage-exporter/src/exporters/db.rs:717-793 | nothing iff no edit record or status Original; the unsent notice for Unsent; the edit chain for Edited |
| Renderer.FormatEdited | imessage-exporter/src/exporters/db.rs:717-793 | the method gives exactly the edited-part text |
| Renderer.FormatEditHistory | imessage-exporter/src/exporters/db.rs:729-758 | the loop with its previous timestamp builds exactly the edit chain |
| Renderer.EditChainPrefix | imessage-exporter/src/exporters/db.rs:729-758 | the first n edits render the same whatever follows them |
| Renderer.EditChainGrows | imessage-exporter/src/exporters/db.rs:729-758 | each edit only appends to the chain |
| Renderer.EditChainOpensWithDate | imessage-exporter/src/exporters/db.rs:733-741 | the chain opens with the first edit's absolute date |
| Renderer.EditChainClosesWithLatest | imessage-exporter/src/exporters/db.rs:750-757 | the chain ends with the latest edit's text on its own line |
| Renderer.AppText | imessage-exporter/src/exporters/db.rs:542-614 | no balloon is the wrong-type error, no payload is the no-payload error, and a url balloon without a readable payload falls back to the message text |
| Renderer.FormatApp | imessage-exporter/src/exporters/db.rs:542-614 | the method dispatches exactly as specified |
| Renderer.FormatUrlBalloon | imessage-exporter/src/exporters/db.rs:563-576 | each url override kind goes to its own formatter |
| Renderer.FormatAppBalloon | imessage-exporter/src/exporters/db.rs:580-598 | each app kind goes to its own formatter |
| Renderer.FormatTextPart | imessage-exporter/src/exporters/db.rs:361-388 | the slice loop, taking each range as UTF-8 byte offsets through `str::get`, gives exactly the specified text part |
| Renderer.SlicesEmpty | imessage-exporter/src/exporters/db.rs:363-378 | the slices are empty iff no range is usable: non-empty with both byte offsets on character boundaries of the text |
| Renderer.TextPartFallsBack | imessage-exporter/src/exporters/db.rs:375-388 | when no range is usable in that byte-offset sense, the whole text is used |
| Renderer.ByteRangesCoverText | imessage-exporter/src/exporters/db.rs:363-366 | ranges count bytes: 0..2 and 2..4 cover "é a" whole, and 0..1, which splits "é", is skipped |
| Renderer.TextPartNamesReceiver | imessage-exporter/src/exporters/db.rs:380-385 | a fitness placeholder at the start is replaced by "You" |
| Renderer.AttachmentStep | imessage-exporter/src/exporters/db.rs:392-413 | the slot advances iff a non-sticker attachment resolved, and otherwise stays; a line is added unless the resolved text is empty |
| Renderer.ContentStepSlot | imessage-exporter/src/exporters/db.rs:341-439 | only attachment parts move the slot, by at most one, and never past the attachments |
| Renderer.PartsSlot | imessage-exporter/src/exporters/db.rs:341-487 | over the whole body the slot stays within the attachments |
| Renderer.FormatContent | imessage-exporter/src/exporters/db.rs:342-439 | the method renders exactly the specified part content and slot |
| Renderer.FormatEditedPart | imessage-exporter/src/exporters/db.rs:344-359 | the method adds exactly the edited-part line when there is one |
| Renderer.TapbackLinesEmpty | imessage-exporter/src/exporters/db.rs:449-462 | the tapback lines are empty iff every tapback renders empty |
| Renderer.TapbackHeaderShown | imessage-exporter/src/exporters/db.rs:446-469 | the "Tapbacks:" block appears iff some tapback of the part renders non-empty |
| Renderer.FormatTapbacks | imessage-exporter/src/exporters/db.rs:449-462 | the loop gives exactly the specified tapback lines or the first error |
| Renderer.TapbackLinesErrStays | imessage-exporter/src/exporters/db.rs:450-462 | a tapback error ends the loop with that error |
| Renderer.TapbackLinesNext | imessage-exporter/src/exporters/db.rs:449-462 | one more tapback: its error ends the lines, an empty text adds nothing, any other text adds its line |
| Renderer.RenderBody | imessage-exporter/src/exporters/db.rs:319-320 | failing to load attachments or replies fails the render with that error |
| Renderer.RenderBodyShape | imessage-exporter/src/exporters/db.rs:289-487 | a rendered body starts with its header and consists of whole lines |
| Renderer.TopLevelEndsBlank | imessage-exporter/src/exporters/db.rs:498-501 | a top-level render ends with a blank line |
| Renderer.NestedRenderIsBody | imessage-exporter/src/exporters/db.rs:489-501 | a nested render gets neither the reply note nor the extra newline |
| Renderer.TopLevelReplyNotice | imessage-exporter/src/exporters/db.rs:489-496 | a top-level reply ends with the reply note and a blank line |
| Renderer.FinishEndsBlank | imessage-exporter/src/exporters/db.rs:489-501 | finishing a body of whole lines at the top level ends it with a blank line |
| Renderer.FinishReplyNotice | imessage-exporter/src/exporters/db.rs:489-496 | finishing a top-level reply ends it with the reply note and a blank line |
| Renderer.FormatMessage | imessage-exporter/src/exporters/db.rs:289-504 | the method renders exactly the specified message |
| Renderer.FormatBody | imessage-exporter/src/exporters/db.rs:341-487 | the part loop renders exactly the specified body |
| Renderer.RenderPart | imessage-exporter/src/exporters/db.rs:341-487 | one loop iteration renders exactly the specified part |
| Renderer.FormatHeader | imessage-exporter/src/exporters/db.rs:294-315 | the method builds exactly the time, sender and deletion lines |
| Renderer.FormatPreamble | imessage-exporter/src/exporters/db.rs:325-338 | the method builds exactly the subject, SharePlay and location lines |
| Renderer.FormatReplies | imessage-exporter/src/exporters/db.rs:471-486 | the reply loop gives exactly the specified lines or the first error |
| Renderer.PartsErrStays | imessage-exporter/src/exporters/db.rs:341-487 | an error in one part is the render's error |
| Renderer.ReplyLinesErrStays | imessage-exporter/src/exporters/db.rs:473-485 | an error in one reply is the result |
| Renderer.ReplyLinesAddsLines | imessage-exporter/src/exporters/db.rs:471-486 | replies only append whole lines |
| Renderer.PartsAddsLines | imessage-exporter/src/exporters/db.rs:341-487 | the body only appends whole lines |
| Renderer.AfterPartAddsLines | imessage-exporter/src/exporters/db.rs:341-487 | if the parts so far only appended whole lines, so does the next part |
| Renderer.HeaderAddsLines | imessage-exporter/src/exporters/db.rs:294-315 | the header is whole lines |
| Renderer.PreambleAddsLines | imessage-exporter/src/exporters/db.rs:325-338 | the preamble only appends whole lines |
| Export.UniqueChatId | imessage-exporter/src/exporters/db.rs:157-172 | the chat id is never empty |
| Export.FallbackIsNotAnId | imessage-exporter/src/exporters/db.rs:163-171 | the "<who>:Missing_chat_id" fallback never equals a printed id |
| Export.UniqueChatIdSeparates | imessage-exporter/src/exporters/db.rs:157-172 | equal chat ids come from the same conversation id, or the same chat id, or both fall back |
| Export.ResolvedPaths | imessage-exporter/src/exporters/db.rs:190-199 | at most one path per attachment |
| Export.ResolvedPathsSound | imessage-exporter/src/exporters/db.rs:190-199 | every path is that of an attachment that resolved |
| Export.ResolvedPathsComplete | imessage-exporter/src/exporters/db.rs:190-199 | when all resolve, the paths are theirs, in order |
| Export.CollectAttachmentPaths | imessage-exporter/src/exporters/db.rs:190-199 | the loop collects exactly the specified paths |
| Export.ExportedRecordsErrStays | imessage-exporter/src/exporters/db.rs:186-188 | a message that fails to render fails the export |
| Export.ExportedRecordsNext | imessage-exporter/src/exporters/db.rs:74-131 | one more message: a render failure fails the export, a rendered one appends its record |
| Export.FullBatchesLength | imessage-exporter/src/exporters/db.rs:246-251 | full batches hold 1000 records each |
| Export.BatchCounts | imessage-exporter/src/exporters/db.rs:246-251 | n records make n/1000 full batches and a last one of n mod 1000 |
| Export.FifteenHundredRecords | imessage-exporter/src/exporters/db.rs:246-251 | 1500 records are sent as 1000 and then 500 |
| Export.DbExporter.FlushMessages | imessage-exporter/src/exporters/db.rs:278-285 | with a database, the buffer is sent whole and emptied, and the result is the sink's; without one nothing changes |
| Export.DbExporter.WriteMessage | imessage-exporter/src/exporters/db.rs:156-254 | a render failure changes nothing; otherwise the record is buffered, and the 1000th is flushed with the buffer |
| Export.DbExporter.ExportAll | imessage-exporter/src/exporters/db.rs:74-131 | on success every message's record was written in order, all batches were sent and the graph requested; every step succeeding means success |
| Export.DbExporter.BuildRecord | imessage-exporter/src/exporters/db.rs:156-244 | a render failure is the result; otherwise the record of that message and its rendered text |
| Export.DbExporter.PushRecord | imessage-exporter/src/exporters/db.rs:246-251 | the record is written and buffered; the 1000th buffered record sends the batch and empties the buffer, and the result is the database's verdict |
| Export.DbExporter.WriteNext | imessage-exporter/src/exporters/db.rs:74-131 | after one more message the written records are those of the messages so far; a failure is a render failure or a refused batch |
| Export.DbExporter.WriteAll | imessage-exporter/src/exporters/db.rs:74-131 | on success the records of every message were written in order; only full batches were sent; nothing fails when every render succeeds and every batch is accepted |
| DatabaseValues.FromI64 | imessage-exporter/src/exporters/database.rs:55-59 | an i64 becomes the same integer |
| DatabaseValues.FromI32 | imessage-exporter/src/exporters/database.rs:61-65 | an i32 becomes the same integer |
| DatabaseValues.IntegerWidthsAgree | imessage-exporter/src/exporters/database.rs:55-65 | an i32 converts as its i64 widening does |
| DatabaseValues.FromText | imessage-exporter/src/exporters/database.rs:67-77 | a string becomes text with the same content |
| DatabaseValues.FromBool | imessage-exporter/src/exporters/database.rs:79-83 | a bool becomes the same boolean |
| DatabaseValues.FromUnit | imessage-exporter/src/exporters/database.rs:85-89 | unit becomes null |
| DatabaseValues.FromOption | imessage-exporter/src/exporters/database.rs:91-98 | None is null, Some converts as its value |
| DatabaseValues.FromVec | imessage-exporter/src/exporters/database.rs:100-104 | an array of the same length, element by element |
| DatabaseValues.ConversionsInjective | imessage-exporter/src/exporters/database.rs:55-98 | integer and text conversions lose nothing; Some is never null |
| DatabaseValues.NestedConversion | imessage-exporter/src/exporters/database.rs:91-104 | nested options and vectors keep their shape |
| DatabaseValues.DbMessage.constructor | imessage-exporter/src/exporters/database.rs:43-47 | a new message has no fields |
| DatabaseValues.DbMessage.Insert | imessage-exporter/src/exporters/database.rs:49-51 | the key holds the converted value, overwriting, and every other key is unchanged |
| DatabaseValues.SurrealDbExporter.InsertMessages | imessage-exporter/src/exporters/database.rs:14-17 | always succeeds |
| DatabaseValues.SurrealDbExporter.Flush | imessage-exporter/src/exporters/database.rs:19-22 | always succeeds |
| Wire.U32BE | lib_db/src/databases/socket.rs:53 | a length below 2^32 is four bytes |
| Wire.FromU32BE | lib_db/examples/socket.rs:85-86 | four bytes read as a length below 2^32 |
| Wire.U32RoundTrip | lib_db/examples/socket.rs:85-86 | the server reads back the length the client wrote |
| Wire.U32BytesRoundTrip | lib_db/src/databases/socket.rs:53 | writing back a length read from four bytes gives those bytes |
| Wire.LengthField | lib_db/src/databases/socket.rs:53 | the `as u32` length equals the payload length when it fits |
| Wire.Frame | lib_db/src/databases/socket.rs:51-54 | every command writes at least its command byte |
| SocketServer.Step | lib_db/examples/socket.rs:82-110 | each whole command consumes its bytes and gets one reply; an `E` keeps nothing; a cut-off insert ends the loop |
| SocketServer.ServerState.HandleCommand | lib_db/examples/socket.rs:82-110 | the state update of one command: decoded messages counted and appended; the guid set untouched |
| SocketServer.ServerState.RunServer | lib_db/examples/socket.rs:76-113 | the loop sends the specified replies, keeps the specified messages and counts them, and ends as specified |
| SocketServer.RepliesAreCodes | lib_db/examples/socket.rs:81-112 | every reply is `K` or `E`, at most one per input byte |
| SocketClient.SocketPath | lib_db/src/databases/socket.rs:21-29 | `DBPATH` or the default socket |
| SocketClient.SocketPathAbsolute | lib_db/src/databases/socket.rs:21-29 | the path is always absolute, and `DBPATH` is taken iff it is absolute |
| SocketClient.ReadReply | lib_db/src/databases/socket.rs:57-61 | success iff the byte read is `K`; no byte is the stream error |
| SocketClient.ClientStep | lib_db/src/databases/socket.rs:43-77 | a call reads at most one reply |
| SocketClient.ClientSession | lib_db/src/databases/socket.rs:43-77 | one outcome per call |
| SocketClient.SocketDatabase.Create | lib_db/src/databases/socket.rs:18-39 | a connection failure is returned; otherwise the database holds the chosen path and the stream |
| SocketClient.SocketDatabase.InsertBatch | lib_db/src/databases/socket.rs:43-65 | writes exactly one insert frame and reads one reply; without a stream it succeeds and does nothing |
| SocketClient.SocketDatabase.Flush | lib_db/src/databases/socket.rs:67-77 | writes `F`, reads nothing and succeeds |
| SocketClient.SocketDatabase.FlushAcked | lib_db/examples/socket.rs:106-108 | writes `F` and reads the server's reply |
| Protocol.ReplyTo | lib_db/examples/socket.rs:92-109 | every reply is `K` or `E`, and a flush is always acknowledged |
| Protocol.ServerReplies | lib_db/examples/socket.rs:81-112 | one reply per command, each the reply to that command |
| Protocol.StepFrame | lib_db/examples/socket.rs:83-108 | the server reads a client frame as exactly that command, wherever it sits |
| Protocol.ServeFrames | lib_db/examples/socket.rs:81-112 | the server reads the client's frames back as the same commands, in order, and ends cleanly |
| Protocol.WireRoundTrip | lib_db/examples/socket.rs:11-25 | with an agreeing encoder and decoder, every command is acknowledged and the server keeps exactly the inserted records, in order |
| Protocol.KeptIsInserted | lib_db/examples/socket.rs:92-98 | the server keeps exactly the inserted records |
| Protocol.AckedClientInStep | lib_db/src/databases/socket.rs:57-61 | a client that reads every reply takes the k-th reply as its k-th answer |
| Protocol.AckedClientAgrees | lib_db/examples/socket.rs:11-25 | with acknowledged flushes, each call succeeds iff the server accepted that command |
| Protocol.FlushLeavesReplyUnread | lib_db/src/databases/socket.rs:67-77 | after a flush, an insert the server refuses is reported as a success |
| HttpServer.SeenAfterIsUnion | lib_db/examples/server.rs:55-59 | the guid set grows by exactly the batch's guids |
| HttpServer.DuplicatesAccountForBatch | lib_db/examples/server.rs:55-59 | each message either adds a new guid or raises one warning, and every warned guid is recorded |
| HttpServer.ServerState.HandleMessages | lib_db/examples/server.rs:47-65 | 200; every guid recorded, duplicates only warned; the batch counted and appended in order |
| HttpServer.ServerState.HandleFlush | lib_db/examples/server.rs:67-86 | 200 with the number of held messages, which are dropped; counter and guids unchanged |
| HttpServer.IngestThenFlush | lib_db/examples/server.rs:195-208 | one message in, then a flush, reports one message |
| Surreal.Credentials | lib_db/src/databases/surreal.rs:63-66 | `DBUSER`/`DBPASS` only when both are set, else root/root |
| Surreal.DefaultPath | lib_db/src/databases/surreal.rs:74-77 | the cache directory's `export/db`, or `/export/db` |
| Surreal.LocalOrFallback | lib_db/src/databases/surreal.rs:83-87 | RocksDB in the directory if it can be created, else the WebSocket server |
| Surreal.Endpoint | lib_db/src/databases/surreal.rs:80-110 | unset or "1" use the default path, "remote" or an empty path the fallback, any other path itself |
| Surreal.WebsocketIffFallback | lib_db/src/databases/surreal.rs:80-110 | the WebSocket flag is set iff the endpoint is the fallback |
| Surreal.SetupCalls | lib_db/src/databases/surreal.rs:115-123 | connect, sign in iff WebSocket, then use the namespace |
| Surreal.RunCalls | lib_db/src/databases/surreal.rs:115-123 | the calls stop at the first failure, which is the result; success iff every call succeeds |
| Surreal.SignInOnlyForWebsocket | lib_db/src/databases/surreal.rs:117-120 | a sign-in happens only with the fallback endpoint, with the chosen credentials |
| Surreal.FirstRefused | lib_db/src/databases/surreal.rs:140-142 | every message before it is accepted and it is refused |
| Surreal.FirstRefusedAt | lib_db/src/databases/surreal.rs:140-142 | the first refusal is unique |
| Surreal.SurrealDatabase.InsertBatch | lib_db/src/databases/surreal.rs:132-147 | creates messages in order up to the first refusal, keeps them, and returns that refusal |
| Surreal.SurrealDatabase.Flush | lib_db/src/databases/surreal.rs:149-158 | sends the commit and returns its result |
| Http.BaseUrl | lib_db/src/databases/http.rs:22-31 | no `DBPATH` is an error; otherwise `DBPATH` or the default |
| Http.BaseUrlVerbatim | lib_db/src/databases/http.rs:24-28 | `DBPATH` is used verbatim iff it is an https URL |
| Http.ValidateResponse | lib_db/src/databases/http.rs:42-51 | an error iff the status is not success, naming context and status; else the response unchanged |
| Http.HttpDatabase.Create | lib_db/src/databases/http.rs:16-40 | fails without `DBPATH`, else holds the chosen base URL |
| Http.HttpDatabase.InsertBatch | lib_db/src/databases/http.rs:55-91 | one POST to the base URL; success iff delivered with a success status; otherwise the send error, the status with the body, or the body-read error |
| Http.HttpDatabase.Flush | lib_db/src/databases/http.rs:93-95 | always succeeds |

## Left out

- **I/O, threads and runtimes.** These are not modelled: file and database I/O, the progress bar and spinner, timing, tokio runtimes, mutexes and the lazily created static connections. Each call is one sequential step.
- **JSON.** It is an opaque encoder/decoder pair (`Records.Json`). The round trip is assumed only where a lemma says so.
- **The exported record.** `Records.Record` keeps the fields the export and the servers use, not every field of the serialised message.
- **Date handling.** Date formatting, `readable_diff`, `get_local_time` and the floating-point parsing of check-in timestamps are parameters.
- **Library lookups.** The sender (`who`), attachment resolution, replies, payload decoding, plist parsing, `render_ascii` and the attachment manager's file handling are inputs given with the message.
- **Constants from other crates.** The names "Me" and "You" and the fitness-receiver placeholder come from a crate that is not part of this model. Their values are copied as constants.
- Transcript.IsPartEdited: `is_part_edited` belongs to that other crate. It is modelled as "the part has an edit record whose status is not Original".
- **The graph.** `create_graph` has no implementation in these files. Its outcome is a parameter of the exporter.
- **Database flush.** `flush_messages` never calls the database's `flush`, because that call is commented out at `imessage-exporter/src/exporters/db.rs:282`. The model does the same.
- **Path components.** A `DBPATH` with no path components is modelled as the empty path.
- **Socket client failures.** The serialisation failure of the socket client's `insert_batch` is not modelled: the JSON encoder is total here. Neither is a failure to build the HTTP client.
- **Socket server setup.** Its bind and accept failures, the TLS certificate set-up and the `main` functions of the example servers are left out. The socket server's replies are given to the client with its stream, and `Protocol` connects the two ends.
- Wire.LengthField: the `as u32` cast wraps at 2^32 and is modelled. The round-trip lemmas assume every payload is shorter than 2^32 bytes (`Wire.LengthsFit`).
- **Integer widths.** Integers are unbounded except where the source's width matters: the u32 length field and the i32/i64 newtypes.
- **Floats.** `DbValue::Float` is left out: no conversion produces it.
- **Demo programs.** The lib_db examples that only talk to SurrealDB or an HTTPS endpoint are left out.

## Findings

| source | as written | input that shows it | evidently intended | confidence | as-written member | corrected member |
|---|---|---|---|---|---|---|
| lib_db/src/databases/socket.rs:67-77 | `flush` writes `F` but never reads the `K` that the socket server sends for it (lib_db/examples/socket.rs:106-108), so the next insert reads the flush's `K` as its own reply | a flush, then an insert the server cannot decode: the server answers `K`, `E`; the client reports success for both, and the `E` waits for the next call | `flush` reads its reply like `insert_batch` does, so the k-th reply answers the k-th call | not executed | SocketClient.SocketDatabase.Flush, Protocol.FlushLeavesReplyUnread | SocketClient.SocketDatabase.FlushAcked, Protocol.AckedClientAgrees |
