/**
 * `format_message`, `format_edited` and `format_app` of the database exporter (db.rs).
 *
 * The functions in the first half are the reference definitions. They thread the text
 * rendered so far through the same `add_line` steps (`AppendLine`) the exporter takes: a
 * message is its header, then one step per body part, then a trailer. The methods in the
 * second half build the text with a running `String` and a running attachment slot, as the
 * Rust code does, and are proved equal to them; the lemmas at the end state what the
 * rendering promises. Errors are the `TableError`s that `?` propagates, carried as text.
 */
module Renderer {
  import opened Wrappers
  import opened Text
  import opened BalloonFormatter
  import opened Transcript

  // ================================================================ edit history

  /** Event `k` of an edit history appended to the history rendered so far: the first event
      is stamped with its absolute date, every later one with its delay after the event before
      it (no stamp when that delay has no readable form); then the event's text as a line. */
  function EditStep(cfg: Config, events: seq<EditEvent>, k: nat, out: string, indent: string): string
    requires k < |events|
  {
    var stamped :=
      if k == 0 then out + cfg.formatDate(events[k].date) + " "
      else match cfg.readableDiff(events[k - 1].date, events[k].date)
        case Some(diff) => out + indent + "Edited " + diff + " later: "
        case None => out;
    AppendLine(stamped, events[k].text, indent)
  }

  /** The first `n` events of an edit history, in order. */
  function EditChain(cfg: Config, events: seq<EditEvent>, n: nat, indent: string): string
    requires n <= |events|
  {
    if n == 0 then "" else EditStep(cfg, events, n - 1, EditChain(cfg, events, n - 1, indent), indent)
  }

  /** Who unsent a part: the archive owner in the second person, anyone else as "They". */
  function UnsenderName(cfg: Config, m: Message): (r: string)
    ensures m.isFromMe ==> r == YouName(cfg)
    ensures !m.isFromMe ==> r == "They"
  {
    if m.isFromMe then YouName(cfg) else "They"
  }

  /** The notice for an unsent part, with the delay between sending and unsending when it has
      a readable form. */
  function UnsentText(cfg: Config, m: Message): string {
    var who := UnsenderName(cfg, m);
    match cfg.readableDiff(m.date, m.dateEdited)
    case Some(diff) => who + " unsent this message part " + diff + " after sending!"
    case None => who + " unsent this message part!"
  }

  /** `format_edited`: an edited part renders its history, an unsent part the unsent notice;
      a part without an edit record, or whose status is Original, renders nothing. */
  function EditedText(cfg: Config, m: Message, idx: nat, indent: string): (r: Option<string>)
    ensures r.None? <==> EditedPartAt(m, idx).None? || EditedPartAt(m, idx).value.status == Original
    ensures r.Some? && EditedPartAt(m, idx).value.status == Unsent ==> r.value == UnsentText(cfg, m)
    ensures r.Some? && EditedPartAt(m, idx).value.status == Edited ==>
              var history := EditedPartAt(m, idx).value.history;
              r.value == EditChain(cfg, history, |history|, indent)
  {
    match EditedPartAt(m, idx)
    case None => None
    case Some(part) =>
      match part.status
      case Edited => Some(EditChain(cfg, part.history, |part.history|, indent))
      case Unsent => Some(UnsentText(cfg, m))
      case Original => None
  }

  // ================================================================ app balloons

  /** The url balloon kinds, each by its own formatter. */
  function UrlOverrideText(o: UrlOverride, m: Message, indent: string): string {
    match o
    case NormalUrl(b) => UrlText(b, m.text, indent)
    case AppleMusic(b) => MusicText(b, indent)
    case Collaboration(b) => CollaborationText(b, indent)
    case AppStore(b) => AppStoreText(b, indent)
    case SharedPlacemark(b) => PlacemarkText(b, indent)
  }

  /** The other app kinds, each by its own formatter; handwriting and url balloons never get
      here, and render nothing. */
  function AppBalloonText(cfg: Config, balloon: CustomBalloon, app: AppBalloon, indent: string): string {
    match balloon
    case Application(bundleId) => GenericAppText(app, bundleId, indent)
    case ApplePay => ApplePayText(app, indent)
    case Fitness => FitnessText(app, indent)
    case Slideshow => SlideshowText(app, indent)
    case CheckIn => CheckInText(app, cfg.formatQueryTime, indent)
    case FindMy => FindMyText(app, indent)
    case Handwriting => ""
    case Url => ""
  }

  /** `format_app`: handwriting first (it has its own decoder), then url balloons by their
      override kind, then the other app kinds; a url balloon without a readable payload falls
      back to the message text. */
  function AppText(cfg: Config, m: Message, indent: string): (r: Result<string, ParseError>)
    ensures m.balloon.None? ==> r == Err(WrongMessageType)
    ensures m.balloon.Some? && m.payload.None? && !(IsUrl(m) && m.text.Some?) ==> r == Err(NoPayload)
    ensures IsUrl(m) && m.text.Some? && (m.payload.None? || !m.payload.value.isPlist) ==> r == Ok(m.text.value)
  {
    match m.balloon
    case None => Err(WrongMessageType)
    case Some(balloon) =>
      if IsHandwriting(m) && m.payload.Some? then
        match m.payload.value.handwriting
        case Ok(h) => Ok(HandwritingText(h, cfg.attachmentManagerEnabled, indent))
        case Err(why) => Err(HandwritingError(why))
      else if m.payload.Some? && m.payload.value.isPlist then
        var p := m.payload.value;
        if IsUrl(m) then
          match p.urlOverride
          case Err(e) => Err(e)
          case Ok(o) => Ok(UrlOverrideText(o, m, indent))
        else
          match p.app
          case Err(e) => Err(e)
          case Ok(app) => Ok(AppBalloonText(cfg, balloon, app, indent))
      else if IsUrl(m) && m.text.Some? then Ok(m.text.value)
      else Err(NoPayload)
  }

  // ================================================================ text parts

  /** The attributed ranges of the first `n` text attributes, concatenated. Ranges are UTF-8
      byte offsets, and a range that `text.get(start..end)` rejects (reversed, past the end,
      or splitting a character) is skipped. */
  function Slices(text: string, ranges: seq<TextRange>, n: nat): string
    requires n <= |ranges|
  {
    if n == 0 then ""
    else match ByteSlice(text, ranges[n - 1].start, ranges[n - 1].end)
      case Some(piece) => Slices(text, ranges, n - 1) + piece
      case None => Slices(text, ranges, n - 1)
  }

  /** A range that contributes text: it is non-empty and both ends are character boundaries. */
  predicate Usable(text: string, range: TextRange) {
    range.start < range.end && IsCharBoundary(text, range.start) && IsCharBoundary(text, range.end)
  }

  /** The text a text part renders: its ranges, or the whole text when they yield nothing;
      a fitness message's receiver token is replaced by "You". */
  function TextPartText(text: string, ranges: seq<TextRange>): string {
    var sliced := Slices(text, ranges, |ranges|);
    var formatted := if sliced == "" then text else sliced;
    if StartsWith(formatted, FitnessReceiver) then ReplaceAll(formatted, FitnessReceiver, You) else formatted
  }

  // ================================================================ body parts

  /** What the renderer carries from part to part: the text so far and the attachment slot. */
  datatype RenderState = RenderState(out: string, slot: nat)

  /** An attachment part: a missing slot renders "Attachment missing!", a sticker its sticker
      line, an ordinary attachment its path, or its file name when resolving it failed. Only
      the ordinary success moves on to the next attachment. */
  function AttachmentStep(m: Message, atts: seq<Attachment>, st: RenderState, indent: string): (r: RenderState)
    ensures r.slot == st.slot + 1 <==> st.slot < |atts| && !atts[st.slot].isSticker && atts[st.slot].resolved.Ok?
    ensures r.slot != st.slot + 1 ==> r.slot == st.slot
    ensures |r.out| > |st.out| <==> st.slot >= |atts| || atts[st.slot].isSticker
                                    || (atts[st.slot].resolved.Ok? && atts[st.slot].resolved.value != "")
                                    || (atts[st.slot].resolved.Err? && atts[st.slot].resolved.error != "")
  {
    if st.slot < |atts| then
      var a := atts[st.slot];
      if a.isSticker then
        AppendLineExtends(st.out, StickerText(m.sender, a), indent);
        RenderState(AppendLine(st.out, StickerText(m.sender, a), indent), st.slot)
      else match a.resolved
        case Ok(path) =>
          AppendLineExtends(st.out, path, indent);
          RenderState(AppendLine(st.out, path, indent), st.slot + 1)
        case Err(name) =>
          AppendLineExtends(st.out, name, indent);
          RenderState(AppendLine(st.out, name, indent), st.slot)
    else
      AppendLineExtends(st.out, AttachmentMissing, indent);
      RenderState(AppendLine(st.out, AttachmentMissing, indent), st.slot)
  }

  /** The edited or unsent notice of part `idx`, when the message has edit records. */
  function EditedStep(cfg: Config, m: Message, idx: nat, out: string, indent: string): string {
    if m.editedParts.Some? then
      match EditedText(cfg, m, idx, indent)
      case Some(edited) => AppendLine(out, edited, indent)
      case None => out
    else out
  }

  /** The content of part `idx`, before its annotations. */
  function ContentStep(cfg: Config, m: Message, idx: nat, atts: seq<Attachment>, st: RenderState, indent: string): RenderState
    requires idx < |m.parts|
  {
    match m.parts[idx]
    case TextPart(ranges) =>
      if m.text.None? then st
      else if IsPartEdited(m, idx) then st.(out := EditedStep(cfg, m, idx, st.out, indent))
      else st.(out := AppendLine(st.out, TextPartText(m.text.value, ranges), indent))
    case AttachmentPart => AttachmentStep(m, atts, st, indent)
    case AppPart => (
      match AppText(cfg, m, indent)
      case Ok(bubble) => st.(out := AppendLine(st.out, bubble, indent))
      case Err(why) => st.(out := AppendLine(st.out, "Unable to format app message: " + cfg.describeParseError(why), indent)))
    case RetractedPart => st.(out := EditedStep(cfg, m, idx, st.out, indent))
  }

  /** The formatted tapbacks of the first `n` entries, one line per non-empty one. */
  function TapbackLines(ts: seq<Tapback>, n: nat, indent: string): Result<string, string>
    requires n <= |ts|
  {
    if n == 0 then Ok("")
    else match TapbackLines(ts, n - 1, indent)
      case Err(e) => Err(e)
      case Ok(acc) =>
        match TapbackText(ts[n - 1])
        case Err(e) => Err(e)
        case Ok(t) => Ok(if t != "" then AppendLine(acc, t, indent) else acc)
  }

  lemma TapbackLinesNext(ts: seq<Tapback>, k: nat, out: string, indent: string)
    requires k < |ts| && TapbackLines(ts, k, indent) == Ok(out)
    ensures TapbackText(ts[k]).Err? ==> TapbackLines(ts, k + 1, indent) == Err(TapbackText(ts[k]).error)
    ensures TapbackText(ts[k]).Ok? && TapbackText(ts[k]).value == "" ==> TapbackLines(ts, k + 1, indent) == Ok(out)
    ensures TapbackText(ts[k]).Ok? && TapbackText(ts[k]).value != "" ==>
              TapbackLines(ts, k + 1, indent) == Ok(AppendLine(out, TapbackText(ts[k]).value, indent))
  {
  }

  /** The "Tapbacks:" block of part `idx`, appended to `out` when some tapback of that part
      shows. */
  function TapbackBlock(m: Message, idx: nat, out: string, indent: string): Result<string, string> {
    if idx in m.tapbacks then
      var ts := m.tapbacks[idx];
      match TapbackLines(ts, |ts|, indent)
      case Err(e) => Err(e)
      case Ok(lines) => Ok(if lines != "" then AppendLine(AppendLine(out, "Tapbacks:", indent), lines, indent) else out)
    else Ok(out)
  }

  /** The message header: time, sender and, for a deleted message, the deletion notice. */
  function Header(cfg: Config, m: Message, indent: string): string {
    var timed := AppendLine("", TimeLine(cfg, m), indent);
    var sent := AppendLine(timed, m.sender, indent);
    if m.isDeleted then AppendLine(sent, DeletedNotice, indent) else sent
  }

  /** The lines between the header and the body: subject, SharePlay and shared location. */
  function Preamble(m: Message, out: string, indent: string): string {
    var subject := if m.subject.Some? then AppendLine(out, m.subject.value, indent) else out;
    var shared := if m.isSharePlay then AppendLine(subject, SharePlayNotice, indent) else subject;
    if m.startedSharingLocation || m.stoppedSharingLocation
    then AppendLine(shared, SharedLocationText(m.startedSharingLocation, m.stoppedSharingLocation), indent)
    else shared
  }

  /** The trailer: the reply notice and a blank line, both only for a top-level render. */
  function Finish(m: Message, indent: string, body: string): string {
    var noted := if m.isReply && indent == "" then AppendLine(body, ReplyNotice, indent) else body;
    if indent == "" then noted + "\n" else noted
  }

  /** A whole message rendered at indentation `indentSize`. */
  function Render(cfg: Config, m: Message, indentSize: nat): Result<string, string>
    decreases m, 4
  {
    match RenderBody(cfg, m, indentSize)
    case Err(e) => Err(e)
    case Ok(body) => Ok(Finish(m, Spaces(indentSize), body))
  }

  /** A message without its trailer; fails when its attachments or replies cannot be read,
      or when a tapback or a reply fails. */
  function RenderBody(cfg: Config, m: Message, indentSize: nat): (r: Result<string, string>)
    ensures m.attachments.AttachmentsFailed? ==> r == Err(m.attachments.error)
    ensures m.attachments.AttachmentsFound? && m.replies.RepliesFailed? ==> r == Err(m.replies.error)
    decreases m, 3
  {
    var indent := Spaces(indentSize);
    match m.attachments
    case AttachmentsFailed(e) => Err(e)
    case AttachmentsFound(atts) =>
      match m.replies
      case RepliesFailed(e) => Err(e)
      case RepliesFound(_) =>
        var start := RenderState(Preamble(m, Header(cfg, m, indent), indent), 0);
        match Parts(cfg, m, atts, |m.parts|, start, indent)
        case Err(e) => Err(e)
        case Ok(st) => Ok(st.out)
  }

  /** The state after the first `n` parts. */
  function Parts(cfg: Config, m: Message, atts: seq<Attachment>, n: nat, start: RenderState, indent: string)
    : Result<RenderState, string>
    requires n <= |m.parts|
    requires m.replies.RepliesFound?
    decreases m, 2, n, 0
  {
    if n == 0 then Ok(start) else AfterPart(cfg, m, atts, n - 1, start, indent)
  }

  /** The state after part `k`: that part's step applied to the state the parts before it
      left. */
  function AfterPart(cfg: Config, m: Message, atts: seq<Attachment>, k: nat, start: RenderState, indent: string)
    : Result<RenderState, string>
    requires k < |m.parts|
    requires m.replies.RepliesFound?
    decreases m, 2, k, 1
  {
    match Parts(cfg, m, atts, k, start, indent)
    case Err(e) => Err(e)
    case Ok(st) => PartStep(cfg, m, atts, k, st, indent)
  }

  /** One body part: its content, the expressive label, its tapbacks, its replies. */
  function PartStep(cfg: Config, m: Message, atts: seq<Attachment>, idx: nat, st: RenderState, indent: string)
    : Result<RenderState, string>
    requires idx < |m.parts|
    requires m.replies.RepliesFound?
    decreases m, 1
  {
    var content := ContentStep(cfg, m, idx, atts, st, indent);
    var labelled :=
      if m.expressiveStyleId.Some? then AppendLine(content.out, ExpressiveText(m.expressive), indent) else content.out;
    match TapbackBlock(m, idx, labelled, indent)
    case Err(e) => Err(e)
    case Ok(tapped) =>
      match ReplyLines(cfg, m, idx, |m.replies.items|, tapped, indent)
      case Err(e) => Err(e)
      case Ok(out) => Ok(RenderState(out, content.slot))
  }

  /** The replies to part `idx` among the first `n` replies, each rendered at indentation 4
      and added as one line; replies that are themselves tapbacks are skipped. */
  function ReplyLines(cfg: Config, m: Message, idx: nat, n: nat, acc: string, indent: string): Result<string, string>
    requires m.replies.RepliesFound?
    requires n <= |m.replies.items|
    decreases m, 0, n
  {
    if n == 0 then Ok(acc)
    else match ReplyLines(cfg, m, idx, n - 1, acc, indent)
      case Err(e) => Err(e)
      case Ok(out) =>
        var reply := m.replies.items[n - 1];
        if reply.part != idx || reply.message.isTapback then Ok(out)
        else match Render(cfg, reply.message, 4)
          case Err(e) => Err(e)
          case Ok(sub) => Ok(AppendLine(out, sub, indent))
  }

  // ================================================================ error propagation

  /** A failed part aborts the render: later parts do not run. */
  lemma {:induction false} PartsErrStays(cfg: Config, m: Message, atts: seq<Attachment>, k: nat, n: nat,
                                         start: RenderState, indent: string)
    requires k <= n <= |m.parts| && m.replies.RepliesFound?
    requires Parts(cfg, m, atts, k, start, indent).Err?
    ensures Parts(cfg, m, atts, n, start, indent) == Parts(cfg, m, atts, k, start, indent)
    decreases n
  {
    if n > k {
      PartsErrStays(cfg, m, atts, k, n - 1, start, indent);
    }
  }

  /** A failed reply aborts the remaining replies. */
  lemma {:induction false} ReplyLinesErrStays(cfg: Config, m: Message, idx: nat, k: nat, n: nat, acc: string, indent: string)
    requires m.replies.RepliesFound? && k <= n <= |m.replies.items|
    requires ReplyLines(cfg, m, idx, k, acc, indent).Err?
    ensures ReplyLines(cfg, m, idx, n, acc, indent) == ReplyLines(cfg, m, idx, k, acc, indent)
    decreases n
  {
    if n > k {
      ReplyLinesErrStays(cfg, m, idx, k, n - 1, acc, indent);
    }
  }

  /** A failed tapback aborts the remaining tapbacks. */
  lemma {:induction false} TapbackLinesErrStays(ts: seq<Tapback>, k: nat, n: nat, indent: string)
    requires k <= n <= |ts|
    requires TapbackLines(ts, k, indent).Err?
    ensures TapbackLines(ts, n, indent) == TapbackLines(ts, k, indent)
    decreases n
  {
    if n > k {
      TapbackLinesErrStays(ts, k, n - 1, indent);
    }
  }

  // ================================================================ the renderer

  /** `format_edited`. */
  method FormatEdited(cfg: Config, m: Message, idx: nat, indent: string) returns (r: Option<string>)
    requires m.editedParts.Some?
    ensures r == EditedText(cfg, m, idx, indent)
  {
    var part := EditedPartAt(m, idx);
    if part.None? {
      return None;
    }
    match part.value.status {
      case Edited =>
        var out := FormatEditHistory(cfg, part.value.history, indent);
        r := Some(out);
      case Unsent =>
        var who := if m.isFromMe then YouName(cfg) else "They";
        var out := who;
        match cfg.readableDiff(m.date, m.dateEdited) {
          case Some(diff) =>
            out := out + " unsent this message part ";
            out := out + diff;
            out := out + " after sending!";
          case None =>
            out := out + " unsent this message part!";
        }
        r := Some(out);
      case Original =>
        r := None;
    }
  }

  /** The `EditStatus::Edited` loop of `format_edited`: each event after its timestamp. */
  method FormatEditHistory(cfg: Config, history: seq<EditEvent>, indent: string) returns (out: string)
    ensures out == EditChain(cfg, history, |history|, indent)
  {
    out := "";
    var previous: Option<int> := None;
    var k := 0;
    while k < |history|
      invariant k <= |history|
      invariant previous == if k == 0 then None else Some(history[k - 1].date)
      invariant out == EditChain(cfg, history, k, indent)
    {
      var event := history[k];
      match previous {
        case None =>
          out := out + cfg.formatDate(event.date);
          out := out + " ";
        case Some(prev) =>
          var diff := cfg.readableDiff(prev, event.date);
          if diff.Some? {
            out := out + indent;
            out := out + "Edited ";
            out := out + diff.value;
            out := out + " later: ";
          }
      }
      previous := Some(event.date);
      out := AddLine(out, event.text, indent);
      k := k + 1;
    }
  }

  /** `format_app`. */
  method FormatApp(cfg: Config, m: Message, indent: string) returns (r: Result<string, ParseError>)
    ensures r == AppText(cfg, m, indent)
  {
    if m.balloon.None? {
      return Err(WrongMessageType);
    }
    var balloon := m.balloon.value;
    if IsHandwriting(m) && m.payload.Some? {
      match m.payload.value.handwriting {
        case Ok(h) =>
          var bubble := FormatHandwriting(h, cfg.attachmentManagerEnabled, indent);
          return Ok(bubble);
        case Err(why) =>
          return Err(HandwritingError(why));
      }
    }
    if m.payload.Some? && m.payload.value.isPlist {
      var payload := m.payload.value;
      var bubble: string;
      if IsUrl(m) {
        if payload.urlOverride.Err? {
          return Err(payload.urlOverride.error);
        }
        bubble := FormatUrlBalloon(payload.urlOverride.value, m, indent);
      } else {
        if payload.app.Err? {
          return Err(payload.app.error);
        }
        bubble := FormatAppBalloon(cfg, balloon, payload.app.value, indent);
      }
      return Ok(bubble);
    }
    if IsUrl(m) && m.text.Some? {
      return Ok(m.text.value);
    }
    return Err(NoPayload);
  }

  /** The `match bubble` over url override kinds in `format_app`. */
  method FormatUrlBalloon(o: UrlOverride, m: Message, indent: string) returns (bubble: string)
    ensures bubble == UrlOverrideText(o, m, indent)
  {
    match o {
      case NormalUrl(b) => bubble := FormatUrl(b, m.text, indent);
      case AppleMusic(b) => bubble := FormatMusic(b, indent);
      case Collaboration(b) => bubble := FormatCollaboration(b, indent);
      case AppStore(b) => bubble := FormatAppStore(b, indent);
      case SharedPlacemark(b) => bubble := FormatPlacemark(b, indent);
    }
  }

  /** The `match balloon` over app kinds in `format_app`; handwriting and url balloons were
      handled before it is reached. */
  method FormatAppBalloon(cfg: Config, balloon: CustomBalloon, app: AppBalloon, indent: string) returns (bubble: string)
    requires !balloon.Handwriting? && !balloon.Url?
    ensures bubble == AppBalloonText(cfg, balloon, app, indent)
  {
    match balloon {
      case Application(bundleId) => bubble := FormatGenericApp(app, bundleId, indent);
      case ApplePay => bubble := FormatApplePay(app, indent);
      case Fitness => bubble := FormatFitness(app, indent);
      case Slideshow => bubble := FormatSlideshow(app, indent);
      case CheckIn => bubble := FormatCheckIn(app, cfg.formatQueryTime, indent);
      case FindMy => bubble := FormatFindMy(app, indent);
    }
  }

  /** The tapback loop of `format_message`: one line per tapback that formats to something. */
  method FormatTapbacks(ts: seq<Tapback>, indent: string) returns (r: Result<string, string>)
    ensures r == TapbackLines(ts, |ts|, indent)
  {
    var out := "";
    var k := 0;
    while k < |ts|
      invariant k <= |ts|
      invariant TapbackLines(ts, k, indent) == Ok(out)
    {
      var formatted := TapbackText(ts[k]);
      TapbackLinesNext(ts, k, out, indent);
      if formatted.Err? {
        TapbackLinesErrStays(ts, k + 1, |ts|, indent);
        return Err(formatted.error);
      }
      if formatted.value != "" {
        out := AddLine(out, formatted.value, indent);
      }
      k := k + 1;
    }
    r := Ok(out);
  }

  /** `format_message`: the header, then each body part in order, then the trailer. */
  method FormatMessage(cfg: Config, m: Message, indentSize: nat) returns (r: Result<string, string>)
    ensures r == Render(cfg, m, indentSize)
    decreases m, 3
  {
    var indent := Spaces(indentSize);
    var out := FormatHeader(cfg, m, indent);
    if m.attachments.AttachmentsFailed? {
      return Err(m.attachments.error);
    }
    var atts := m.attachments.items;
    if m.replies.RepliesFailed? {
      return Err(m.replies.error);
    }
    out := FormatPreamble(m, out, indent);
    var body := FormatBody(cfg, m, atts, out, indent);
    if body.Err? {
      return Err(body.error);
    }
    out := body.value.out;
    if m.isReply && indent == "" {
      out := AddLine(out, ReplyNotice, indent);
    }
    if indent == "" {
      out := out + "\n";
    }
    r := Ok(out);
  }

  /** The body loop of `format_message`: every part in order, from the first attachment slot. */
  method FormatBody(cfg: Config, m: Message, atts: seq<Attachment>, out0: string, indent: string)
    returns (r: Result<RenderState, string>)
    requires m.replies.RepliesFound?
    ensures r == Parts(cfg, m, atts, |m.parts|, RenderState(out0, 0), indent)
    decreases m, 2
  {
    var out, slot := out0, 0;
    var idx := 0;
    while idx < |m.parts|
      invariant idx <= |m.parts|
      invariant Parts(cfg, m, atts, idx, RenderState(out0, 0), indent) == Ok(RenderState(out, slot))
    {
      var step := RenderPart(cfg, m, atts, idx, out, slot, indent);
      if step.Err? {
        PartsErrStays(cfg, m, atts, idx + 1, |m.parts|, RenderState(out0, 0), indent);
        return Err(step.error);
      }
      out, slot := step.value.out, step.value.slot;
      idx := idx + 1;
    }
    r := Ok(RenderState(out, slot));
  }

  /** The header lines of `format_message`. */
  method FormatHeader(cfg: Config, m: Message, indent: string) returns (out: string)
    ensures out == Header(cfg, m, indent)
  {
    out := "";
    out := AddLine(out, TimeLine(cfg, m), indent);
    out := AddLine(out, m.sender, indent);
    if m.isDeleted {
      out := AddLine(out, DeletedNotice, indent);
    }
  }

  /** The subject, SharePlay and shared-location lines of `format_message`. */
  method FormatPreamble(m: Message, out0: string, indent: string) returns (out: string)
    ensures out == Preamble(m, out0, indent)
  {
    out := out0;
    if m.subject.Some? {
      out := AddLine(out, m.subject.value, indent);
    }
    if m.isSharePlay {
      out := AddLine(out, SharePlayNotice, indent);
    }
    if m.startedSharingLocation || m.stoppedSharingLocation {
      out := AddLine(out, SharedLocationText(m.startedSharingLocation, m.stoppedSharingLocation), indent);
    }
  }

  /** The text-part branch of `format_message`: the attributed ranges, the whole text when
      they yield nothing, and the fitness receiver swap. */
  method FormatTextPart(text: string, ranges: seq<TextRange>) returns (r: string)
    ensures r == TextPartText(text, ranges)
  {
    var formatted := "";
    var k := 0;
    while k < |ranges|
      invariant k <= |ranges|
      invariant formatted == Slices(text, ranges, k)
    {
      match ByteSlice(text, ranges[k].start, ranges[k].end) {
        case Some(piece) =>
          formatted := formatted + piece;
        case None =>
      }
      k := k + 1;
    }
    if formatted == "" {
      formatted := text;
    }
    if StartsWith(formatted, FitnessReceiver) {
      r := ReplaceAll(formatted, FitnessReceiver, You);
    } else {
      r := formatted;
    }
  }

  /** The `match message_part` of `format_message`: the content of part `idx`. */
  method FormatContent(cfg: Config, m: Message, atts: seq<Attachment>, idx: nat, out0: string, slot0: nat, indent: string)
    returns (out: string, slot: nat)
    requires idx < |m.parts|
    ensures RenderState(out, slot) == ContentStep(cfg, m, idx, atts, RenderState(out0, slot0), indent)
  {
    out, slot := out0, slot0;
    match m.parts[idx] {
      case TextPart(ranges) =>
        if m.text.Some? {
          if IsPartEdited(m, idx) {
            out := FormatEditedPart(cfg, m, idx, out, indent);
          } else {
            var formatted := FormatTextPart(m.text.value, ranges);
            out := AddLine(out, formatted, indent);
          }
        }
      case AttachmentPart =>
        if slot < |atts| {
          var attachment := atts[slot];
          if attachment.isSticker {
            out := AddLine(out, StickerText(m.sender, attachment), indent);
          } else {
            match attachment.resolved {
              case Ok(path) =>
                slot := slot + 1;
                out := AddLine(out, path, indent);
              case Err(name) =>
                out := AddLine(out, name, indent);
            }
          }
        } else {
          out := AddLine(out, AttachmentMissing, indent);
        }
      case AppPart =>
        var app := FormatApp(cfg, m, indent);
        match app {
          case Ok(bubble) => out := AddLine(out, bubble, indent);
          case Err(why) => out := AddLine(out, "Unable to format app message: " + cfg.describeParseError(why), indent);
        }
      case RetractedPart =>
        out := FormatEditedPart(cfg, m, idx, out, indent);
    }
  }

  /** `if let Some(edited_parts) = &message.edited_parts { ... format_edited ... }`. */
  method FormatEditedPart(cfg: Config, m: Message, idx: nat, out0: string, indent: string) returns (out: string)
    ensures out == EditedStep(cfg, m, idx, out0, indent)
  {
    out := out0;
    if m.editedParts.Some? {
      var edited := FormatEdited(cfg, m, idx, indent);
      if edited.Some? {
        out := AddLine(out, edited.value, indent);
      }
    }
  }

  /** One iteration of the body loop of `format_message`: the part's content, the expressive
      label, the tapbacks and the replies. */
  method RenderPart(cfg: Config, m: Message, atts: seq<Attachment>, idx: nat, out0: string, slot0: nat, indent: string)
    returns (r: Result<RenderState, string>)
    requires idx < |m.parts| && m.replies.RepliesFound?
    ensures r == PartStep(cfg, m, atts, idx, RenderState(out0, slot0), indent)
    decreases m, 1
  {
    var out, slot := FormatContent(cfg, m, atts, idx, out0, slot0, indent);
    if m.expressiveStyleId.Some? {
      out := AddLine(out, ExpressiveText(m.expressive), indent);
    }
    if idx in m.tapbacks {
      var lines := FormatTapbacks(m.tapbacks[idx], indent);
      if lines.Err? {
        return Err(lines.error);
      }
      if lines.value != "" {
        out := AddLine(out, "Tapbacks:", indent);
        out := AddLine(out, lines.value, indent);
      }
    }
    var replied := FormatReplies(cfg, m, idx, out, indent);
    if replied.Err? {
      return Err(replied.error);
    }
    r := Ok(RenderState(replied.value, slot));
  }

  /** The reply loop of `format_message`: every non-tapback reply to part `idx`, rendered at
      indentation 4. */
  method FormatReplies(cfg: Config, m: Message, idx: nat, out0: string, indent: string) returns (r: Result<string, string>)
    requires m.replies.RepliesFound?
    ensures r == ReplyLines(cfg, m, idx, |m.replies.items|, out0, indent)
    decreases m, 0
  {
    var items := m.replies.items;
    var out := out0;
    var j := 0;
    while j < |items|
      invariant j <= |items|
      invariant ReplyLines(cfg, m, idx, j, out0, indent) == Ok(out)
    {
      var reply := items[j];
      if reply.part == idx && !reply.message.isTapback {
        var sub := FormatMessage(cfg, reply.message, 4);
        if sub.Err? {
          ReplyLinesErrStays(cfg, m, idx, j + 1, |items|, out0, indent);
          return Err(sub.error);
        }
        out := AddLine(out, sub.value, indent);
      }
      j := j + 1;
    }
    r := Ok(out);
  }

  // ================================================================ what the rendering promises

  /** A part's edit notice is added as whole lines. */
  lemma EditedStepAddsLines(cfg: Config, m: Message, idx: nat, out: string, indent: string)
    ensures AddsLines(out, EditedStep(cfg, m, idx, out, indent))
  {
    if m.editedParts.Some? && EditedText(cfg, m, idx, indent).Some? {
      AppendLineAddsLines(out, EditedText(cfg, m, idx, indent).value, indent);
    } else {
      assert out[..|out|] == out;
    }
  }

  /** An attachment part adds exactly one `add_line`. */
  lemma AttachmentStepAddsLines(m: Message, atts: seq<Attachment>, st: RenderState, indent: string)
    ensures AddsLines(st.out, AttachmentStep(m, atts, st, indent).out)
  {
    if st.slot < |atts| {
      var a := atts[st.slot];
      if a.isSticker {
        AppendLineAddsLines(st.out, StickerText(m.sender, a), indent);
      } else if a.resolved.Ok? {
        AppendLineAddsLines(st.out, a.resolved.value, indent);
      } else {
        AppendLineAddsLines(st.out, a.resolved.error, indent);
      }
    } else {
      AppendLineAddsLines(st.out, AttachmentMissing, indent);
    }
  }

  /** The content of a part is added as whole lines, whatever the part is. */
  lemma ContentStepAddsLines(cfg: Config, m: Message, idx: nat, atts: seq<Attachment>, st: RenderState, indent: string)
    requires idx < |m.parts|
    ensures AddsLines(st.out, ContentStep(cfg, m, idx, atts, st, indent).out)
  {
    match m.parts[idx]
    case TextPart(ranges) =>
      if m.text.None? {
        assert st.out[..|st.out|] == st.out;
      } else if IsPartEdited(m, idx) {
        EditedStepAddsLines(cfg, m, idx, st.out, indent);
      } else {
        AppendLineAddsLines(st.out, TextPartText(m.text.value, ranges), indent);
      }
    case AttachmentPart => AttachmentStepAddsLines(m, atts, st, indent);
    case AppPart =>
      match AppText(cfg, m, indent) {
        case Ok(bubble) => AppendLineAddsLines(st.out, bubble, indent);
        case Err(why) => AppendLineAddsLines(st.out, "Unable to format app message: " + cfg.describeParseError(why), indent);
      }
    case RetractedPart => EditedStepAddsLines(cfg, m, idx, st.out, indent);
  }

  /** Only an attachment part moves the attachment slot, by at most one and never past the
      attachments that were found. */
  lemma ContentStepSlot(cfg: Config, m: Message, idx: nat, atts: seq<Attachment>, st: RenderState, indent: string)
    requires idx < |m.parts|
    ensures var r := ContentStep(cfg, m, idx, atts, st, indent);
            (r.slot == st.slot || (r.slot == st.slot + 1 && st.slot < |atts|))
            && (!m.parts[idx].AttachmentPart? ==> r.slot == st.slot)
  {
  }

  /** The tapback block is added as whole lines. */
  lemma TapbackBlockAddsLines(m: Message, idx: nat, out: string, indent: string)
    ensures TapbackBlock(m, idx, out, indent).Ok? ==> AddsLines(out, TapbackBlock(m, idx, out, indent).value)
  {
    if idx in m.tapbacks {
      var ts := m.tapbacks[idx];
      if TapbackLines(ts, |ts|, indent).Ok? {
        var lines := TapbackLines(ts, |ts|, indent).value;
        if lines != "" {
          var titled := AppendLine(out, "Tapbacks:", indent);
          AppendLineAddsLines(out, "Tapbacks:", indent);
          AppendLineAddsLines(titled, lines, indent);
          AddsLinesTrans(out, titled, AppendLine(titled, lines, indent));
        } else {
          assert out[..|out|] == out;
        }
      }
    } else {
      assert out[..|out|] == out;
    }
  }

  /** Each reply is added as one `add_line` of its whole rendering. */
  lemma {:induction false} ReplyLinesAddsLines(cfg: Config, m: Message, idx: nat, n: nat, acc: string, indent: string)
    requires m.replies.RepliesFound? && n <= |m.replies.items|
    ensures ReplyLines(cfg, m, idx, n, acc, indent).Ok? ==> AddsLines(acc, ReplyLines(cfg, m, idx, n, acc, indent).value)
    decreases n
  {
    if n == 0 {
      assert acc[..|acc|] == acc;
    } else {
      ReplyLinesAddsLines(cfg, m, idx, n - 1, acc, indent);
      var before := ReplyLines(cfg, m, idx, n - 1, acc, indent);
      var reply := m.replies.items[n - 1];
      if before.Ok? && !(reply.part != idx || reply.message.isTapback) && Render(cfg, reply.message, 4).Ok? {
        var sub := Render(cfg, reply.message, 4).value;
        AppendLineAddsLines(before.value, sub, indent);
        AddsLinesTrans(acc, before.value, AppendLine(before.value, sub, indent));
      }
    }
  }

  /** A whole part (content, label, tapbacks, replies) is added as whole lines. */
  lemma PartStepAddsLines(cfg: Config, m: Message, atts: seq<Attachment>, idx: nat, st: RenderState, indent: string)
    requires idx < |m.parts| && m.replies.RepliesFound?
    ensures PartStep(cfg, m, atts, idx, st, indent).Ok? ==> AddsLines(st.out, PartStep(cfg, m, atts, idx, st, indent).value.out)
  {
    var content := ContentStep(cfg, m, idx, atts, st, indent);
    ContentStepAddsLines(cfg, m, idx, atts, st, indent);
    var labelled :=
      if m.expressiveStyleId.Some? then AppendLine(content.out, ExpressiveText(m.expressive), indent) else content.out;
    if m.expressiveStyleId.Some? {
      AppendLineAddsLines(content.out, ExpressiveText(m.expressive), indent);
    } else {
      assert content.out[..|content.out|] == content.out;
    }
    AddsLinesTrans(st.out, content.out, labelled);
    TapbackBlockAddsLines(m, idx, labelled, indent);
    if TapbackBlock(m, idx, labelled, indent).Ok? {
      var tapped := TapbackBlock(m, idx, labelled, indent).value;
      AddsLinesTrans(st.out, labelled, tapped);
      ReplyLinesAddsLines(cfg, m, idx, |m.replies.items|, tapped, indent);
      if ReplyLines(cfg, m, idx, |m.replies.items|, tapped, indent).Ok? {
        AddsLinesTrans(st.out, tapped, ReplyLines(cfg, m, idx, |m.replies.items|, tapped, indent).value);
      }
    }
  }

  /** The body loop only ever appends whole lines to what the header left. */
  lemma {:induction false} PartsAddsLines(cfg: Config, m: Message, atts: seq<Attachment>, n: nat, start: RenderState, indent: string)
    requires n <= |m.parts| && m.replies.RepliesFound?
    ensures Parts(cfg, m, atts, n, start, indent).Ok? ==> AddsLines(start.out, Parts(cfg, m, atts, n, start, indent).value.out)
    decreases n
  {
    if n == 0 {
      assert start.out[..|start.out|] == start.out;
    } else {
      PartsAddsLines(cfg, m, atts, n - 1, start, indent);
      AfterPartAddsLines(cfg, m, atts, n - 1, start, indent);
    }
  }

  /** One more part keeps the body a run of whole lines added to what the header left. */
  lemma AfterPartAddsLines(cfg: Config, m: Message, atts: seq<Attachment>, k: nat, start: RenderState, indent: string)
    requires k < |m.parts| && m.replies.RepliesFound?
    requires Parts(cfg, m, atts, k, start, indent).Ok? ==> AddsLines(start.out, Parts(cfg, m, atts, k, start, indent).value.out)
    ensures AfterPart(cfg, m, atts, k, start, indent).Ok? ==> AddsLines(start.out, AfterPart(cfg, m, atts, k, start, indent).value.out)
  {
    var before := Parts(cfg, m, atts, k, start, indent);
    if before.Ok? {
      var after := PartStep(cfg, m, atts, k, before.value, indent);
      PartStepAddsLines(cfg, m, atts, k, before.value, indent);
      if after.Ok? {
        AddsLinesTrans(start.out, before.value.out, after.value.out);
      }
    }
  }

  /** The attachment slot never moves back and never passes the attachments that were found:
      every attachment part either consumes the next attachment or leaves the slot. */
  lemma {:induction false} PartsSlot(cfg: Config, m: Message, atts: seq<Attachment>, n: nat, start: RenderState, indent: string)
    requires n <= |m.parts| && m.replies.RepliesFound?
    requires start.slot <= |atts|
    ensures Parts(cfg, m, atts, n, start, indent).Ok? ==>
              start.slot <= Parts(cfg, m, atts, n, start, indent).value.slot <= |atts|
    decreases n
  {
    if n > 0 {
      PartsSlot(cfg, m, atts, n - 1, start, indent);
      var before := Parts(cfg, m, atts, n - 1, start, indent);
      if before.Ok? {
        ContentStepSlot(cfg, m, n - 1, atts, before.value, indent);
        var after := PartStep(cfg, m, atts, n - 1, before.value, indent);
        assert after.Ok? ==> after.value.slot == ContentStep(cfg, m, n - 1, atts, before.value, indent).slot;
      }
    }
  }

  /** The header is written as whole lines. */
  lemma HeaderAddsLines(cfg: Config, m: Message, indent: string)
    ensures AddsLines("", Header(cfg, m, indent))
  {
    var timed := AppendLine("", TimeLine(cfg, m), indent);
    var sent := AppendLine(timed, m.sender, indent);
    AppendLineAddsLines("", TimeLine(cfg, m), indent);
    AppendLineAddsLines(timed, m.sender, indent);
    AddsLinesTrans("", timed, sent);
    if m.isDeleted {
      AppendLineAddsLines(sent, DeletedNotice, indent);
      AddsLinesTrans("", sent, AppendLine(sent, DeletedNotice, indent));
    }
  }

  /** The subject, SharePlay and location lines are written as whole lines. */
  lemma PreambleAddsLines(m: Message, out: string, indent: string)
    ensures AddsLines(out, Preamble(m, out, indent))
  {
    var subject := if m.subject.Some? then AppendLine(out, m.subject.value, indent) else out;
    var shared := if m.isSharePlay then AppendLine(subject, SharePlayNotice, indent) else subject;
    assert out[..|out|] == out;
    if m.subject.Some? {
      AppendLineAddsLines(out, m.subject.value, indent);
    }
    assert subject[..|subject|] == subject;
    if m.isSharePlay {
      AppendLineAddsLines(subject, SharePlayNotice, indent);
    }
    AddsLinesTrans(out, subject, shared);
    if m.startedSharingLocation || m.stoppedSharingLocation {
      var located := SharedLocationText(m.startedSharingLocation, m.stoppedSharingLocation);
      AppendLineAddsLines(shared, located, indent);
      AddsLinesTrans(out, shared, AppendLine(shared, located, indent));
    }
  }

  /** A rendered message opens with its header and consists of whole lines. */
  lemma RenderBodyShape(cfg: Config, m: Message, indentSize: nat)
    ensures RenderBody(cfg, m, indentSize).Ok? ==>
              var body := RenderBody(cfg, m, indentSize).value;
              StartsWith(body, Header(cfg, m, Spaces(indentSize))) && Lined(body)
  {
    var indent := Spaces(indentSize);
    if m.attachments.AttachmentsFound? && m.replies.RepliesFound? {
      var atts := m.attachments.items;
      var header := Header(cfg, m, indent);
      var start := RenderState(Preamble(m, header, indent), 0);
      HeaderAddsLines(cfg, m, indent);
      PreambleAddsLines(m, header, indent);
      PartsAddsLines(cfg, m, atts, |m.parts|, start, indent);
      if Parts(cfg, m, atts, |m.parts|, start, indent).Ok? {
        var body := Parts(cfg, m, atts, |m.parts|, start, indent).value.out;
        AddsLinesTrans(header, start.out, body);
        AddsLinesTrans("", header, body);
        AddsLinesLined("", body);
      }
    }
  }

  /** At the top level every message ends with a newline, and with a blank line unless it
      rendered nothing at all. */
  lemma TopLevelEndsBlank(cfg: Config, m: Message)
    ensures Render(cfg, m, 0).Ok? ==>
              var r := Render(cfg, m, 0).value;
              |r| >= 1 && r[|r| - 1] == '\n' && (|r| >= 2 ==> r[|r| - 2] == '\n')
  {
    RenderBodyShape(cfg, m, 0);
    if RenderBody(cfg, m, 0).Ok? {
      var body := RenderBody(cfg, m, 0).value;
      assert Spaces(0) == "";
      assert Render(cfg, m, 0) == Ok(Finish(m, "", body));
      FinishEndsBlank(m, body);
    }
  }

  /** The top-level trailer after a body of whole lines leaves a blank line at the end. */
  lemma FinishEndsBlank(m: Message, body: string)
    requires Lined(body)
    ensures var r := Finish(m, "", body);
            |r| >= 1 && r[|r| - 1] == '\n' && (|r| >= 2 ==> r[|r| - 2] == '\n')
  {
    AppendLineAddsLines(body, ReplyNotice, "");
    AddsLinesLined(body, AppendLine(body, ReplyNotice, ""));
  }

  /** A nested render (a reply, at indentation 4) carries neither the reply notice nor the
      blank line: it is the message body alone, and fails exactly when the body fails. */
  lemma NestedRenderIsBody(cfg: Config, m: Message, indentSize: nat)
    requires indentSize > 0
    ensures Render(cfg, m, indentSize) == RenderBody(cfg, m, indentSize)
  {
    assert |Spaces(indentSize)| > 0;
  }

  /** A top-level reply ends with the reply notice and a blank line. */
  lemma TopLevelReplyNotice(cfg: Config, m: Message)
    requires m.isReply
    ensures Render(cfg, m, 0).Ok? ==> EndsWith(Render(cfg, m, 0).value, ReplyNotice + "\n\n")
  {
    if RenderBody(cfg, m, 0).Ok? {
      var body := RenderBody(cfg, m, 0).value;
      assert Spaces(0) == "";
      assert Render(cfg, m, 0) == Ok(Finish(m, "", body));
      FinishReplyNotice(m, body);
    }
  }

  /** The top-level trailer of a reply is the reply notice and a blank line. */
  lemma FinishReplyNotice(m: Message, body: string)
    requires m.isReply
    ensures EndsWith(Finish(m, "", body), ReplyNotice + "\n\n")
  {
    var r := Finish(m, "", body);
    assert r == body + (ReplyNotice + "\n\n");
    assert r[|r| - |ReplyNotice + "\n\n"|..] == ReplyNotice + "\n\n";
  }

  /** The "Tapbacks:" block is left out exactly when every tapback of the part formats to
      nothing: a removed reaction, or nothing to show. */
  lemma {:induction false} TapbackLinesEmpty(ts: seq<Tapback>, n: nat, indent: string)
    requires n <= |ts|
    ensures TapbackLines(ts, n, indent) == Ok("") <==> forall k :: 0 <= k < n ==> TapbackText(ts[k]) == Ok("")
    decreases n
  {
    if n > 0 {
      TapbackLinesEmpty(ts, n - 1, indent);
      var before := TapbackLines(ts, n - 1, indent);
      if before.Ok? {
        var t := TapbackText(ts[n - 1]);
        if t.Ok? && t.value != "" {
          AppendLineExtends(before.value, t.value, indent);
        }
      } else {
        TapbackLinesErrStays(ts, n - 1, n, indent);
      }
    }
  }

  /** A part with tapbacks gets its block header iff some tapback shows. */
  lemma TapbackHeaderShown(m: Message, idx: nat, out: string, indent: string)
    requires idx in m.tapbacks && TapbackBlock(m, idx, out, indent).Ok?
    ensures TapbackBlock(m, idx, out, indent).value != out
            <==> exists k :: 0 <= k < |m.tapbacks[idx]| && TapbackText(m.tapbacks[idx][k]) != Ok("")
  {
    var ts := m.tapbacks[idx];
    TapbackLinesEmpty(ts, |ts|, indent);
    var lines := TapbackLines(ts, |ts|, indent).value;
    if lines != "" {
      var titled := AppendLine(out, "Tapbacks:", indent);
      AppendLineExtends(out, "Tapbacks:", indent);
      AppendLineExtends(titled, lines, indent);
    }
  }

  /** Rendering the first `n` events does not depend on the events after them: an edit that
      is appended later leaves the history rendered so far untouched. */
  lemma {:induction false} EditChainPrefix(cfg: Config, events: seq<EditEvent>, later: seq<EditEvent>, n: nat, indent: string)
    requires n <= |events|
    ensures EditChain(cfg, events + later, n, indent) == EditChain(cfg, events, n, indent)
    decreases n
  {
    if n > 0 {
      EditChainPrefix(cfg, events, later, n - 1, indent);
      assert (events + later)[n - 1] == events[n - 1];
      if n > 1 {
        assert (events + later)[n - 2] == events[n - 2];
      }
    }
  }

  /** The rendering of an edit history only grows as events are added. */
  lemma {:induction false} EditChainGrows(cfg: Config, events: seq<EditEvent>, k: nat, n: nat, indent: string)
    requires k <= n <= |events|
    ensures StartsWith(EditChain(cfg, events, n, indent), EditChain(cfg, events, k, indent))
    decreases n
  {
    var whole := EditChain(cfg, events, n, indent);
    if n == k {
      assert whole[..|whole|] == whole;
    } else {
      EditChainGrows(cfg, events, k, n - 1, indent);
      var before := EditChain(cfg, events, n - 1, indent);
      var part := EditChain(cfg, events, k, indent);
      var stamped :=
        if n - 1 == 0 then before + cfg.formatDate(events[n - 1].date) + " "
        else match cfg.readableDiff(events[n - 2].date, events[n - 1].date)
          case Some(diff) => before + indent + "Edited " + diff + " later: "
          case None => before;
      assert stamped[..|before|] == before;
      AppendLineExtends(stamped, events[n - 1].text, indent);
      assert whole[..|before|] == stamped[..|before|];
      assert whole[..|part|] == before[..|part|];
    }
  }

  /** An edit history opens with the date of its first event. */
  lemma EditChainOpensWithDate(cfg: Config, events: seq<EditEvent>, n: nat, indent: string)
    requires 0 < n <= |events|
    ensures StartsWith(EditChain(cfg, events, n, indent), cfg.formatDate(events[0].date) + " ")
  {
    EditChainGrows(cfg, events, 1, n, indent);
    var first := EditChain(cfg, events, 1, indent);
    var head := cfg.formatDate(events[0].date) + " ";
    assert EditChain(cfg, events, 0, indent) == "";
    AppendLineExtends("" + head, events[0].text, indent);
    assert first[..|head|] == head;
    var whole := EditChain(cfg, events, n, indent);
    assert whole[..|head|] == whole[..|first|][..|head|];
  }

  /** The latest event's text closes the history as its own line. */
  lemma EditChainClosesWithLatest(cfg: Config, events: seq<EditEvent>, n: nat, indent: string)
    requires 0 < n <= |events| && events[n - 1].text != ""
    ensures EndsWith(EditChain(cfg, events, n, indent), indent + events[n - 1].text + "\n")
  {
    var whole := EditChain(cfg, events, n, indent);
    var last := indent + events[n - 1].text + "\n";
    var before := EditChain(cfg, events, n - 1, indent);
    var stamped :=
      if n - 1 == 0 then before + cfg.formatDate(events[n - 1].date) + " "
      else match cfg.readableDiff(events[n - 2].date, events[n - 1].date)
        case Some(diff) => before + indent + "Edited " + diff + " later: "
        case None => before;
    assert whole == stamped + last;
    assert whole[|whole| - |last|..] == last;
  }

  /** The attributed ranges yield nothing exactly when none of them is usable. */
  lemma {:induction false} SlicesEmpty(text: string, ranges: seq<TextRange>, n: nat)
    requires n <= |ranges|
    ensures Slices(text, ranges, n) == "" <==> forall k :: 0 <= k < n ==> !Usable(text, ranges[k])
    decreases n
  {
    if n > 0 {
      SlicesEmpty(text, ranges, n - 1);
      ByteSliceSpec(text, ranges[n - 1].start, ranges[n - 1].end);
    }
  }

  /** A text part whose ranges yield nothing shows the message text itself. */
  lemma TextPartFallsBack(text: string, ranges: seq<TextRange>)
    requires forall k :: 0 <= k < |ranges| ==> !Usable(text, ranges[k])
    requires !StartsWith(text, FitnessReceiver)
    ensures TextPartText(text, ranges) == text
  {
    SlicesEmpty(text, ranges, |ranges|);
  }

  /** Ranges count bytes: "\U{e9} a" is three characters but four bytes, so the ranges 0..2 and
      2..4 cover it whole, while 0..1 splits the "\U{e9}" and is skipped. */
  lemma ByteRangesCoverText()
    ensures TextPartText("\U{e9} a", [TextRange(0, 2), TextRange(2, 4)]) == "\U{e9} a"
    ensures Slices("\U{e9} a", [TextRange(0, 1), TextRange(2, 4)], 2) == " a"
  {
    var t := "\U{e9} a";
    assert Utf8Width(t[0]) == 2 && Utf8Width(t[1]) == 1 && Utf8Width(t[2]) == 1;
    assert CharIndex(t[1..][1..], 1) == Some(1);
    assert CharIndex(t, 2) == Some(1);
    assert CharIndex(t, 4) == Some(3);
    assert CharIndex(t, 1) == None;
    assert ByteSlice(t, 0, 2) == Some(t[..1]);
    assert CharIndex(t[1..][1..], 1) == Some(1);
    assert CharIndex(t[1..], 2) == Some(2);
    assert t[1..][..2] == t[1..];
    assert ByteSlice(t, 2, 4) == Some(t[1..]);
    assert t[..1] + t[1..] == t;
  }

  /** A fitness message addressed to its receiver is shown as addressed to "You". */
  lemma TextPartNamesReceiver(text: string, ranges: seq<TextRange>)
    requires Slices(text, ranges, |ranges|) == "" && StartsWith(text, FitnessReceiver)
    ensures StartsWith(TextPartText(text, ranges), You)
  {
    ReplaceAllAtStart(text, FitnessReceiver, You);
  }
}
