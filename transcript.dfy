/**
 * The message record the transcript renderer of the database exporter (db.rs) reads,
 * the exporter's configuration, and its pure annotation formatters: the time line,
 * tapbacks, stickers, expressive effects, shared location and group announcements.
 *
 * What the Rust code obtains from the chat database, the payload decoders or the
 * clock is given here as data: `sender` is `config.who(..)` for the message, the
 * date functions of `Config` stand for `format`/`get_local_time`/`readable_diff`.
 */
module Transcript {
  import opened Wrappers
  import opened Text
  import opened BalloonFormatter

  /** Names the imessage_database crate uses for the archive owner. */
  const Me: string := "Me"
  const You: string := "You"
  /** The token fitness messages start with, standing for the receiver. */
  const FitnessReceiver: string := "$(kIMTranscriptPluginBreadcrumbTextReceiverIdentifier)"

  const DeletedNotice: string := "This message was deleted from the conversation!"
  const ReplyNotice: string := "This message responded to an earlier message."
  const AttachmentMissing: string := "Attachment missing!"
  const SharePlayNotice: string := "SharePlay Message\nEnded"

  /** Decode failures of app payloads (`PlistParseError`). */
  datatype ParseError = NoPayload | WrongMessageType | HandwritingError(reason: string) | PlistError(reason: string)

  datatype Config = Config(
    customName: Option<string>,
    /** `attachment_manager` is Compatible or Efficient rather than Disabled. */
    attachmentManagerEnabled: bool,
    /** `format(get_local_time(ts, offset))`. */
    formatDate: int -> string,
    /** `readable_diff(get_local_time(a, offset), get_local_time(b, offset))`. */
    readableDiff: (int, int) -> Option<string>,
    /** A check-in query-string date parsed as a float timestamp and formatted. */
    formatQueryTime: string -> string,
    /** The `Display` text of a decode failure. */
    describeParseError: ParseError -> string)

  /** `TextAttributes`: a range of the message text; the effect is not rendered in plain text. */
  datatype TextRange = TextRange(start: nat, end: nat)

  datatype BubbleComponent = TextPart(ranges: seq<TextRange>) | AttachmentPart | AppPart | RetractedPart

  datatype EditStatus = Edited | Unsent | Original

  datatype EditEvent = EditEvent(date: int, text: string)

  datatype EditedPart = EditedPart(status: EditStatus, history: seq<EditEvent>)

  /** An attachment row: whether it is a sticker, what `format_attachment` gives for it (the
      display path, or the file name when the attachment manager failed) and the sticker's
      effect name, when it has one. */
  datatype Attachment = Attachment(isSticker: bool, resolved: Result<string, string>, stickerEffect: Option<string>)

  /** The outcome of `Attachment::from_message`. */
  datatype AttachmentLookup = AttachmentsFound(items: seq<Attachment>) | AttachmentsFailed(error: string)

  /** A message in the tapback map: a reaction (added or removed) or a sticker placed on a part. */
  datatype Tapback =
    | Reaction(added: bool, kind: string, actor: string)
    | StickerTapback(actor: string, stickers: AttachmentLookup)

  datatype ScreenEffect = Confetti | Echo | Fireworks | Balloons | Heart | Lasers | ShootingStar | Sparkles | Spotlight
  datatype BubbleEffect = Slam | Loud | Gentle | InvisibleInk
  datatype Expressive = Screen(screen: ScreenEffect) | Bubble(bubble: BubbleEffect) | UnknownEffect(id: string) | NoEffect

  datatype Announcement = NameChange(name: string) | PhotoChange | UnknownAction(code: int) | FullyUnsent

  /** The app balloon kinds (`CustomBalloon`). */
  datatype CustomBalloon =
    | Application(bundleId: string) | ApplePay | Fitness | Slideshow | CheckIn | FindMy | Handwriting | Url

  datatype UrlOverride =
    | NormalUrl(url: UrlBalloon)
    | AppleMusic(music: MusicBalloon)
    | Collaboration(collaboration: CollaborationBalloon)
    | AppStore(appStore: AppStoreBalloon)
    | SharedPlacemark(placemark: PlacemarkBalloon)

  /** The message's raw payload, described by what each reader yields on it: whether
      `payload_data` can read it as a property list at all, the handwriting decoder, the
      property-list parser followed by the url override classifier, and the property-list
      parser followed by `AppMessage::from_map`. */
  datatype Payload = Payload(
    isPlist: bool,
    handwriting: Result<Handwritten, string>,
    urlOverride: Result<UrlOverride, ParseError>,
    app: Result<AppBalloon, ParseError>)

  datatype Message = Message(
    guid: string,
    date: int,
    dateEdited: int,
    /** `time_until_read`: the readable delay before the message was read, if it was. */
    readAfter: Option<string>,
    isFromMe: bool,
    /** `config.who(handle_id, is_from_me, destination_caller_id)`. */
    sender: string,
    isDeleted: bool,
    isReply: bool,
    isTapback: bool,
    subject: Option<string>,
    isSharePlay: bool,
    startedSharingLocation: bool,
    stoppedSharingLocation: bool,
    text: Option<string>,
    parts: seq<BubbleComponent>,
    editedParts: Option<seq<EditedPart>>,
    attachments: AttachmentLookup,
    replies: Replies,
    /** This message's entry of `config.tapbacks`, by part index. */
    tapbacks: map<nat, seq<Tapback>>,
    expressiveStyleId: Option<string>,
    expressive: Expressive,
    /** `Variant::App(balloon)` for app messages, None for every other variant. */
    balloon: Option<CustomBalloon>,
    payload: Option<Payload>)

  /** A reply in the thread started by a message, attached to one of its parts. */
  datatype Reply = Reply(part: nat, message: Message)

  /** The outcome of `get_replies`. */
  datatype Replies = RepliesFound(items: seq<Reply>) | RepliesFailed(error: string)

  predicate IsUrl(m: Message) {
    m.balloon == Some(Url)
  }

  predicate IsHandwriting(m: Message) {
    m.balloon == Some(Handwriting)
  }

  /** `EditedMessage::part`. */
  function EditedPartAt(m: Message, idx: nat): (r: Option<EditedPart>)
    ensures r.Some? <==> m.editedParts.Some? && idx < |m.editedParts.value|
  {
    if m.editedParts.Some? && idx < |m.editedParts.value| then Some(m.editedParts.value[idx]) else None
  }

  /** `is_part_edited`: the part has an edit record whose status is not Original. */
  predicate IsPartEdited(m: Message, idx: nat) {
    var p := EditedPartAt(m, idx);
    p.Some? && p.value.status != Original
  }

  /** The name used for the archive owner in the second person: the custom name, else "You". */
  function YouName(cfg: Config): (r: string)
    ensures cfg.customName.None? ==> r == You
  {
    if cfg.customName.Some? then cfg.customName.value else You
  }

  /** `get_time`: the formatted date, followed by who read it and after how long when the
      message was read after a non-empty delay. */
  function TimeLine(cfg: Config, m: Message): (r: string)
    ensures r == cfg.formatDate(m.date) <==> m.readAfter.None? || m.readAfter.value == ""
  {
    var date := cfg.formatDate(m.date);
    if m.readAfter.Some? && m.readAfter.value != "" then
      var reader := if m.isFromMe then "them"
                    else if cfg.customName.Some? then cfg.customName.value else "you";
      date + " (Read by " + reader + " after " + m.readAfter.value + ")"
    else date
  }

  /** The time line starts with the message date, and a read receipt closes it with the delay. */
  lemma TimeLineShape(cfg: Config, m: Message)
    ensures StartsWith(TimeLine(cfg, m), cfg.formatDate(m.date))
    ensures m.readAfter.Some? && m.readAfter.value != "" ==>
              EndsWith(TimeLine(cfg, m), " after " + m.readAfter.value + ")")
  {
    var date := cfg.formatDate(m.date);
    var r := TimeLine(cfg, m);
    assert r[..|date|] == date;
    if m.readAfter.Some? && m.readAfter.value != "" {
      var tail := " after " + m.readAfter.value + ")";
      assert r[|r| - |tail|..] == tail;
    }
  }

  /** `format_sticker`: the sticker's path (or file name when copying failed), with its effect
      when the path resolved and the sticker has one. */
  function StickerText(who: string, a: Attachment): (r: string)
    ensures r != ""
  {
    match a.resolved
    case Ok(path) =>
      if a.stickerEffect.Some? then a.stickerEffect.value + " Sticker from " + who + ": " + path
      else "Sticker from " + who + ": " + path
    case Err(name) => "Sticker from " + who + ": " + name
  }

  /** A sticker line names the sender and ends with the sticker's path, or its file name
      when the path could not be resolved; only a resolved sticker with an effect has a prefix. */
  lemma StickerTextShape(who: string, a: Attachment)
    ensures EndsWith(StickerText(who, a),
                     "Sticker from " + who + ": " + (if a.resolved.Ok? then a.resolved.value else a.resolved.error))
    ensures a.resolved.Err? || a.stickerEffect.None? ==> StartsWith(StickerText(who, a), "Sticker from ")
  {
    var r := StickerText(who, a);
    var tail := "Sticker from " + who + ": " + (if a.resolved.Ok? then a.resolved.value else a.resolved.error);
    assert r[|r| - |tail|..] == tail;
    if a.resolved.Err? || a.stickerEffect.None? {
      assert r[..|"Sticker from "|] == "Sticker from ";
    }
  }

  /** `format_tapback`: a removed reaction renders as the empty string, an added one as
      "<kind> by <actor>"; a sticker renders its first attachment, and fails only when its
      attachments cannot be read. */
  function TapbackText(t: Tapback): (r: Result<string, string>)
    ensures t.Reaction? && !t.added ==> r == Ok("")
    ensures t.Reaction? && t.added ==> r.Ok? && r.value != ""
    ensures r.Err? <==> t.StickerTapback? && t.stickers.AttachmentsFailed?
    ensures t.StickerTapback? && r.Ok? ==> r.value != ""
  {
    match t
    case Reaction(added, kind, actor) =>
      if !added then Ok("") else Ok(kind + " by " + actor)
    case StickerTapback(actor, stickers) =>
      match stickers
      case AttachmentsFailed(e) => Err(e)
      case AttachmentsFound(items) =>
        if |items| > 0 then Ok(StickerText(actor, items[0]) + " from " + actor)
        else Ok("Sticker from " + actor + " not found!")
  }

  /** An added reaction names who reacted. */
  lemma ReactionNamesActor(t: Tapback)
    requires t.Reaction? && t.added
    ensures EndsWith(TapbackText(t).value, " by " + t.actor)
  {
    var r := TapbackText(t).value;
    assert r[|r| - |" by " + t.actor|..] == " by " + t.actor;
  }

  /** `format_expressive`: the label of a known effect, the raw id of an unknown one. */
  function ExpressiveText(e: Expressive): (r: string)
    ensures e.Screen? || e.Bubble? ==> |r| > |"Sent with "| && r[..10] == "Sent with "
    ensures e.UnknownEffect? ==> r == e.id
    ensures e == NoEffect ==> r == ""
  {
    match e
    case Screen(effect) => (
      match effect
      case Confetti => "Sent with Confetti"
      case Echo => "Sent with Echo"
      case Fireworks => "Sent with Fireworks"
      case Balloons => "Sent with Balloons"
      case Heart => "Sent with Heart"
      case Lasers => "Sent with Lasers"
      case ShootingStar => "Sent with Shooting Star"
      case Sparkles => "Sent with Sparkles"
      case Spotlight => "Sent with Spotlight")
    case Bubble(effect) => (
      match effect
      case Slam => "Sent with Slam"
      case Loud => "Sent with Loud"
      case Gentle => "Sent with Gentle"
      case InvisibleInk => "Sent with Invisible Ink")
    case UnknownEffect(id) => id
    case NoEffect => ""
  }

  /** Distinct known effects carry distinct labels. */
  lemma ExpressiveLabelsDistinct(a: Expressive, b: Expressive)
    requires a.Screen? || a.Bubble?
    requires b.Screen? || b.Bubble?
    requires ExpressiveText(a) == ExpressiveText(b)
    ensures a == b
  {
    var la, lb := ExpressiveText(a), ExpressiveText(b);
    assert la[10..] == lb[10..];
  }

  /** `format_shared_location`: starting wins over stopping. */
  function SharedLocationText(started: bool, stopped: bool): (r: string)
    ensures started ==> r == "Started sharing location!"
    ensures !started && stopped ==> r == "Stopped sharing location!"
    ensures !started && !stopped ==> r == "Shared location!"
  {
    if started then "Started sharing location!"
    else if stopped then "Stopped sharing location!"
    else "Shared location!"
  }

  /** `format_announcement`: the timestamp and who acted, then what they did, then a blank
      line; an announcement that did not decode is reported as such. */
  function AnnouncementText(cfg: Config, m: Message, a: Option<Announcement>): (r: string)
    ensures a.None? ==> r == "Unable to format announcement!\n\n"
  {
    match a
    case Some(action) => Announcer(cfg, m) + ActionText(action) + "\n\n"
    case None => "Unable to format announcement!\n\n"
  }

  /** The timestamp and the actor that open an announcement, the owner in the second person. */
  function Announcer(cfg: Config, m: Message): string {
    cfg.formatDate(m.date) + " " + (if m.sender == Me then YouName(cfg) else m.sender) + " "
  }

  /** What an announcement says was done. */
  function ActionText(action: Announcement): string {
    match action
    case NameChange(name) => "renamed the conversation to " + name
    case PhotoChange => "changed the group photo."
    case UnknownAction(num) => "performed unknown action " + IntToString(num) + "."
    case FullyUnsent => "unsent a message!"
  }

  /** Every announcement ends with a blank line. */
  lemma AnnouncementEndsBlank(cfg: Config, m: Message, a: Option<Announcement>)
    ensures EndsWith(AnnouncementText(cfg, m, a), "\n\n")
  {
    var r := AnnouncementText(cfg, m, a);
    assert r[|r| - 2..] == "\n\n";
  }

  /** A recognised announcement starts with its timestamp and who made it. */
  lemma AnnouncementNamesActor(cfg: Config, m: Message, a: Option<Announcement>)
    requires a.Some?
    ensures StartsWith(AnnouncementText(cfg, m, a), Announcer(cfg, m))
  {
    var head := Announcer(cfg, m);
    var r := AnnouncementText(cfg, m, a);
    assert r == head + (ActionText(a.value) + "\n\n");
    assert r[..|head|] == head;
  }
}
