/**
 * The `BalloonFormatter` implementation of the database exporter (db.rs): one
 * formatter per decoded app balloon. Each grows a string step by step; the
 * `...Text` functions are the reference definitions the methods are proved against.
 */
module BalloonFormatter {
  import opened Wrappers
  import opened Text

  datatype UrlBalloon = UrlBalloon(url: Option<string>, title: Option<string>, summary: Option<string>)

  datatype MusicBalloon = MusicBalloon(
    trackName: Option<string>, album: Option<string>, artist: Option<string>, url: Option<string>)

  datatype CollaborationBalloon = CollaborationBalloon(
    appName: Option<string>, bundleId: Option<string>, title: Option<string>, url: Option<string>)

  datatype AppStoreBalloon = AppStoreBalloon(
    appName: Option<string>, description: Option<string>, platform: Option<string>,
    genre: Option<string>, url: Option<string>)

  datatype Placemark = Placemark(
    name: Option<string>, address: Option<string>, state: Option<string>, city: Option<string>,
    isoCountryCode: Option<string>, postalCode: Option<string>, country: Option<string>,
    street: Option<string>, subAdministrativeArea: Option<string>, subLocality: Option<string>)

  datatype PlacemarkBalloon = PlacemarkBalloon(placeName: Option<string>, url: Option<string>, placemark: Placemark)

  /** `AppMessage`; `query` is what `parse_query_string` yields for the balloon's URL. */
  datatype AppBalloon = AppBalloon(
    appName: Option<string>, title: Option<string>, subtitle: Option<string>,
    caption: Option<string>, subcaption: Option<string>,
    trailingCaption: Option<string>, trailingSubcaption: Option<string>,
    ldtext: Option<string>, url: Option<string>, query: map<string, string>)

  /** A decoded handwritten message: its 40-column ASCII rendering and, when the attachment
      manager saved it as an image, the path it was saved under. */
  datatype Handwritten = Handwritten(ascii: string, savedPath: Option<string>)

  /** What `if let Some(x) = field { add_line(x) }` contributes: nothing unless the field is present. */
  function Field(f: Option<string>, indent: string): (r: string)
    ensures f.None? ==> r == ""
    ensures f.Some? ==> r == Line(f.value, indent)
  {
    if f.Some? then Line(f.value, indent) else ""
  }

  method PushField(s: string, f: Option<string>, indent: string) returns (r: string)
    ensures r == s + Field(f, indent)
  {
    r := s;
    if f.Some? {
      r := AddLine(r, f.value, indent);
      AppendLineIsLine(s, f.value, indent);
    }
  }

  /** The `"<name> message:\n"` header of collaboration and generic app balloons; it is
      written whenever indent plus name is non-empty. */
  function Header(indent: string, name: string): (r: string)
    ensures indent + name == "" <==> r == ""
    ensures r != "" ==> r == indent + name + " message:\n"
  {
    if indent + name == "" then "" else indent + name + " message:\n"
  }

  // ---------------------------------------------------------------- url

  /** A field that `add_line` skips: absent or empty. */
  predicate Blank(f: Option<string>) {
    f.None? || f.value == ""
  }

  /** The url balloon: its lines with the one trailing newline removed. */
  function UrlText(b: UrlBalloon, text: Option<string>, indent: string): (r: string)
    ensures UrlLines(b, text, indent) == "" ==> r == ""
    ensures UrlLines(b, text, indent) != "" ==> r + "\n" == UrlLines(b, text, indent)
  {
    StripNewline(UrlLines(b, text, indent))
  }

  /** The lines before the final newline is stripped: the url (or, without one, the
      message text), then title, then summary. */
  function UrlLines(b: UrlBalloon, text: Option<string>, indent: string): string {
    Field(if b.url.Some? then b.url else text, indent) + Field(b.title, indent) + Field(b.summary, indent)
  }

  method FormatUrl(b: UrlBalloon, text: Option<string>, indent: string) returns (r: string)
    ensures r == UrlText(b, text, indent)
  {
    var out := "";
    if b.url.Some? {
      out := AddLine(out, b.url.value, indent);
      AppendLineIsLine("", b.url.value, indent);
    } else if text.Some? {
      out := AddLine(out, text.value, indent);
      AppendLineIsLine("", text.value, indent);
    }
    assert out == Field(if b.url.Some? then b.url else text, indent);
    out := PushField(out, b.title, indent);
    out := PushField(out, b.summary, indent);
    assert out == UrlLines(b, text, indent);
    r := StripNewline(out);
  }

  // ---------------------------------------------------------------- music

  /** The music balloon keeps its final newline: unlike the other line-based balloons it is not stripped. */
  function MusicText(b: MusicBalloon, indent: string): (r: string)
    ensures r == "" <==> Blank(b.trackName) && Blank(b.album) && Blank(b.artist) && Blank(b.url)
    ensures r != "" ==> r[|r| - 1] == '\n'
  {
    Field(b.trackName, indent) + Field(b.album, indent) + Field(b.artist, indent) + Field(b.url, indent)
  }

  method FormatMusic(b: MusicBalloon, indent: string) returns (r: string)
    ensures r == MusicText(b, indent)
  {
    r := "";
    r := PushField(r, b.trackName, indent);
    r := PushField(r, b.album, indent);
    r := PushField(r, b.artist, indent);
    r := PushField(r, b.url, indent);
  }

  // ---------------------------------------------------------------- collaboration

  function CollaborationName(b: CollaborationBalloon): string {
    if b.appName.Some? then b.appName.value else if b.bundleId.Some? then b.bundleId.value else ""
  }

  function CollaborationLines(b: CollaborationBalloon, indent: string): string {
    Header(indent, CollaborationName(b)) + Field(b.title, indent) + Field(b.url, indent)
  }

  /** The collaboration balloon: header and lines with the one trailing newline removed. */
  function CollaborationText(b: CollaborationBalloon, indent: string): (r: string)
    ensures CollaborationLines(b, indent) == "" ==> r == ""
    ensures CollaborationLines(b, indent) != "" ==> r + "\n" == CollaborationLines(b, indent)
  {
    StripNewline(CollaborationLines(b, indent))
  }

  method FormatCollaboration(b: CollaborationBalloon, indent: string) returns (r: string)
    ensures r == CollaborationText(b, indent)
  {
    var out := indent;
    if b.appName.Some? {
      out := out + b.appName.value;
    } else if b.bundleId.Some? {
      out := out + b.bundleId.value;
    }
    if out != "" {
      out := out + " message:\n";
    }
    assert out == Header(indent, CollaborationName(b));
    out := PushField(out, b.title, indent);
    out := PushField(out, b.url, indent);
    assert out == CollaborationLines(b, indent);
    r := StripNewline(out);
  }

  // ---------------------------------------------------------------- app store

  /** Note the leading `indent` before the first line, which itself is indented: the
      first line carries the indentation twice. */
  function AppStoreLines(b: AppStoreBalloon, indent: string): string {
    indent + Field(b.appName, indent) + Field(b.description, indent) + Field(b.platform, indent)
    + Field(b.genre, indent) + Field(b.url, indent)
  }

  /** The App Store balloon: its lines with one trailing newline removed; with every field
      blank only the leading indentation is left. */
  function AppStoreText(b: AppStoreBalloon, indent: string): (r: string)
    ensures !(Blank(b.appName) && Blank(b.description) && Blank(b.platform) && Blank(b.genre) && Blank(b.url))
            ==> r + "\n" == AppStoreLines(b, indent)
    ensures Blank(b.appName) && Blank(b.description) && Blank(b.platform) && Blank(b.genre) && Blank(b.url)
            ==> r == StripNewline(indent)
    ensures EndsWith(AppStoreLines(b, indent), "\n") ==> r + "\n" == AppStoreLines(b, indent)
    ensures !EndsWith(AppStoreLines(b, indent), "\n") ==> r == AppStoreLines(b, indent)
  {
    StripNewline(AppStoreLines(b, indent))
  }

  method FormatAppStore(b: AppStoreBalloon, indent: string) returns (r: string)
    ensures r == AppStoreText(b, indent)
  {
    var out := indent;
    out := PushField(out, b.appName, indent);
    out := PushField(out, b.description, indent);
    out := PushField(out, b.platform, indent);
    out := PushField(out, b.genre, indent);
    out := PushField(out, b.url, indent);
    r := StripNewline(out);
  }

  // ---------------------------------------------------------------- placemark

  function PlacemarkLines(b: PlacemarkBalloon, indent: string): string {
    var p := b.placemark;
    indent + Field(b.placeName, indent) + Field(b.url, indent) + Field(p.name, indent)
    + Field(p.address, indent) + Field(p.state, indent) + Field(p.city, indent)
    + Field(p.isoCountryCode, indent) + Field(p.postalCode, indent) + Field(p.country, indent)
    + Field(p.street, indent) + Field(p.subAdministrativeArea, indent) + Field(p.subLocality, indent)
  }

  /** The placemark balloon: place name, url, then the address parts in a fixed order. */
  function PlacemarkText(b: PlacemarkBalloon, indent: string): (r: string)
    ensures !Blank(b.placemark.subLocality) ==> r + "\n" == PlacemarkLines(b, indent)
    ensures EndsWith(PlacemarkLines(b, indent), "\n") ==> r + "\n" == PlacemarkLines(b, indent)
    ensures Blank(b.placeName) && Blank(b.url) && Blank(b.placemark.name) && Blank(b.placemark.address)
            && Blank(b.placemark.state) && Blank(b.placemark.city) && Blank(b.placemark.isoCountryCode)
            && Blank(b.placemark.postalCode) && Blank(b.placemark.country) && Blank(b.placemark.street)
            && Blank(b.placemark.subAdministrativeArea) && Blank(b.placemark.subLocality)
            ==> r == StripNewline(indent)
    ensures !EndsWith(PlacemarkLines(b, indent), "\n") ==> r == PlacemarkLines(b, indent)
  {
    PlacemarkBlank(b, indent);
    StripNewline(PlacemarkLines(b, indent))
  }

  lemma PlacemarkBlank(b: PlacemarkBalloon, indent: string)
    ensures Blank(b.placeName) && Blank(b.url) && Blank(b.placemark.name) && Blank(b.placemark.address)
            && Blank(b.placemark.state) && Blank(b.placemark.city) && Blank(b.placemark.isoCountryCode)
            && Blank(b.placemark.postalCode) && Blank(b.placemark.country) && Blank(b.placemark.street)
            && Blank(b.placemark.subAdministrativeArea) && Blank(b.placemark.subLocality)
            ==> PlacemarkLines(b, indent) == indent
  {
    var p := b.placemark;
    if Blank(b.placeName) && Blank(b.url) && Blank(p.name) && Blank(p.address) && Blank(p.state)
       && Blank(p.city) && Blank(p.isoCountryCode) && Blank(p.postalCode) && Blank(p.country)
       && Blank(p.street) && Blank(p.subAdministrativeArea) && Blank(p.subLocality)
    {
      BlankField(b.placeName, indent); BlankField(b.url, indent); BlankField(p.name, indent);
      BlankField(p.address, indent); BlankField(p.state, indent); BlankField(p.city, indent);
      BlankField(p.isoCountryCode, indent); BlankField(p.postalCode, indent); BlankField(p.country, indent);
      BlankField(p.street, indent); BlankField(p.subAdministrativeArea, indent); BlankField(p.subLocality, indent);
      assert indent + "" == indent;
    }
  }

  lemma BlankField(f: Option<string>, indent: string)
    requires Blank(f)
    ensures Field(f, indent) == ""
  {
  }

  method FormatPlacemark(b: PlacemarkBalloon, indent: string) returns (r: string)
    ensures r == PlacemarkText(b, indent)
  {
    var out := indent;
    out := PushField(out, b.placeName, indent);
    out := PushField(out, b.url, indent);
    out := PushField(out, b.placemark.name, indent);
    out := PushField(out, b.placemark.address, indent);
    out := PushField(out, b.placemark.state, indent);
    out := PushField(out, b.placemark.city, indent);
    out := PushField(out, b.placemark.isoCountryCode, indent);
    out := PushField(out, b.placemark.postalCode, indent);
    out := PushField(out, b.placemark.country, indent);
    out := PushField(out, b.placemark.street, indent);
    out := PushField(out, b.placemark.subAdministrativeArea, indent);
    out := PushField(out, b.placemark.subLocality, indent);
    assert out == PlacemarkLines(b, indent);
    r := StripNewline(out);
  }

  // ---------------------------------------------------------------- handwriting

  /** With the attachment manager disabled, or when saving the image failed, the ASCII
      rendering with `indent` inserted before every newline; otherwise the saved path. */
  function HandwritingText(h: Handwritten, managerEnabled: bool, indent: string): (r: string)
    ensures managerEnabled && h.savedPath.Some? ==> r == indent + h.savedPath.value
    ensures !(managerEnabled && h.savedPath.Some?) && (indent == "" || '\n' !in h.ascii) ==> r == h.ascii
  {
    if managerEnabled && h.savedPath.Some? then indent + h.savedPath.value
    else
      HandwritingUnindented(h.ascii, indent);
      ReplaceAll(h.ascii, "\n", indent + "\n")
  }

  /** At the top level, or for a one-line drawing, the indentation changes nothing. */
  lemma HandwritingUnindented(ascii: string, indent: string)
    ensures indent == "" || '\n' !in ascii ==> ReplaceAll(ascii, "\n", indent + "\n") == ascii
  {
    if indent == "" {
      assert indent + "\n" == "\n";
      ReplaceAllSame(ascii, "\n");
    } else if '\n' !in ascii {
      ReplaceAllAbsent(ascii, '\n', indent + "\n");
    }
  }

  method FormatHandwriting(h: Handwritten, managerEnabled: bool, indent: string) returns (r: string)
    ensures r == HandwritingText(h, managerEnabled, indent)
  {
    if !managerEnabled {
      r := ReplaceAll(h.ascii, "\n", indent + "\n");
    } else {
      match h.savedPath
      case Some(path) => r := indent + path;
      case None => r := ReplaceAll(h.ascii, "\n", indent + "\n");
    }
  }

  // ---------------------------------------------------------------- Apple Pay, Fitness, Slideshow, Find My

  /** The amount closes the line, "unknown amount" standing in for a missing one. */
  function ApplePayText(b: AppBalloon, indent: string): (r: string)
    ensures StartsWith(r, indent)
    ensures EndsWith(r, if b.ldtext.Some? then b.ldtext.value else "unknown amount")
    ensures b.caption.Some? ==> StartsWith(r, indent + b.caption.value + " transaction: ")
  {
    var caption := if b.caption.Some? then b.caption.value + " transaction: " else "";
    var amount := if b.ldtext.Some? then b.ldtext.value else "unknown amount";
    Joined(indent, caption, amount);
    indent + caption + amount
  }

  method FormatApplePay(b: AppBalloon, indent: string) returns (r: string)
    ensures r == ApplePayText(b, indent)
  {
    r := indent;
    if b.caption.Some? {
      r := r + b.caption.value;
      r := r + " transaction: ";
    }
    if b.ldtext.Some? {
      r := r + b.ldtext.value;
    } else {
      r := r + "unknown amount";
    }
  }

  /** The workout closes the line, "unknown workout" standing in for a missing one. */
  function FitnessText(b: AppBalloon, indent: string): (r: string)
    ensures StartsWith(r, indent)
    ensures EndsWith(r, if b.ldtext.Some? then b.ldtext.value else "unknown workout")
    ensures b.appName.Some? ==> StartsWith(r, indent + b.appName.value + " message: ")
  {
    var app := if b.appName.Some? then b.appName.value + " message: " else "";
    var workout := if b.ldtext.Some? then b.ldtext.value else "unknown workout";
    Joined(indent, app, workout);
    indent + app + workout
  }

  method FormatFitness(b: AppBalloon, indent: string) returns (r: string)
    ensures r == FitnessText(b, indent)
  {
    r := indent;
    if b.appName.Some? {
      r := r + b.appName.value;
      r := r + " message: ";
    }
    if b.ldtext.Some? {
      r := r + b.ldtext.value;
    } else {
      r := r + "unknown workout";
    }
  }

  /** The album title, then the url; a balloon with neither is the bare indentation. */
  function SlideshowText(b: AppBalloon, indent: string): (r: string)
    ensures StartsWith(r, indent)
    ensures b.ldtext.None? && b.url.None? <==> r == indent
    ensures b.url.Some? ==> EndsWith(r, " " + b.url.value)
    ensures b.ldtext.Some? ==> StartsWith(r, indent + "Photo album: " + b.ldtext.value)
  {
    var album := if b.ldtext.Some? then "Photo album: " + b.ldtext.value else "";
    var link := if b.url.Some? then " " + b.url.value else "";
    Joined(indent, album, link);
    indent + album + link
  }

  method FormatSlideshow(b: AppBalloon, indent: string) returns (r: string)
    ensures r == SlideshowText(b, indent)
  {
    r := indent;
    if b.ldtext.Some? {
      r := r + "Photo album: ";
      r := r + b.ldtext.value;
    }
    if b.url.Some? {
      r := r + " ";
      r := r + b.url.value;
    }
  }

  /** The app name, then the status text; a balloon with neither is the bare indentation. */
  function FindMyText(b: AppBalloon, indent: string): (r: string)
    ensures StartsWith(r, indent)
    ensures b.appName.None? && b.ldtext.None? <==> r == indent
    ensures b.ldtext.Some? ==> EndsWith(r, " " + b.ldtext.value)
  {
    var app := if b.appName.Some? then b.appName.value + ": " else "";
    var status := if b.ldtext.Some? then " " + b.ldtext.value else "";
    Joined(indent, app, status);
    indent + app + status
  }

  method FormatFindMy(b: AppBalloon, indent: string) returns (r: string)
    ensures r == FindMyText(b, indent)
  {
    r := indent;
    if b.appName.Some? {
      r := r + b.appName.value;
      r := r + ": ";
    }
    if b.ldtext.Some? {
      r := r + " ";
      r := r + b.ldtext.value;
    }
  }

  // ---------------------------------------------------------------- check in

  /** The caption (default "Check In"), then the first of the three query-string dates the
      balloon carries, each with its own wording. `formatTime` stands for parsing the value as
      a floating-point timestamp and formatting it as a local date. */
  function CheckInText(b: AppBalloon, formatTime: string -> string, indent: string): (r: string)
    ensures var head := indent + (if b.caption.Some? then b.caption.value else "Check In");
            StartsWith(r, head)
            && ("estimatedEndTime" in b.query ==> r == head + "\nExpected at " + formatTime(b.query["estimatedEndTime"]))
            && ("estimatedEndTime" !in b.query && "triggerTime" in b.query ==>
                  r == head + "\nWas expected at " + formatTime(b.query["triggerTime"]))
            && ("estimatedEndTime" !in b.query && "triggerTime" !in b.query && "sendDate" in b.query ==>
                  r == head + "\nChecked in at " + formatTime(b.query["sendDate"]))
            && ("estimatedEndTime" !in b.query && "triggerTime" !in b.query && "sendDate" !in b.query ==> r == head)
  {
    indent + (if b.caption.Some? then b.caption.value else "Check In")
    + (if "estimatedEndTime" in b.query then "\nExpected at " + formatTime(b.query["estimatedEndTime"])
       else if "triggerTime" in b.query then "\nWas expected at " + formatTime(b.query["triggerTime"])
       else if "sendDate" in b.query then "\nChecked in at " + formatTime(b.query["sendDate"])
       else "")
  }

  method FormatCheckIn(b: AppBalloon, formatTime: string -> string, indent: string) returns (r: string)
    ensures r == CheckInText(b, formatTime, indent)
  {
    r := indent;
    r := r + (if b.caption.Some? then b.caption.value else "Check In");
    if "estimatedEndTime" in b.query {
      r := r + "\nExpected at ";
      r := r + formatTime(b.query["estimatedEndTime"]);
    } else if "triggerTime" in b.query {
      r := r + "\nWas expected at ";
      r := r + formatTime(b.query["triggerTime"]);
    } else if "sendDate" in b.query {
      r := r + "\nChecked in at ";
      r := r + formatTime(b.query["sendDate"]);
    }
  }

  // ---------------------------------------------------------------- generic app

  function GenericAppLines(b: AppBalloon, bundleId: string, indent: string): string {
    Header(indent, if b.appName.Some? then b.appName.value else bundleId)
    + Field(b.title, indent) + Field(b.subtitle, indent) + Field(b.caption, indent)
    + Field(b.subcaption, indent) + Field(b.trailingCaption, indent) + Field(b.trailingSubcaption, indent)
  }

  /** A generic app balloon: header and lines with the one trailing newline removed. */
  function GenericAppText(b: AppBalloon, bundleId: string, indent: string): (r: string)
    ensures GenericAppLines(b, bundleId, indent) == "" ==> r == ""
    ensures GenericAppLines(b, bundleId, indent) != "" ==> r + "\n" == GenericAppLines(b, bundleId, indent)
  {
    StripNewline(GenericAppLines(b, bundleId, indent))
  }

  method FormatGenericApp(b: AppBalloon, bundleId: string, indent: string) returns (r: string)
    ensures r == GenericAppText(b, bundleId, indent)
  {
    var out := indent;
    if b.appName.Some? {
      out := out + b.appName.value;
    } else {
      out := out + bundleId;
    }
    if out != "" {
      out := out + " message:\n";
    }
    out := PushField(out, b.title, indent);
    out := PushField(out, b.subtitle, indent);
    out := PushField(out, b.caption, indent);
    out := PushField(out, b.subcaption, indent);
    out := PushField(out, b.trailingCaption, indent);
    out := PushField(out, b.trailingSubcaption, indent);
    assert out == GenericAppLines(b, bundleId, indent);
    r := StripNewline(out);
  }
}
