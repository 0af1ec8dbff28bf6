/**
 * String building blocks shared by the transcript renderer and the sinks:
 * `add_line`, indentation, `strip_suffix('\n')`, `str::replace` and the
 * decimal rendering of integers that `to_string()`/`format!` perform.
 */
module Text {
  import opened Wrappers

  /** What `add_line(part, indent)` appends: nothing for an empty part, else one indented line. */
  function Line(part: string, indent: string): (r: string)
    ensures r == "" <==> part == ""
  {
    if part == "" then "" else indent + part + "\n"
  }

  /** A non-empty line begins with its indentation and ends with a newline. */
  lemma LineShape(part: string, indent: string)
    requires part != ""
    ensures StartsWith(Line(part, indent), indent) && EndsWith(Line(part, indent), "\n")
  {
    var r := Line(part, indent);
    assert r[..|indent|] == indent;
    assert r[|r| - 1..] == "\n";
  }

  /** `add_line` (db.rs): `s` with `part` pushed as an indented line, unless `part` is empty. */
  function AppendLine(s: string, part: string, indent: string): string {
    if part == "" then s else s + indent + part + "\n"
  }

  /** `add_line` pushes exactly the line `Line` describes. */
  lemma AppendLineIsLine(s: string, part: string, indent: string)
    ensures AppendLine(s, part, indent) == s + Line(part, indent)
  {
    if part != "" {
      assert s + indent + part + "\n" == s + (indent + part + "\n");
    }
  }

  /** `add_line` only ever extends the text, and a non-empty part leaves it ending in a newline. */
  lemma AppendLineExtends(s: string, part: string, indent: string)
    ensures StartsWith(AppendLine(s, part, indent), s)
    ensures part != "" <==> |AppendLine(s, part, indent)| > |s|
    ensures part != "" ==> EndsWith(AppendLine(s, part, indent), "\n")
  {
    var r := AppendLine(s, part, indent);
    assert r[..|s|] == s;
    if part != "" {
      assert r[|r| - 1..] == "\n";
    }
  }

  /** A text made of whole lines: empty, or ending in a newline. */
  predicate Lined(s: string) {
    s == "" || s[|s| - 1] == '\n'
  }

  /** `s` is `s0` followed by zero or more whole lines: the text only grew, and whatever was
      added ends with a newline. */
  predicate AddsLines(s0: string, s: string) {
    StartsWith(s, s0) && (|s| > |s0| ==> s[|s| - 1] == '\n')
  }

  /** `add_line` adds whole lines. */
  lemma AppendLineAddsLines(s: string, part: string, indent: string)
    ensures AddsLines(s, AppendLine(s, part, indent))
  {
    AppendLineExtends(s, part, indent);
  }

  /** Adding lines to what added lines adds lines. */
  lemma {:induction false} AddsLinesTrans(a: string, b: string, c: string)
    requires AddsLines(a, b) && AddsLines(b, c)
    ensures AddsLines(a, c)
  {
    assert c[..|a|] == c[..|b|][..|a|];
  }

  /** Whole lines added to a text of whole lines leave a text of whole lines. */
  lemma AddsLinesLined(s0: string, s: string)
    requires AddsLines(s0, s) && Lined(s0)
    ensures Lined(s)
  {
    if |s| == |s0| {
      assert s == s[..|s0|];
    }
  }

  /** `add_line` on a `String` buffer: indent, part and newline pushed one after the other. */
  method AddLine(s: string, part: string, indent: string) returns (r: string)
    ensures r == AppendLine(s, part, indent)
  {
    r := s;
    if part != "" {
      r := r + indent;
      r := r + part;
      r := r + "\n";
    }
  }

  /** `String::from_iter((0..n).map(|_| " "))`: the indentation of a render at depth `n`. */
  function Spaces(n: nat): (r: string)
    ensures |r| == n
    ensures forall i :: 0 <= i < n ==> r[i] == ' '
  {
    if n == 0 then "" else Spaces(n - 1) + " "
  }

  predicate StartsWith(s: string, prefix: string) {
    |prefix| <= |s| && s[..|prefix|] == prefix
  }

  predicate EndsWith(s: string, suffix: string) {
    |suffix| <= |s| && s[|s| - |suffix|..] == suffix
  }

  /** Three pieces pushed one after another: each prefix starts the text, the last piece ends
      it, and the text is the first piece alone only when the other two are empty. */
  lemma Joined(a: string, b: string, c: string)
    ensures StartsWith(a + b + c, a) && StartsWith(a + b + c, a + b) && EndsWith(a + b + c, c)
    ensures a + b + c == a <==> b == "" && c == ""
  {
    var s := a + b + c;
    assert s[..|a|] == a;
    assert s[..|a + b|] == a + b;
    assert s[|s| - |c|..] == c;
    assert |s| == |a| + |b| + |c|;
  }

  /** `s.strip_suffix('\n').unwrap_or(s)`: removes at most one trailing newline. */
  function StripNewline(s: string): (r: string)
    ensures EndsWith(s, "\n") ==> r + "\n" == s
    ensures !EndsWith(s, "\n") ==> r == s
  {
    if |s| > 0 && s[|s| - 1] == '\n' then s[..|s| - 1] else s
  }

  /** `str::replace(from, to)`: every non-overlapping occurrence of `from`, scanned left to right. */
  function ReplaceAll(s: string, from: string, to: string): (r: string)
    requires from != ""
    decreases |s|
  {
    if |s| < |from| then s
    else if s[..|from|] == from then to + ReplaceAll(s[|from|..], from, to)
    else [s[0]] + ReplaceAll(s[1..], from, to)
  }

  /** A text that begins with the pattern begins, once replaced, with the replacement. */
  lemma ReplaceAllAtStart(s: string, from: string, to: string)
    requires from != "" && StartsWith(s, from)
    ensures StartsWith(ReplaceAll(s, from, to), to)
  {
  }

  /** Replacing a pattern by itself changes nothing. */
  lemma {:induction false} ReplaceAllSame(s: string, from: string)
    requires from != ""
    ensures ReplaceAll(s, from, from) == s
    decreases |s|
  {
    if |s| >= |from| {
      if s[..|from|] == from {
        ReplaceAllSame(s[|from|..], from);
        assert s == s[..|from|] + s[|from|..];
      } else {
        ReplaceAllSame(s[1..], from);
        assert s == [s[0]] + s[1..];
      }
    }
  }

  /** A one-character pattern that never occurs leaves the text as it is. */
  lemma {:induction false} ReplaceAllAbsent(s: string, c: char, to: string)
    requires c !in s
    ensures ReplaceAll(s, [c], to) == s
    decreases |s|
  {
    if |s| >= 1 {
      assert s[..1] != [c] by { assert s[..1][0] == s[0]; }
      ReplaceAllAbsent(s[1..], c, to);
      assert s == [s[0]] + s[1..];
    }
  }

  function DigitChar(d: nat): (c: char)
    requires d < 10
  {
    "0123456789"[d]
  }

  /** Decimal digits of a natural number, most significant first, without leading zeros. */
  function NatToString(n: nat): (r: string)
    ensures |r| > 0
    ensures forall i :: 0 <= i < |r| ==> '0' <= r[i] <= '9'
    decreases n
  {
    if n < 10 then [DigitChar(n)] else NatToString(n / 10) + [DigitChar(n % 10)]
  }

  /** `i64::to_string` / `format!("{}")` of a signed integer. */
  function IntToString(n: int): (r: string)
    ensures |r| > 0
  {
    if n < 0 then "-" + NatToString(-n) else NatToString(n)
  }

  /** Reads back what `NatToString` wrote. */
  function ParseDigits(s: string): nat
    decreases |s|
  {
    if s == [] then 0
    else
      var d := s[|s| - 1] as int - '0' as int;
      ParseDigits(s[..|s| - 1]) * 10 + (if 0 <= d < 10 then d else 0)
  }

  lemma {:induction false} ParseNatToString(n: nat)
    ensures ParseDigits(NatToString(n)) == n
    decreases n
  {
    var s := NatToString(n);
    if n >= 10 {
      ParseNatToString(n / 10);
      assert s[..|s| - 1] == NatToString(n / 10);
    }
  }

  lemma NatToStringInjective(a: nat, b: nat)
    requires NatToString(a) == NatToString(b)
    ensures a == b
  {
    ParseNatToString(a);
    ParseNatToString(b);
  }

  /** Distinct integers print differently, so a printed id identifies its integer. */
  lemma IntToStringInjective(a: int, b: int)
    requires IntToString(a) == IntToString(b)
    ensures a == b
  {
    var sa, sb := IntToString(a), IntToString(b);
    assert (a < 0) == (sa[0] == '-') && (b < 0) == (sb[0] == '-');
    if a < 0 && b < 0 {
      assert sa == "-" + NatToString(-a);
      assert sb == "-" + NatToString(-b);
      assert sa[1..] == NatToString(-a);
      assert sb[1..] == NatToString(-b);
      NatToStringInjective(-a, -b);
    } else if a >= 0 && b >= 0 {
      NatToStringInjective(a, b);
    }
  }

  // ---------------------------------------------------------------- UTF-8 byte offsets

  /** The number of bytes UTF-8 spends on one character. */
  function Utf8Width(c: char): (r: nat)
    ensures 1 <= r <= 4
  {
    if c as int < 0x80 then 1 else if c as int < 0x800 then 2 else if c as int < 0x1_0000 then 3 else 4
  }

  /** `str::len`: the length of a text in UTF-8 bytes. */
  function ByteLen(s: string): (r: nat)
    ensures r >= |s|
  {
    if s == [] then 0 else Utf8Width(s[0]) + ByteLen(s[1..])
  }

  lemma {:induction false} ByteLenConcat(a: string, b: string)
    ensures ByteLen(a + b) == ByteLen(a) + ByteLen(b)
    decreases |a|
  {
    if a != [] {
      assert (a + b)[1..] == a[1..] + b;
      ByteLenConcat(a[1..], b);
    } else {
      assert a + b == b;
    }
  }

  /** The character index at which byte offset `b` of `s` falls, when it falls between two
      characters or at the end; `None` inside a character or past the end. */
  function CharIndex(s: string, b: nat): (r: Option<nat>)
    ensures r.Some? ==> r.value <= |s| && ByteLen(s[..r.value]) == b
  {
    if b == 0 then Some(0)
    else if s == [] || b < Utf8Width(s[0]) then None
    else match CharIndex(s[1..], b - Utf8Width(s[0]))
      case None => None
      case Some(i) =>
        assert s[..i + 1] == [s[0]] + s[1..][..i];
        Some(i + 1)
  }

  /** `str::is_char_boundary`: offset `b` is the start of a character or the end of the text. */
  predicate IsCharBoundary(s: string, b: nat) {
    CharIndex(s, b).Some?
  }

  /** Every character index gives a boundary, and `CharIndex` finds it again. */
  lemma {:induction false} CharIndexComplete(s: string, i: nat)
    requires i <= |s|
    ensures CharIndex(s, ByteLen(s[..i])) == Some(i)
    decreases i
  {
    if i > 0 {
      assert s[..i] == [s[0]] + s[1..][..i - 1];
      ByteLenConcat([s[0]], s[1..][..i - 1]);
      CharIndexComplete(s[1..], i - 1);
    }
  }

  /** A longer prefix spans more bytes. */
  lemma ByteLenPrefixGrows(s: string, i: nat, j: nat)
    requires i <= j <= |s|
    ensures ByteLen(s[..j]) == ByteLen(s[..i]) + ByteLen(s[i..j])
    ensures i < j ==> ByteLen(s[..i]) < ByteLen(s[..j])
  {
    assert s[..j] == s[..i] + s[i..j];
    ByteLenConcat(s[..i], s[i..j]);
  }

  /** `str::get(start..end)`: the characters spanning bytes `start` to `end`, or `None` when
      the range is reversed or either end is not a character boundary. */
  function ByteSlice(s: string, start: nat, end: nat): (r: Option<string>)
    ensures r.Some? ==> ByteLen(r.value) == end - start
  {
    if start > end then None
    else match CharIndex(s, start)
      case None => None
      case Some(i) => (
        match CharIndex(s[i..], end - start)
        case None => None
        case Some(j) =>
          assert s[..i + j] == s[..i] + s[i..][..j];
          ByteLenConcat(s[..i], s[i..][..j]);
          Some(s[i..][..j])
      )
  }

  /** `str::get` succeeds exactly on an ordered pair of character boundaries, and then gives
      the characters between them. */
  lemma ByteSliceSpec(s: string, start: nat, end: nat)
    ensures ByteSlice(s, start, end).Some? <==> start <= end && IsCharBoundary(s, start) && IsCharBoundary(s, end)
    ensures ByteSlice(s, start, end).Some? ==>
              CharIndex(s, start).value <= CharIndex(s, end).value
              && ByteSlice(s, start, end).value == s[CharIndex(s, start).value..CharIndex(s, end).value]
    ensures ByteSlice(s, start, end).Some? ==> (ByteSlice(s, start, end).value == "" <==> start == end)
  {
    if start <= end && IsCharBoundary(s, start) && IsCharBoundary(s, end) {
      ByteSliceAccepts(s, start, end);
    }
    if ByteSlice(s, start, end).Some? {
      ByteSliceSound(s, start, end);
    }
  }

  lemma ByteSliceAccepts(s: string, start: nat, end: nat)
    requires start <= end && IsCharBoundary(s, start) && IsCharBoundary(s, end)
    ensures ByteSlice(s, start, end).Some?
  {
    var i := CharIndex(s, start).value;
    var j := CharIndex(s, end).value;
    if j < i {
      ByteLenPrefixGrows(s, j, i);
    }
    ByteLenPrefixGrows(s, i, j);
    assert s[i..][..j - i] == s[i..j];
    CharIndexComplete(s[i..], j - i);
  }

  lemma ByteSliceSound(s: string, start: nat, end: nat)
    requires ByteSlice(s, start, end).Some?
    ensures start <= end && IsCharBoundary(s, start) && IsCharBoundary(s, end)
    ensures CharIndex(s, start).value <= CharIndex(s, end).value
            && ByteSlice(s, start, end).value == s[CharIndex(s, start).value..CharIndex(s, end).value]
  {
    var i := CharIndex(s, start).value;
    var rest := s[i..];
    var j := CharIndex(rest, end - start).value;
    assert ByteSlice(s, start, end).value == rest[..j];
    assert rest[..j] == s[i..i + j];
    ByteLenPrefixGrows(s, i, i + j);
    assert ByteLen(s[..i + j]) == end;
    CharIndexComplete(s, i + j);
    assert CharIndex(s, end) == Some(i + j);
  }
}
