/**
 * The three CV templates (frontend/src/templates/ClassicTemplate.tsx,
 * ModernTemplate.tsx and MinimalTemplate.tsx) as the text they put on the
 * page: description bullets, date ranges, the contact line, the skills line
 * and the conditional chips and headings. Styling and markup are not
 * modelled; a value that is `None` is an element that is not rendered.
 */
module Templates {
  import opened Wrappers
  import opened Text

  datatype Template = Classic | Modern | Minimal

  const Present := "Present"
  const ContactSeparator := " • "
  const SkillSeparator := ", "

  /** `s.endsWith(suffix)`. */
  predicate EndsWith(s: string, suffix: string)
  {
    |suffix| <= |s| && s[|s| - |suffix|..] == suffix
  }

  /** Removes one trailing carriage return, the optional `\r` of the separator `\r?\n`. */
  function DropCarriageReturn(line: string): string
  {
    if |line| > 0 && line[|line| - 1] == '\r' then line[..|line| - 1] else line
  }

  /** `text.split(/\r?\n/)`: the pieces between line feeds, each losing the carriage return before its line feed. */
  function SplitLines(text: string): (lines: seq<string>)
    ensures |lines| >= 1
    ensures forall k, i | 0 <= k < |lines| && 0 <= i < |lines[k]| :: lines[k][i] != '\n'
    decreases |text|
  {
    if '\n' !in text then [text]
    else
      var i := IndexOf(text, '\n');
      [DropCarriageReturn(text[..i])] + SplitLines(text[i + 1..])
  }

  /** Text without carriage returns splits exactly as it would on line feeds alone. */
  lemma {:induction false} SplitLinesWithoutCarriageReturns(text: string)
    requires '\r' !in text
    ensures SplitLines(text) == SplitOn(text, '\n')
    decreases |text|
  {
    if '\n' in text {
      var i := IndexOf(text, '\n');
      assert '\r' !in text[..i];
      assert '\r' !in text[i + 1..];
      SplitLinesWithoutCarriageReturns(text[i + 1..]);
    }
  }

  /** A bullet marker `-` or `•` at the start of a trimmed line. */
  predicate IsMarker(c: char)
  {
    c == '-' || c == '•'
  }

  /** Non-empty text with no white space at either end. */
  predicate IsBullet(b: string)
  {
    b != [] && !IsJsWhitespace(b[0]) && !IsJsWhitespace(b[|b| - 1])
  }

  /** `line.trim().replace(/^[-•]\s*\/, "")`: trimmed, then one leading marker and the white space after it removed. */
  function CleanLine(line: string): (r: string)
    ensures r == [] || IsBullet(r)
    ensures |r| <= |line|
  {
    var t := JsTrim(line);
    StripShape(line, IsJsWhitespace);
    if |t| > 0 && IsMarker(t[0]) then
      var rest := t[1..];
      assert rest == [] || rest[|rest| - 1] == t[|t| - 1];
      TrimStart(rest, IsJsWhitespace)
    else t
  }

  /** The non-empty cleaned lines, in line order (`.map(...).filter(Boolean)`). */
  function CleanedLines(lines: seq<string>): (bullets: seq<string>)
    ensures |bullets| <= |lines|
    ensures forall k | 0 <= k < |bullets| :: IsBullet(bullets[k])
  {
    if |lines| == 0 then []
    else
      var c := CleanLine(lines[0]);
      var rest := CleanedLines(lines[1..]);
      if c != [] then [c] + rest else rest
  }

  /** A bullet is exactly the non-empty cleaning of some line. */
  lemma {:induction false} CleanedLinesMembers(lines: seq<string>, b: string)
    ensures b in CleanedLines(lines) <==> b != [] && exists k | 0 <= k < |lines| :: CleanLine(lines[k]) == b
  {
    if |lines| > 0 {
      CleanedLinesMembers(lines[1..], b);
      if exists k | 0 <= k < |lines| :: CleanLine(lines[k]) == b {
        var k :| 0 <= k < |lines| && CleanLine(lines[k]) == b;
        if k > 0 {
          assert lines[1..][k - 1] == lines[k];
        }
      }
      if exists k | 0 <= k < |lines| - 1 :: CleanLine(lines[1..][k]) == b {
        var k :| 0 <= k < |lines| - 1 && CleanLine(lines[1..][k]) == b;
        assert lines[k + 1] == lines[1..][k];
      }
    }
  }

  /** The bullets of a description. */
  function Bullets(text: string): seq<string>
  {
    CleanedLines(SplitLines(text))
  }

  /** `renderBullets`: no list for a missing or empty text or when every line is blank, else the bullets. */
  function RenderBullets(text: Option<string>): (r: Option<seq<string>>)
    ensures r.None? <==> !IsSet(text) || Bullets(text.value) == []
    ensures r.Some? ==> r.value == Bullets(text.value) && |r.value| > 0
  {
    if !IsSet(text) then None
    else
      var bullets := Bullets(text.value);
      if |bullets| == 0 then None else Some(bullets)
  }

  /** A one-line text gives at most one bullet, itself when it is unpadded and unmarked. */
  lemma SingleLineBullet(text: string)
    requires '\n' !in text && text != [] && !IsJsWhitespace(text[0]) && !IsJsWhitespace(text[|text| - 1])
    requires !IsMarker(text[0]) && text[|text| - 1] != '\r'
    ensures Bullets(text) == [text]
  {
    StripUnpadded(text, IsJsWhitespace);
  }

  /** A line that trims to a lone marker cleans to nothing, so it gives no bullet. */
  lemma MarkerOnlyLineIsDropped(line: string)
    requires |JsTrim(line)| == 1 && IsMarker(JsTrim(line)[0])
    ensures CleanLine(line) == []
  {
    assert JsTrim(line)[1..] == [];
  }

  /** `end || "Present"`. */
  function EndText(end: Option<string>): (r: string)
    ensures r != []
    ensures IsSet(end) ==> r == end.value
  {
    if IsSet(end) then end.value else Present
  }

  /** The work and education date line `{start} - {end || "Present"}`. */
  function DateRange(start: string, end: Option<string>): (r: string)
    ensures StartsWith(r, start)
    ensures !IsSet(end) ==> EndsWith(r, Present)
    ensures IsSet(end) ==> EndsWith(r, end.value)
  {
    start + " - " + EndText(end)
  }

  /**
   * The contact line under the name: the email, then ` • phone` when a phone
   * is set and ` • location` when a location is set, except that the modern
   * template shows the location as a chip instead.
   */
  function ContactLine(template: Template, email: string, phone: Option<string>, location: Option<string>)
    : (spans: seq<string>)
    ensures |spans| >= 1 && spans[0] == email
    ensures |spans| == 1 + (if IsSet(phone) then 1 else 0) + (if IsSet(location) && template != Modern then 1 else 0)
    ensures IsSet(phone) ==> spans[1] == ContactSeparator + phone.value
    ensures IsSet(location) && template != Modern ==> spans[|spans| - 1] == ContactSeparator + location.value
  {
    [email]
    + (if IsSet(phone) then [ContactSeparator + phone.value] else [])
    + (if IsSet(location) && template != Modern then [ContactSeparator + location.value] else [])
  }

  /** The modern template's location chip, shown only when a location is set. */
  function LocationChip(template: Template, location: Option<string>): (chip: Option<string>)
    ensures chip.Some? <==> template == Modern && IsSet(location)
    ensures chip.Some? ==> chip.value == location.value
  {
    if template == Modern && IsSet(location) then Some(location.value) else None
  }

  /** The `GPA:` line of an education entry: in the classic and modern templates, only for a truthy GPA. */
  function GpaLine(template: Template, gpa: Option<string>): (line: Option<string>)
    ensures line.Some? <==> template != Minimal && IsSet(gpa)
    ensures line.Some? ==> line.value == "GPA: " + gpa.value
  {
    if template != Minimal && IsSet(gpa) then Some("GPA: " + gpa.value) else None
  }

  /** The skills line of the classic and minimal templates: the names joined by ", ". */
  function SkillsLine(names: seq<string>): string
  {
    Join(names, SkillSeparator)
  }

  /** Where the `i`-th part starts in `Join(parts, sep)`. */
  function JoinOffset(parts: seq<string>, sep: string, i: nat): nat
    requires i < |parts|
  {
    if i == 0 then 0 else |parts[0]| + |sep| + JoinOffset(parts[1..], sep, i - 1)
  }

  /** A slice of the second half of `x + y` is the same slice of `y`, shifted by `|x|`. */
  lemma SliceOfSuffix(x: string, y: string, k: int, len: int)
    requires 0 <= k && 0 <= len && k + len <= |y|
    ensures (x + y)[|x| + k..|x| + k + len] == y[k..k + len]
  {
    var a, b := (x + y)[|x| + k..|x| + k + len], y[k..k + len];
    forall j | 0 <= j < len
      ensures a[j] == b[j]
    {
      assert a[j] == (x + y)[|x| + k + j];
    }
  }

  /** Each part appears in the joined text at its offset, followed by the separator unless it is the last. */
  lemma {:induction false} JoinedInOrder(parts: seq<string>, sep: string, i: nat)
    requires i < |parts|
    ensures OccursAt(Join(parts, sep), parts[i], JoinOffset(parts, sep, i))
    ensures i + 1 < |parts| ==> OccursAt(Join(parts, sep), sep, JoinOffset(parts, sep, i) + |parts[i]|)
  {
    var joined := Join(parts, sep);
    if i == 0 {
      if |parts| > 1 {
        assert joined == parts[0] + sep + Join(parts[1..], sep);
        assert joined[..|parts[0]|] == parts[0];
        assert joined[|parts[0]|..|parts[0]| + |sep|] == sep;
      }
    } else {
      var rest := Join(parts[1..], sep);
      var prefix := parts[0] + sep;
      JoinedInOrder(parts[1..], sep, i - 1);
      assert parts[1..][i - 1] == parts[i];
      assert joined == prefix + rest;
      var at := JoinOffset(parts[1..], sep, i - 1);
      assert JoinOffset(parts, sep, i) == |prefix| + at;
      SliceOfSuffix(prefix, rest, at, |parts[i]|);
      if i + 1 < |parts| {
        SliceOfSuffix(prefix, rest, at + |parts[i]|, |sep|);
      }
    }
  }

  /** Every skill name appears in the skills line, in list order, separated by ", ". */
  lemma SkillsInListOrder(names: seq<string>, i: nat)
    requires i < |names|
    ensures OccursAt(SkillsLine(names), names[i], JoinOffset(names, SkillSeparator, i))
    ensures i + 1 < |names| ==> OccursAt(SkillsLine(names), SkillSeparator, JoinOffset(names, SkillSeparator, i) + |names[i]|)
  {
    JoinedInOrder(names, SkillSeparator, i);
  }

  /**
   * A project's heading: the classic and minimal templates fall back to the
   * project's `title` when its name is empty; the modern one shows the name.
   */
  function ProjectHeading(template: Template, name: string, title: Option<string>): (heading: Option<string>)
    ensures name != "" ==> heading == Some(name)
    ensures name == "" && template != Modern ==> heading == title
    ensures template == Modern ==> heading == Some(name)
  {
    if name != "" || template == Modern then Some(name) else title
  }

  /**
   * The modern template's project date span, shown only when a start or an
   * end date is set: the start (or nothing), a space, and `- end` when an
   * end is set.
   */
  function ProjectDates(template: Template, start: Option<string>, end: Option<string>): (span: Option<string>)
    ensures span.Some? <==> template == Modern && (IsSet(start) || IsSet(end))
    ensures span.Some? && IsSet(start) ==> StartsWith(span.value, start.value + " ")
    ensures span.Some? && !IsSet(end) ==> span.value[|span.value| - 1] == ' '
    ensures span.Some? && IsSet(end) ==> EndsWith(span.value, "- " + end.value)
  {
    if template == Modern && (IsSet(start) || IsSet(end)) then
      Some((if IsSet(start) then start.value else "") + " " + (if IsSet(end) then "- " + end.value else ""))
    else None
  }
}
