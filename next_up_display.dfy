/**
 * The non-drawing logic of `display_post` in assets/next_up.py: how the
 * e-paper label for the next scheduled post is put together and laid out.
 * Word wrapping, font metrics and date parsing are parameters; the drawing
 * itself is the list of `draw.text` calls it makes.
 */
module NextUpDisplay {
  import opened Wrappers

  /** A key of the fetched JSON object: missing, JSON null, or a string. */
  datatype Field = Absent | Null | Str(text: string)

  datatype PostData = PostData(content: Field, imagePath: Field, imageAltText: Field, cwText: Field, scheduleTime: Field)

  /** Python truthiness of a fetched value. */
  predicate Truthy(f: Field) {
    f.Str? && f.text != ""
  }

  const MaxLines: nat := 4
  const Ellipsis: string := "\U{2026}"      // …
  const HeavyCheck: char := '\U{2714}'      // ✔
  const LightCheck: char := '\U{2713}'      // ✓
  const Cross: char := '\U{2716}'           // ✖
  const SchedulePrefix: string := "Scheduled for "
  const LeftMargin: int := 5

  /** `.replace("\n", " ")`: every newline becomes a space, nothing else changes. */
  function Flatten(s: string): (r: string)
    ensures |r| == |s|
    ensures forall i :: 0 <= i < |s| ==> r[i] == (if s[i] == '\n' then ' ' else s[i])
  {
    if s == [] then [] else [if s[0] == '\n' then ' ' else s[0]] + Flatten(s[1..])
  }

  /**
   * `post_data.get('content', 'No content').replace("\n", " ")`: None when
   * the value is null, for which `.replace` raises.
   */
  function PostContent(content: Field): (r: Option<string>)
    ensures r.None? <==> content.Null?
    ensures content.Absent? ==> r == Some("No content")
    ensures r.Some? ==> '\n' !in r.value
    ensures content.Str? ==> |r.value| == |content.text|
    ensures content.Str? ==> forall i :: 0 <= i < |content.text| && content.text[i] != '\n' ==> r.value[i] == content.text[i]
  {
    match content
    case Absent => Some("No content")
    case Null => None
    case Str(s) =>
      var flat := Flatten(s);
      assert forall i :: 0 <= i < |flat| ==> flat[i] != '\n';
      Some(flat)
  }

  /** Keeps at most MaxLines wrapped lines, ending the last kept one with an ellipsis when some were cut. */
  method TruncateLines(wrapped: seq<string>) returns (lines: seq<string>)
    ensures |lines| == if |wrapped| > MaxLines then MaxLines else |wrapped|
    ensures |wrapped| <= MaxLines ==> lines == wrapped
    ensures |wrapped| > MaxLines ==> lines[..MaxLines - 1] == wrapped[..MaxLines - 1]
    ensures |wrapped| > MaxLines ==> lines[MaxLines - 1] == wrapped[MaxLines - 1] + Ellipsis
  {
    lines := wrapped;
    if |lines| > MaxLines {
      lines := lines[..MaxLines];
      lines := lines[|lines| - 1 := lines[|lines| - 1] + Ellipsis];
    }
  }

  function Mark(present: bool, yes: char): char {
    if present then yes else Cross
  }

  /** "Img: a Alt: b CW: c", each mark telling whether the field is set. */
  function MetadataLabel(imagePath: Field, altText: Field, cw: Field): (caption: string)
    ensures |caption| == 19
    ensures caption[..5] == "Img: " && caption[6..12] == " Alt: " && caption[13..18] == " CW: "
    ensures caption[5] in {HeavyCheck, Cross} && (caption[5] == HeavyCheck <==> Truthy(imagePath))
    ensures caption[12] in {HeavyCheck, Cross} && (caption[12] == HeavyCheck <==> Truthy(altText))
    ensures caption[18] in {LightCheck, Cross} && (caption[18] == LightCheck <==> Truthy(cw))
  {
    "Img: " + [Mark(Truthy(imagePath), HeavyCheck)]
    + " Alt: " + [Mark(Truthy(altText), HeavyCheck)]
    + " CW: " + [Mark(Truthy(cw), LightCheck)]
  }

  /**
   * "Scheduled for " followed by the reformatted time when the value parses
   * as '%Y-%m-%d %H:%M:%S' (`reformat` gives None when strptime raises), the
   * raw value when it does not, and 'No schedule time' when it is empty or
   * missing.
   */
  function ScheduleLabel(scheduleTime: Field, reformat: string -> Option<string>): (caption: string)
    ensures |caption| >= |SchedulePrefix| && caption[..|SchedulePrefix|] == SchedulePrefix
    ensures !Truthy(scheduleTime) ==> caption[|SchedulePrefix|..] == "No schedule time"
    ensures Truthy(scheduleTime) && reformat(scheduleTime.text).Some? ==>
      caption[|SchedulePrefix|..] == reformat(scheduleTime.text).value
    ensures Truthy(scheduleTime) && reformat(scheduleTime.text).None? ==>
      caption[|SchedulePrefix|..] == scheduleTime.text
  {
    var formatted :=
      if Truthy(scheduleTime) then
        match reformat(scheduleTime.text)
        case Some(t) => t
        case None => scheduleTime.text
      else "No schedule time";
    SchedulePrefix + formatted
  }

  datatype Font = PostFont | MetaFont | ScheduleFont

  /** One `draw.text((x, y), text, font=...)` call. */
  datatype TextDraw = TextDraw(x: int, y: int, text: string, font: Font)

  /** The summed heights of the content lines in the post font. */
  function LinesHeight(lines: seq<string>, height: (Font, string) -> int): int
    decreases |lines|
  {
    if lines == [] then 0 else LinesHeight(lines[..|lines| - 1], height) + height(PostFont, lines[|lines| - 1])
  }

  lemma LinesHeightStep(lines: seq<string>, i: nat, height: (Font, string) -> int)
    requires i < |lines|
    ensures LinesHeight(lines[..i + 1], height) == LinesHeight(lines[..i], height) + height(PostFont, lines[i])
  {
    assert lines[..i + 1][..i] == lines[..i];
  }

  /** Height of the whole text block: lines, metadata, schedule caption and 17 pixels of padding. */
  function TotalHeight(lines: seq<string>, meta: string, caption: string, height: (Font, string) -> int): int {
    LinesHeight(lines, height) + height(MetaFont, meta) + height(ScheduleFont, caption) + 17
  }

  /**
   * `(width - total) // 2`: Python's floor division, negative when the block
   * is taller than the screen.
   */
  function StartY(total: int, width: int): (top: int)
    ensures 2 * top <= width - total <= 2 * top + 1
    ensures top < 0 <==> total > width
  {
    (width - total) / 2
  }

  /** The y at which the centred block starts. */
  function Top(lines: seq<string>, meta: string, caption: string, height: (Font, string) -> int, width: int): int {
    StartY(TotalHeight(lines, meta, caption, height), width)
  }

  /** The block is centred: the space left below it is the space above it, or one pixel more. */
  lemma Centred(total: int, width: int)
    ensures var below := width - (StartY(total, width) + total);
            StartY(total, width) <= below <= StartY(total, width) + 1
  {
  }

  /**
   * Lines 77-80: each content line is drawn at the current y, which then
   * moves down by the line's height in the post font.
   */
  method DrawLines(lines: seq<string>, top: int, height: (Font, string) -> int)
    returns (lineDraws: seq<TextDraw>, y: int)
    ensures |lineDraws| == |lines|
    ensures forall j :: 0 <= j < |lines| ==>
      lineDraws[j] == TextDraw(LeftMargin, top + LinesHeight(lines[..j], height), lines[j], PostFont)
    ensures y == top + LinesHeight(lines, height)
  {
    y := top;
    lineDraws := [];
    var i := 0;
    while i < |lines|
      invariant 0 <= i <= |lines|
      invariant |lineDraws| == i
      invariant y == top + LinesHeight(lines[..i], height)
      invariant forall j :: 0 <= j < i ==>
        lineDraws[j] == TextDraw(LeftMargin, top + LinesHeight(lines[..j], height), lines[j], PostFont)
    {
      lineDraws := lineDraws + [TextDraw(LeftMargin, y, lines[i], PostFont)];
      LinesHeightStep(lines, i, height);
      y := y + height(PostFont, lines[i]);
      i := i + 1;
    }
    assert lines[..|lines|] == lines;
  }

  /**
   * Lines 70-87: the block starts at the centred y; the content lines come
   * first, the metadata 7 pixels below the content, and the schedule caption
   * 15 pixels below the metadata's top plus its height.
   */
  method Layout(lines: seq<string>, meta: string, caption: string, height: (Font, string) -> int, width: int)
    returns (draws: seq<TextDraw>)
    ensures |draws| == |lines| + 2
    ensures forall i :: 0 <= i < |lines| ==>
      draws[i] == TextDraw(LeftMargin, Top(lines, meta, caption, height, width) + LinesHeight(lines[..i], height), lines[i], PostFont)
    ensures draws[|lines|] ==
      TextDraw(LeftMargin, Top(lines, meta, caption, height, width) + LinesHeight(lines, height) + 7, meta, MetaFont)
    ensures draws[|lines| + 1] ==
      TextDraw(LeftMargin, Top(lines, meta, caption, height, width) + LinesHeight(lines, height) + height(MetaFont, meta) + 15,
               caption, ScheduleFont)
  {
    var top := Top(lines, meta, caption, height, width);
    var lineDraws, y := DrawLines(lines, top, height);
    var metaDraw := TextDraw(LeftMargin, y + 7, meta, MetaFont);
    y := y + height(MetaFont, meta) + 5;
    var scheduleDraw := TextDraw(LeftMargin, y + 10, caption, ScheduleFont);
    draws := lineDraws + [metaDraw, scheduleDraw];
    assert forall j :: 0 <= j < |lines| ==> draws[j] == lineDraws[j];
  }

  /**
   * display_post: None when the content is null (the `.replace` raises);
   * otherwise at most four content lines, then the metadata, then the
   * schedule caption.
   */
  method DisplayPost(post: PostData, wrap: string -> seq<string>, height: (Font, string) -> int,
                     reformat: string -> Option<string>, width: int)
    returns (draws: Option<seq<TextDraw>>)
    ensures draws.None? <==> post.content.Null?
    ensures draws.Some? ==> 2 <= |draws.value| <= MaxLines + 2
    ensures draws.Some? ==> forall i :: 0 <= i < |draws.value| - 2 ==> draws.value[i].font == PostFont
    ensures draws.Some? ==>
      draws.value[|draws.value| - 2].text == MetadataLabel(post.imagePath, post.imageAltText, post.cwText)
    ensures draws.Some? ==> draws.value[|draws.value| - 1].text == ScheduleLabel(post.scheduleTime, reformat)
  {
    var content := PostContent(post.content);
    if content.None? {
      return None;
    }
    var lines := TruncateLines(wrap(content.value));
    var meta := MetadataLabel(post.imagePath, post.imageAltText, post.cwText);
    var caption := ScheduleLabel(post.scheduleTime, reformat);
    var d := Layout(lines, meta, caption, height, width);
    draws := Some(d);
  }
}
