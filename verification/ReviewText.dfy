/**
 The text of a review message: the architect-agent prints it into the log and
 the browser takes it apart again.
 */
module ReviewText {
  import opened Wrappers

  const NEWLINE := '\n'
  const ARROW := '\U{2192}'
  const SEPARATOR := [' ', ARROW, ' ']

  // ----- printing (architect-agent) -----

  function Bullet(comment: string): string {
    "- " + comment
  }

  /** The bulleted comments, each on a line of its own. */
  function Lines(comments: seq<string>): string
    requires comments != []
  {
    if |comments| == 1 then Bullet(comments[0])
    else Bullet(comments[0]) + [NEWLINE] + Lines(comments[1..])
  }

  function Verdict(approved: bool): string {
    "Result: " + if approved then "Approved" else "Needs revision"
  }

  function Print(caption: string, approved: bool, comments: seq<string>): string {
    caption + SEPARATOR + Verdict(approved) +
    if comments == [] then "" else [NEWLINE] + "Comments:" + [NEWLINE] + Lines(comments)
  }

  lemma KnownVerdicts()
    ensures Verdict(true) == "Result: Approved" && Verdict(false) == "Result: Needs revision"
  {
  }

  /** The whole text of a review that approves, and of one that rejects with one comment. */
  lemma KnownReviews(caption: string, comment: string)
    ensures Print(caption, true, []) == caption + " \U{2192} " + "Result: Approved"
    ensures Print(caption, false, [comment]) ==
            caption + " \U{2192} " + "Result: Needs revision" + "\n" + "Comments:" + "\n" + "- " + comment
  {
    KnownVerdicts();
    hide Verdict;
    assert SEPARATOR == " \U{2192} " && [NEWLINE] == "\n";
    var header := caption + SEPARATOR + Verdict(true);
    assert header + "" == header;
  }

  /** Each further comment has a line of its own. */
  lemma CommentLines(first: string, more: seq<string>)
    requires more != []
    ensures Lines([first] + more) == "- " + first + "\n" + Lines(more)
  {
    assert ([first] + more)[1..] == more;
  }

  // ----- taking apart (browser) -----

  /** The pieces between newlines; always at least one. */
  function Split(text: string): (lines: seq<string>)
    ensures lines != []
  {
    if text == "" then [""]
    else
      var rest := Split(text[1..]);
      if text[0] == NEWLINE then [""] + rest
      else [[text[0]] + rest[0]] + rest[1..]
  }

  /** The characters that trimming removes. */
  predicate IsBlank(c: char) {
    c in {' ', '\t', '\n', '\r', '\U{B}', '\U{C}', '\U{A0}', '\U{1680}', '\U{2028}', '\U{2029}',
          '\U{202F}', '\U{205F}', '\U{3000}', '\U{FEFF}'}
    || '\U{2000}' <= c <= '\U{200A}'
  }

  function TrimLeft(text: string): string {
    if text != "" && IsBlank(text[0]) then TrimLeft(text[1..]) else text
  }

  function TrimRight(text: string): string {
    if text != "" && IsBlank(text[|text| - 1]) then TrimRight(text[..|text| - 1]) else text
  }

  function Trim(text: string): string {
    TrimRight(TrimLeft(text))
  }

  predicate IsComment(line: string) {
    Trim(line) != "" && Trim(line) != "Comments:"
  }

  predicate AllBlank(text: string) {
    forall k | 0 <= k < |text| :: IsBlank(text[k])
  }

  lemma {:induction false} TrimLeftSplits(text: string)
    ensures |TrimLeft(text)| <= |text|
    ensures text == text[..|text| - |TrimLeft(text)|] + TrimLeft(text)
    ensures AllBlank(text[..|text| - |TrimLeft(text)|])
    ensures TrimLeft(text) != "" ==> !IsBlank(TrimLeft(text)[0])
  {
    if text != "" && IsBlank(text[0]) {
      TrimLeftSplits(text[1..]);
      var n := |text| - |TrimLeft(text)|;
      assert text[..n] == [text[0]] + text[1..][..n - 1];
    }
  }

  lemma {:induction false} TrimRightSplits(text: string)
    ensures TrimRight(text) <= text && AllBlank(text[|TrimRight(text)|..])
    ensures TrimRight(text) != "" ==> !IsBlank(TrimRight(text)[|TrimRight(text)| - 1])
  {
    if text != "" && IsBlank(text[|text| - 1]) {
      var n := |text| - 1;
      TrimRightSplits(text[..n]);
      var k := |TrimRight(text)|;
      assert text[k..] == text[..n][k..] + [text[n]];
    }
  }

  /** Trimming takes blanks from both ends and nothing else, until it meets something that is not blank. */
  lemma TrimIsInside(text: string)
    ensures exists i, j :: 0 <= i <= j <= |text| && Trim(text) == text[i..j]
                           && AllBlank(text[..i]) && AllBlank(text[j..])
    ensures Trim(text) != "" ==> !IsBlank(Trim(text)[0]) && !IsBlank(Trim(text)[|Trim(text)| - 1])
  {
    TrimLeftSplits(text);
    var left := TrimLeft(text);
    TrimRightSplits(left);
    var i := |text| - |left|;
    var j := i + |Trim(text)|;
    assert left == text[i..] && text[i..j] == left[..|Trim(text)|] && text[j..] == left[|Trim(text)|..];
  }

  lemma NotAllBlank(line: string, i: nat, j: nat)
    requires i < j <= |line| && !IsBlank(line[i..j][0])
    ensures !AllBlank(line)
  {
    assert line[i..j][0] == line[i];
  }

  /** A line is left out if it is blank, or says "Comments:" between blanks, and only then. */
  lemma WhichLinesAreComments(line: string)
    ensures AllBlank(line) ==> !IsComment(line)
    ensures !IsComment(line) ==>
              AllBlank(line) || exists i, j :: 0 <= i <= j <= |line| && line[i..j] == "Comments:"
                                               && AllBlank(line[..i]) && AllBlank(line[j..])
  {
    TrimIsInside(line);
    var i, j :| 0 <= i <= j <= |line| && Trim(line) == line[i..j] && AllBlank(line[..i]) && AllBlank(line[j..]);
    if Trim(line) != "" {
      NotAllBlank(line, i, j);
    }
    if Trim(line) == "" {
      assert line == line[..i] + line[j..];
    }
  }

  function Unbullet(line: string): string {
    if "- " <= line then line[2..] else line
  }

  /** The comment lines among the lines after the header, as they are shown. */
  function Shown(body: seq<string>): seq<string> {
    if body == [] then []
    else (if IsComment(body[0]) then [Unbullet(body[0])] else []) + Shown(body[1..])
  }

  /** Where the separator first occurs. */
  function SeparatorIndex(header: string): Option<nat> {
    if SEPARATOR <= header then Some(0)
    else if header == "" then None
    else
      match SeparatorIndex(header[1..])
      case None => None
      case Some(i) => Some(i + 1)
  }

  datatype Parsed = Parsed(caption: string, status: Option<string>, comments: seq<string>)

  function ParseHeader(header: string): (string, Option<string>) {
    match SeparatorIndex(header)
    case None => (header, None)
    case Some(i) => if i + 3 <= |header| then (header[..i], Some(header[i + 3..])) else (header, None)
  }

  function Parse(text: string): Parsed {
    var lines := Split(text);
    var (caption, status) := ParseHeader(lines[0]);
    Parsed(caption, status, Shown(lines[1..]))
  }

  // ----- printing, then taking apart -----

  lemma {:induction false} SplitLine(line: string, rest: string)
    requires NEWLINE !in line
    ensures Split(line + [NEWLINE] + rest) == [line] + Split(rest)
  {
    if line == "" {
      assert ("" + [NEWLINE] + rest)[1..] == rest;
    } else {
      SplitLine(line[1..], rest);
      assert (line + [NEWLINE] + rest)[1..] == line[1..] + [NEWLINE] + rest;
      assert [line[0]] + line[1..] == line;
    }
  }

  lemma {:induction false} SplitWhole(line: string)
    requires NEWLINE !in line
    ensures Split(line) == [line]
  {
    if line != "" {
      SplitWhole(line[1..]);
      assert [line[0]] + line[1..] == line;
    }
  }

  /** No line contains a newline. */
  lemma {:induction false} SplitClean(text: string)
    ensures forall i | 0 <= i < |Split(text)| :: NEWLINE !in Split(text)[i]
  {
    if text != "" {
      SplitClean(text[1..]);
    }
  }

  lemma {:induction false} SplitLines(comments: seq<string>)
    requires comments != []
    requires forall c | c in comments :: NEWLINE !in c
    ensures Split(Lines(comments)) == seq(|comments|, i requires 0 <= i < |comments| => Bullet(comments[i]))
  {
    assert comments[0] in comments;
    if |comments| == 1 {
      SplitWhole(Bullet(comments[0]));
    } else {
      var rest := comments[1..];
      assert forall c | c in rest :: c in comments;
      SplitLines(rest);
      SplitLine(Bullet(comments[0]), Lines(rest));
    }
  }

  lemma {:induction false} TrimRightStops(text: string, k: nat)
    requires k < |text| && !IsBlank(text[k])
    ensures TrimRight(text) != "" && |TrimRight(text)| > k && TrimRight(text)[0] == text[0]
    decreases |text|
  {
    if IsBlank(text[|text| - 1]) {
      TrimRightStops(text[..|text| - 1], k);
    }
  }

  /** A bulleted line is always shown, and without its bullet. */
  lemma BulletIsComment(c: string)
    ensures IsComment(Bullet(c)) && Unbullet(Bullet(c)) == c
  {
    var line := Bullet(c);
    assert line[0] == '-';
    assert TrimLeft(line) == line;
    TrimRightStops(line, 0);
    assert Trim(line)[0] == '-';
  }

  lemma {:induction false} ShownBullets(comments: seq<string>)
    ensures Shown(seq(|comments|, i requires 0 <= i < |comments| => Bullet(comments[i]))) == comments
  {
    var body := seq(|comments|, i requires 0 <= i < |comments| => Bullet(comments[i]));
    if comments != [] {
      BulletIsComment(comments[0]);
      ShownBullets(comments[1..]);
      assert body[1..] == seq(|comments| - 1, i requires 0 <= i < |comments| - 1 => Bullet(comments[1..][i]));
      assert comments == [comments[0]] + comments[1..];
    }
  }

  lemma {:induction false} ShownClean(body: seq<string>)
    requires forall i | 0 <= i < |body| :: NEWLINE !in body[i]
    ensures forall i | 0 <= i < |Shown(body)| :: NEWLINE !in Shown(body)[i]
  {
    if body != [] {
      ShownClean(body[1..]);
    }
  }

  lemma {:induction false} HeaderIndex(caption: string, rest: string)
    requires ARROW !in caption
    ensures SeparatorIndex(caption + SEPARATOR + rest) == Some(|caption|)
  {
    var header := caption + SEPARATOR + rest;
    if caption != "" {
      HeaderIndex(caption[1..], rest);
      assert header[1..] == caption[1..] + SEPARATOR + rest;
      assert header[1] == (caption + [' '])[1];
      assert header[1] != SEPARATOR[1];
    } else {
      assert header == SEPARATOR + rest;
    }
  }

  lemma HeaderParses(caption: string, status: string)
    requires ARROW !in caption
    ensures ParseHeader(caption + SEPARATOR + status) == (caption, Some(status))
  {
    HeaderIndex(caption, status);
    var header := caption + SEPARATOR + status;
    assert header[..|caption|] == caption && header[|caption| + 3..] == status;
  }

  lemma HeadingIsNoComment()
    ensures !IsComment("Comments:")
  {
    var heading := "Comments:";
    assert TrimLeft(heading) == heading;
    assert heading[|heading| - 1] == ':';
    assert TrimRight(heading) == heading;
  }

  lemma VerdictClean(approved: bool)
    ensures NEWLINE !in Verdict(approved)
  {
  }

  /** The printed text splits into its header, the heading and the comment lines. */
  lemma PrintSplits(caption: string, approved: bool, comments: seq<string>)
    requires NEWLINE !in caption
    ensures Split(Print(caption, approved, comments)) ==
            [caption + SEPARATOR + Verdict(approved)] +
            if comments == [] then [] else ["Comments:"] + Split(Lines(comments))
  {
    var header := caption + SEPARATOR + Verdict(approved);
    VerdictClean(approved);
    assert NEWLINE !in header;
    if comments == [] {
      assert Print(caption, approved, comments) == header;
      SplitWhole(header);
    } else {
      var heading := "Comments:";
      var body := heading + [NEWLINE] + Lines(comments);
      assert Print(caption, approved, comments) == header + [NEWLINE] + body;
      SplitLine(header, body);
      SplitLine(heading, Lines(comments));
    }
  }

  lemma ShownHeading(lines: seq<string>)
    ensures Shown(["Comments:"] + lines) == Shown(lines)
  {
    HeadingIsNoComment();
    assert (["Comments:"] + lines)[1..] == lines;
  }

  lemma ParsePrinted(caption: string, approved: bool, comments: seq<string>)
    requires NEWLINE !in caption && ARROW !in caption
    ensures Parse(Print(caption, approved, comments)) ==
            Parsed(caption, Some(Verdict(approved)), if comments == [] then [] else Shown(Split(Lines(comments))))
  {
    PrintSplits(caption, approved, comments);
    HeaderParses(caption, Verdict(approved));
    if comments != [] {
      ShownHeading(Split(Lines(comments)));
    }
  }

  /**
   The browser shows a review as it was written, its caption, its verdict and
   every comment in order, if and only if no comment contains a newline.
   */
  lemma ReviewRoundTrip(caption: string, approved: bool, comments: seq<string>)
    requires NEWLINE !in caption && ARROW !in caption
    ensures Parse(Print(caption, approved, comments)) == Parsed(caption, Some(Verdict(approved)), comments)
            <==> forall c | c in comments :: NEWLINE !in c
    ensures var parsed := Parse(Print(caption, approved, comments));
            parsed.caption == caption && parsed.status == Some(Verdict(approved))
  {
    ParsePrinted(caption, approved, comments);
    if comments != [] {
      if forall c | c in comments :: NEWLINE !in c {
        SplitLines(comments);
        ShownBullets(comments);
      }
      SplitClean(Lines(comments));
      ShownClean(Split(Lines(comments)));
    }
  }
}
