/** The scanner that takes UI blocks out of a response. What a block parses to is an arbitrary function. */
module A2uiScanner {
  import opened Bytes

  // A parsed UI message.
  type Json = Text

  const FENCE: Text := Ascii("```")
  const A2UI_FENCE: Text := Ascii("```a2ui")
  const NEWLINE: Text := Ascii("\n")

  predicate OccursAt(s: Text, pattern: Text, i: nat) {
    i + |pattern| <= |s| && s[i..i + |pattern|] == pattern
  }

  /** The first occurrence of the pattern at or after position i. */
  function Find(s: Text, pattern: Text, i: nat): (r: Option<nat>)
    requires i <= |s|
    ensures r.Some? ==> i <= r.value <= |s| && OccursAt(s, pattern, r.value)
    ensures forall j :: i <= j && (r.None? || j < r.value) ==> !OccursAt(s, pattern, j)
    decreases |s| - i
  {
    if OccursAt(s, pattern, i) then Some(i)
    else if i == |s| then None
    else Find(s, pattern, i + 1)
  }

  datatype Segment =
    | Plain(text: Text)               // text up to the next block
    | Block(text: Text, body: Text)   // a fenced block and what its fences enclose
    | Unclosed(text: Text)            // a fence that is never closed, up to the end

  type Parser = Text -> Option<seq<Json>>

  /** The content from `cursor` on, cut into segments. */
  function Segments(content: Text, cursor: nat): seq<Segment>
    requires cursor <= |content|
    decreases |content| - cursor
  {
    match Find(content, A2UI_FENCE, cursor)
    case None => if cursor < |content| then [Plain(content[cursor..])] else []
    case Some(start) =>
      match BlockEnd(content, start)
      case None => [Plain(content[cursor..start]), Unclosed(content[start..])]
      case Some((bodyStart, bodyEnd)) =>
        [Plain(content[cursor..start]), Block(content[start..bodyEnd + 3], content[bodyStart..bodyEnd])]
          + Segments(content, bodyEnd + 3)
  }

  /** Where the body of the block at `start` begins, and where its closing fence begins. */
  function BlockEnd(content: Text, start: nat): (r: Option<(nat, nat)>)
    requires start <= |content|
    ensures r.Some? ==> start < r.value.0 <= r.value.1 && r.value.1 + 3 <= |content|
    ensures r.Some? ==> OccursAt(content, FENCE, r.value.1)
  {
    match Find(content, NEWLINE, start)
    case None => None
    case Some(newline) =>
      match Find(content, FENCE, newline + 1)
      case None => None
      case Some(end) => Some((newline + 1, end))
  }

  function Joined(segments: seq<Segment>): Text {
    if segments == [] then [] else segments[0].text + Joined(segments[1..])
  }

  /** What stays in the response: everything but the blocks that parse. */
  function Kept(segment: Segment, parse: Parser): Text {
    if segment.Block? && parse(segment.body).Some? then [] else segment.text
  }

  function KeptText(segments: seq<Segment>, parse: Parser): Text {
    if segments == [] then [] else Kept(segments[0], parse) + KeptText(segments[1..], parse)
  }

  function Parsed(segment: Segment, parse: Parser): seq<Json> {
    if segment.Block? && parse(segment.body).Some? then parse(segment.body).value else []
  }

  function ParsedMessages(segments: seq<Segment>, parse: Parser): seq<Json> {
    if segments == [] then [] else Parsed(segments[0], parse) + ParsedMessages(segments[1..], parse)
  }

  function RemovedBytes(segments: seq<Segment>, parse: Parser): nat {
    if segments == [] then 0
    else |segments[0].text| - |Kept(segments[0], parse)| + RemovedBytes(segments[1..], parse)
  }

  /** The scan loop, up to the final trim. */
  method ExtractA2uiMessages(content: Text, parse: Parser) returns (cleaned: Text, messages: seq<Json>)
    ensures cleaned == KeptText(Segments(content, 0), parse)
    ensures messages == ParsedMessages(Segments(content, 0), parse)
  {
    hide OccursAt, Find, BlockEnd, Segments, KeptText, ParsedMessages, Kept, Parsed;
    cleaned, messages := [], [];
    var cursor := 0;
    var next := Find(content, A2UI_FENCE, cursor);
    while next.Some?
      invariant cursor <= |content| && next == Find(content, A2UI_FENCE, cursor)
      invariant KeptText(Segments(content, 0), parse) == cleaned + KeptText(Segments(content, cursor), parse)
      invariant ParsedMessages(Segments(content, 0), parse)
        == messages + ParsedMessages(Segments(content, cursor), parse)
      decreases |content| - cursor
    {
      var start := next.value;
      ghost var textBefore, messagesBefore := cleaned, messages;
      cleaned := cleaned + content[cursor..start];
      var end := BlockEnd(content, start);
      if end.None? {
        cleaned := cleaned + content[start..];
        ScanUnclosed(content, cursor, start, parse, textBefore);
        return;
      }
      var (bodyStart, bodyEnd) := end.value;
      ScanBlock(content, cursor, start, bodyStart, bodyEnd, parse, textBefore, messagesBefore);
      WhatBlockLeaves(content[start..bodyEnd + 3], content[bodyStart..bodyEnd], cleaned, messages, parse);
      var parsed := parse(content[bodyStart..bodyEnd]);
      if parsed.Some? {
        messages := messages + parsed.value;
      } else {
        cleaned := cleaned + content[start..bodyEnd + 3];
      }
      cursor := bodyEnd + 3;
      next := Find(content, A2UI_FENCE, cursor);
    }
    ScanEnd(content, cursor, parse);
    if cursor < |content| {
      cleaned := cleaned + content[cursor..];
    }
  }

  /** A block that parses leaves its messages, any other its text. */
  lemma WhatBlockLeaves(text: Text, body: Text, cleaned: Text, messages: seq<Json>, parse: Parser)
    ensures cleaned + Kept(Block(text, body), parse) == if parse(body).Some? then cleaned else cleaned + text
    ensures messages + Parsed(Block(text, body), parse)
      == if parse(body).Some? then messages + parse(body).value else messages
  {
  }

  lemma ScanEnd(content: Text, cursor: nat, parse: Parser)
    requires cursor <= |content| && Find(content, A2UI_FENCE, cursor).None?
    ensures KeptText(Segments(content, cursor), parse) == content[cursor..]
    ensures ParsedMessages(Segments(content, cursor), parse) == []
  {
  }

  lemma ScanUnclosed(content: Text, cursor: nat, start: nat, parse: Parser, text: Text)
    requires cursor <= |content| && Find(content, A2UI_FENCE, cursor) == Some(start) && BlockEnd(content, start).None?
    ensures text + KeptText(Segments(content, cursor), parse) == text + content[cursor..start] + content[start..]
    ensures ParsedMessages(Segments(content, cursor), parse) == []
  {
    hide OccursAt, Find, BlockEnd, KeptText, ParsedMessages;
    NoSegments(parse);
    TwoSegments(Plain(content[cursor..start]), Unclosed(content[start..]), [], parse, text, []);
  }

  /** What a closed block adds to the text and to the messages. */
  lemma ScanBlock(content: Text, cursor: nat, start: nat, bodyStart: nat, bodyEnd: nat, parse: Parser,
                  text: Text, messages: seq<Json>)
    requires cursor <= |content| && Find(content, A2UI_FENCE, cursor) == Some(start)
    requires BlockEnd(content, start) == Some((bodyStart, bodyEnd))
    ensures var block := Block(content[start..bodyEnd + 3], content[bodyStart..bodyEnd]);
      var rest := Segments(content, bodyEnd + 3);
      && text + KeptText(Segments(content, cursor), parse)
         == (text + content[cursor..start] + Kept(block, parse)) + KeptText(rest, parse)
      && messages + ParsedMessages(Segments(content, cursor), parse)
         == (messages + Parsed(block, parse)) + ParsedMessages(rest, parse)
  {
    hide OccursAt, Find, BlockEnd, KeptText, ParsedMessages;
    TwoSegments(Plain(content[cursor..start]), Block(content[start..bodyEnd + 3], content[bodyStart..bodyEnd]),
                Segments(content, bodyEnd + 3), parse, text, messages);
  }

  lemma NoSegments(parse: Parser)
    ensures KeptText([], parse) == [] && ParsedMessages([], parse) == []
  {
  }

  lemma TwoSegments(a: Segment, b: Segment, rest: seq<Segment>, parse: Parser, text: Text, messages: seq<Json>)
    requires a.Plain?
    ensures text + KeptText([a, b] + rest, parse) == (text + a.text + Kept(b, parse)) + KeptText(rest, parse)
    ensures messages + ParsedMessages([a, b] + rest, parse)
      == (messages + Parsed(b, parse)) + ParsedMessages(rest, parse)
    ensures rest == [] ==> [a, b] + rest == [a, b]
  {
    var all := [a, b] + rest;
    assert all[1..] == [b] + rest && all[1..][1..] == rest;
    assert KeptText(all, parse) == a.text + (Kept(b, parse) + KeptText(rest, parse));
    assert ParsedMessages(all, parse) == [] + (Parsed(b, parse) + ParsedMessages(rest, parse));
    hide KeptText, ParsedMessages, Kept, Parsed;
    assert text + (a.text + (Kept(b, parse) + KeptText(rest, parse)))
      == text + a.text + Kept(b, parse) + KeptText(rest, parse);
  }

  // ---- What the scan guarantees ----

  /** Nothing is lost: the segments, in order, are the content. */
  lemma {:induction false} SegmentsCoverContent(content: Text, cursor: nat)
    requires cursor <= |content|
    ensures Joined(Segments(content, cursor)) == content[cursor..]
    decreases |content| - cursor
  {
    hide OccursAt, Find, BlockEnd, Joined;
    var next := Find(content, A2UI_FENCE, cursor);
    if next.None? {
      JoinOne(Plain(content[cursor..]));
    } else {
      var start := next.value;
      var end := BlockEnd(content, start);
      if end.None? {
        JoinTwo(Plain(content[cursor..start]), Unclosed(content[start..]), []);
        assert content[cursor..] == content[cursor..start] + content[start..];
      } else {
        var after := end.value.1 + 3;
        SegmentsCoverContent(content, after);
        var block := Block(content[start..after], content[end.value.0..end.value.1]);
        JoinTwo(Plain(content[cursor..start]), block, Segments(content, after));
        assert content[cursor..] == content[cursor..start] + content[start..after] + content[after..];
      }
    }
  }

  lemma JoinOne(a: Segment)
    ensures Joined([a]) == a.text && Joined([]) == []
  {
  }

  lemma JoinTwo(a: Segment, b: Segment, rest: seq<Segment>)
    ensures Joined([a, b] + rest) == a.text + b.text + Joined(rest)
    ensures rest == [] ==> Joined([a, b]) == a.text + b.text
  {
    var all := [a, b] + rest;
    assert all[1..] == [b] + rest && all[1..][1..] == rest;
    if rest == [] { assert all == [a, b]; }
  }

  lemma {:induction false} KeptPlusRemoved(segments: seq<Segment>, parse: Parser)
    ensures |KeptText(segments, parse)| + RemovedBytes(segments, parse) == |Joined(segments)|
  {
    if segments != [] { KeptPlusRemoved(segments[1..], parse); }
  }

  /** Byte conservation: kept text and removed blocks add up to the content. */
  lemma BytesAreConserved(content: Text, parse: Parser)
    ensures |KeptText(Segments(content, 0), parse)| + RemovedBytes(Segments(content, 0), parse) == |content|
  {
    SegmentsCoverContent(content, 0);
    KeptPlusRemoved(Segments(content, 0), parse);
  }

  /**
   * Each segment is what its name says. A block is a header, up to and including its first newline,
   * then the body, then the first closing fence behind the header; an unclosed one has no such fence.
   */
  predicate WellCut(segment: Segment) {
    match segment
    case Plain(text) => forall i :: 0 <= i <= |text| ==> !OccursAt(text, A2UI_FENCE, i)
    case Block(text, body) =>
      && |body| + 4 <= |text| && IsBlock(text, |text| - 3 - |body|)
      && body == text[|text| - 3 - |body|..|text| - 3]
    case Unclosed(text) =>
      && OccursAt(text, A2UI_FENCE, 0)
      && forall i, j :: 0 <= i < j <= |text| && OccursAt(text, NEWLINE, i) ==> !OccursAt(text, FENCE, j)
  }

  /** A block whose body starts at the given position. */
  predicate IsBlock(text: Text, bodyStart: nat)
    requires 0 < bodyStart && bodyStart + 3 <= |text|
  {
    && OccursAt(text, A2UI_FENCE, 0)
    && OccursAt(text, NEWLINE, bodyStart - 1) && (forall i :: 0 <= i < bodyStart - 1 ==> !OccursAt(text, NEWLINE, i))
    && OccursAt(text, FENCE, |text| - 3) && (forall i :: bodyStart <= i < |text| - 3 ==> !OccursAt(text, FENCE, i))
  }

  lemma SliceOfSlice(s: Text, lo: nat, hi: nat, i: nat, j: nat)
    requires lo <= hi <= |s| && i <= j <= hi - lo
    ensures s[lo..hi][i..j] == s[lo + i..lo + j]
  {
    var a, b := s[lo..hi][i..j], s[lo + i..lo + j];
    assert |a| == |b| && forall k :: 0 <= k < |a| ==> a[k] == s[lo + i + k] == b[k];
  }

  lemma SliceOccurs(s: Text, pattern: Text, lo: nat, hi: nat, i: nat)
    requires lo <= hi <= |s|
    ensures OccursAt(s[lo..hi], pattern, i) ==> OccursAt(s, pattern, lo + i)
    ensures OccursAt(s, pattern, lo + i) && lo + i + |pattern| <= hi ==> OccursAt(s[lo..hi], pattern, i)
  {
    if i + |pattern| <= hi - lo { SliceOfSlice(s, lo, hi, i, i + |pattern|); }
  }

  /** A pattern that fits into a piece of the content occurs there exactly where it occurs in the content. */
  lemma OccursInPiece(content: Text, pattern: Text, lo: nat, hi: nat)
    requires lo <= hi <= |content|
    ensures forall i: nat :: i + |pattern| <= hi - lo ==>
      (OccursAt(content[lo..hi], pattern, i) <==> OccursAt(content, pattern, lo + i))
  {
    forall i: nat | i + |pattern| <= hi - lo
      ensures OccursAt(content[lo..hi], pattern, i) <==> OccursAt(content, pattern, lo + i)
    {
      SliceOccurs(content, pattern, lo, hi, i);
    }
  }

  lemma PatternLengths()
    ensures |A2UI_FENCE| == 7 && |FENCE| == 3 && |NEWLINE| == 1
  {
  }

  lemma PlainIsWellCut(content: Text, cursor: nat, end: nat)
    requires cursor <= end <= |content|
    requires forall j :: cursor <= j < end ==> !OccursAt(content, A2UI_FENCE, j)
    ensures WellCut(Plain(content[cursor..end]))
  {
    assert |A2UI_FENCE| == 7;
    forall i | 0 <= i <= end - cursor ensures !OccursAt(content[cursor..end], A2UI_FENCE, i) {
      SliceOccurs(content, A2UI_FENCE, cursor, end, i);
    }
  }

  lemma PieceIsBlock(content: Text, start: nat, bodyStart: nat, bodyEnd: nat)
    requires start <= |content| && OccursAt(content, A2UI_FENCE, start)
    requires BlockEnd(content, start) == Some((bodyStart, bodyEnd)) && start + 7 < bodyStart
    ensures IsBlock(content[start..bodyEnd + 3], bodyStart - start)
  {
    hide OccursAt, Find;
    var text := content[start..bodyEnd + 3];
    PatternLengths();
    OccursInPiece(content, A2UI_FENCE, start, bodyEnd + 3);
    OccursInPiece(content, NEWLINE, start, bodyEnd + 3);
    OccursInPiece(content, FENCE, start, bodyEnd + 3);
    assert OccursAt(text, A2UI_FENCE, 0) && OccursAt(text, NEWLINE, bodyStart - 1 - start)
      && OccursAt(text, FENCE, bodyEnd - start);
  }

  lemma BlockIsWellCut(content: Text, start: nat, bodyStart: nat, bodyEnd: nat)
    requires start <= |content| && OccursAt(content, A2UI_FENCE, start)
    requires BlockEnd(content, start) == Some((bodyStart, bodyEnd))
    ensures WellCut(Block(content[start..bodyEnd + 3], content[bodyStart..bodyEnd]))
  {
    HeaderIsLongEnough(content, start);
    PieceIsBlock(content, start, bodyStart, bodyEnd);
    hide OccursAt, BlockEnd, IsBlock;
    SliceOfSlice(content, start, bodyEnd + 3, bodyStart - start, bodyEnd - start);
  }

  /** The newline that ends the header comes after the opening fence. */
  lemma HeaderIsLongEnough(content: Text, start: nat)
    requires start <= |content| && OccursAt(content, A2UI_FENCE, start) && BlockEnd(content, start).Some?
    ensures BlockEnd(content, start).value.0 > start + 7
  {
    var newline := Find(content, NEWLINE, start).value;
    assert |A2UI_FENCE| == 7 && |NEWLINE| == 1 && NEWLINE[0] == 10;
    assert content[newline] == 10 by { assert content[newline..newline + 1][0] == NEWLINE[0]; }
    if newline < start + 7 {
      assert content[start..start + 7][newline - start] == A2UI_FENCE[newline - start];
      NoNewlineInFence(newline - start);
    }
  }

  lemma NoNewlineInFence(i: nat)
    requires i < |A2UI_FENCE|
    ensures A2UI_FENCE[i] != 10
  {
  }

  lemma {:induction false} SegmentsAreWellCut(content: Text, cursor: nat)
    requires cursor <= |content|
    ensures forall k :: 0 <= k < |Segments(content, cursor)| ==> WellCut(Segments(content, cursor)[k])
    decreases |content| - cursor
  {
    hide OccursAt, WellCut, BlockEnd;
    var next := Find(content, A2UI_FENCE, cursor);
    if next.None? {
      PlainIsWellCut(content, cursor, |content|);
      assert content[cursor..|content|] == content[cursor..];
    } else {
      var start := next.value;
      PlainIsWellCut(content, cursor, start);
      var end := BlockEnd(content, start);
      if end.None? {
        UnclosedIsWellCut(content, start);
      } else {
        BlockIsWellCut(content, start, end.value.0, end.value.1);
        SegmentsAreWellCut(content, end.value.1 + 3);
      }
    }
  }

  lemma UnclosedIsWellCut(content: Text, start: nat)
    requires start <= |content| && OccursAt(content, A2UI_FENCE, start) && BlockEnd(content, start).None?
    ensures WellCut(Unclosed(content[start..]))
  {
    var text := content[start..];
    assert content[start..|content|] == text;
    SliceOccurs(content, A2UI_FENCE, start, |content|, 0);
    forall i, j | 0 <= i < j <= |text| && OccursAt(text, NEWLINE, i) ensures !OccursAt(text, FENCE, j) {
      SliceOccurs(content, NEWLINE, start, |content|, i);
      SliceOccurs(content, FENCE, start, |content|, j);
    }
  }

  // ---- There is no other way to cut ----

  /** Plain text and blocks in turn; what ends the list is plain text, if any, or an unclosed block. */
  predicate Shaped(segments: seq<Segment>) {
    match |segments|
    case 0 => true
    case 1 => segments[0].Plain? && segments[0].text != []
    case _ =>
      && segments[0].Plain?
      && ((segments[1].Unclosed? && |segments| == 2) || (segments[1].Block? && Shaped(segments[2..])))
  }

  lemma {:induction false} SegmentsAreShaped(content: Text, cursor: nat)
    requires cursor <= |content|
    ensures Shaped(Segments(content, cursor))
    decreases |content| - cursor
  {
    hide OccursAt, BlockEnd;
    var next := Find(content, A2UI_FENCE, cursor);
    if next.Some? && BlockEnd(content, next.value).Some? {
      var after := BlockEnd(content, next.value).value.1 + 3;
      SegmentsAreShaped(content, after);
      assert Segments(content, cursor)[2..] == Segments(content, after);
    }
  }

  /** Two opening fences never overlap, so none can begin in plain text and end in the fence behind it. */
  lemma FenceBehindPlain(content: Text, cursor: nat, start: nat)
    requires cursor <= start <= |content| && WellCut(Plain(content[cursor..start]))
    requires OccursAt(content, A2UI_FENCE, start)
    ensures Find(content, A2UI_FENCE, cursor) == Some(start)
  {
    assert |A2UI_FENCE| == 7 && A2UI_FENCE[6] == 105;
    forall j | cursor <= j < start ensures !OccursAt(content, A2UI_FENCE, j) {
      if j + 7 <= start {
        SliceOccurs(content, A2UI_FENCE, cursor, start, j - cursor);
      } else if OccursAt(content, A2UI_FENCE, j) {
        var k := j + 6 - start;
        assert content[j..j + 7][6] == A2UI_FENCE[6];
        assert content[start..start + 7][k] == A2UI_FENCE[k];
        OnlyLastIsI(k);
      }
    }
  }

  lemma OnlyLastIsI(k: nat)
    requires k < 6 && |A2UI_FENCE| == 7
    ensures A2UI_FENCE[k] != 105
  {
  }

  lemma OnlyPlain(content: Text, cursor: nat)
    requires cursor <= |content| && WellCut(Plain(content[cursor..]))
    ensures Find(content, A2UI_FENCE, cursor).None?
  {
    assert content[cursor..|content|] == content[cursor..];
    forall j | cursor <= j ensures !OccursAt(content, A2UI_FENCE, j) {
      if j + |A2UI_FENCE| <= |content| { SliceOccurs(content, A2UI_FENCE, cursor, |content|, j - cursor); }
    }
  }

  lemma BlockEndsThere(content: Text, start: nat, end: nat, body: Text)
    requires start <= end <= |content| && WellCut(Block(content[start..end], body))
    ensures OccursAt(content, A2UI_FENCE, start)
    ensures BlockEnd(content, start) == Some((end - 3 - |body|, end - 3)) && body == content[end - 3 - |body|..end - 3]
  {
    hide OccursAt, Find;
    var text := content[start..end];
    var bodyStart := |text| - 3 - |body|;
    PatternLengths();
    SliceOccurs(content, A2UI_FENCE, start, end, 0);
    FirstIsThere(content, NEWLINE, start, end, 0, bodyStart - 1);
    FirstIsThere(content, FENCE, start, end, bodyStart, |text| - 3);
    SliceOfSlice(content, start, end, bodyStart, |text| - 3);
  }

  /** What is first in the piece is first in the content. */
  lemma FirstIsThere(content: Text, pattern: Text, start: nat, end: nat, from: nat, at: nat)
    requires start <= end <= |content| && from <= at && at + |pattern| <= end - start
    requires OccursAt(content[start..end], pattern, at)
    requires forall i :: from <= i < at ==> !OccursAt(content[start..end], pattern, i)
    ensures Find(content, pattern, start + from) == Some(start + at)
  {
    OccursInPiece(content, pattern, start, end);
    hide OccursAt;
    forall j | start + from <= j < start + at ensures !OccursAt(content, pattern, j) {
      assert !OccursAt(content[start..end], pattern, j - start);
      assert start + (j - start) == j;
    }
  }

  lemma NoFenceBehind(content: Text, start: nat, newline: nat, j: nat)
    requires start <= newline < j <= |content| && WellCut(Unclosed(content[start..]))
    requires OccursAt(content, NEWLINE, newline)
    ensures !OccursAt(content, FENCE, j)
  {
    assert content[start..|content|] == content[start..];
    PatternLengths();
    SliceOccurs(content, NEWLINE, start, |content|, newline - start);
    SliceOccurs(content, FENCE, start, |content|, j - start);
  }

  lemma NeverClosed(content: Text, start: nat)
    requires start <= |content| && WellCut(Unclosed(content[start..]))
    ensures OccursAt(content, A2UI_FENCE, start) && BlockEnd(content, start).None?
  {
    assert content[start..|content|] == content[start..];
    SliceOccurs(content, A2UI_FENCE, start, |content|, 0);
    hide OccursAt, WellCut;
    var newline := Find(content, NEWLINE, start);
    if newline.Some? {
      forall j | newline.value < j <= |content| ensures !OccursAt(content, FENCE, j) {
        NoFenceBehind(content, start, newline.value, j);
      }
    }
  }

  /** Any list of this shape whose segments are what they say and join to the content is the scanner's. */
  lemma {:induction false} CutIsUnique(content: Text, cursor: nat, segments: seq<Segment>)
    requires cursor <= |content| && Shaped(segments) && Joined(segments) == content[cursor..]
    requires forall k :: 0 <= k < |segments| ==> WellCut(segments[k])
    ensures segments == Segments(content, cursor)
    decreases |segments|
  {
    hide OccursAt, WellCut, BlockEnd, Find, Joined;
    if segments == [] {
      NothingLeft(content, cursor);
    } else if |segments| == 1 {
      JoinOne(segments[0]);
      assert segments == [segments[0]];
      OnlyPlain(content, cursor);
    } else {
      var a, b, rest := segments[0], segments[1], segments[2..];
      var start, end := cursor + |a.text|, cursor + |a.text| + |b.text|;
      assert segments == [a, b] + rest;
      PiecesOf(content, cursor, a, b, rest);
      if b.Unclosed? {
        JoinNone();
        assert b.text == content[start..];
        NeverClosed(content, start);
        FenceBehindPlain(content, cursor, start);
      } else {
        BlockEndsThere(content, start, end, b.body);
        FenceBehindPlain(content, cursor, start);
        CutIsUnique(content, end, rest);
      }
    }
  }

  lemma PiecesOf(content: Text, cursor: nat, a: Segment, b: Segment, rest: seq<Segment>)
    requires cursor <= |content| && Joined([a, b] + rest) == content[cursor..]
    ensures var start, end := cursor + |a.text|, cursor + |a.text| + |b.text|;
      && end <= |content|
      && a.text == content[cursor..start] && b.text == content[start..end] && Joined(rest) == content[end..]
  {
    hide Joined;
    JoinTwo(a, b, rest);
    var start, end, all := cursor + |a.text|, cursor + |a.text| + |b.text|, content[cursor..];
    assert all[..|a.text|] == a.text && all[|a.text|..|a.text| + |b.text|] == b.text;
    assert all[|a.text| + |b.text|..] == Joined(rest);
  }

  lemma JoinNone()
    ensures Joined([]) == []
  {
  }

  lemma NothingLeft(content: Text, cursor: nat)
    requires cursor <= |content| && Joined([]) == content[cursor..]
    ensures Segments(content, cursor) == []
  {
    assert cursor == |content| && |A2UI_FENCE| == 7;
  }

  /** The segments are the one way to cut the content into plain text and blocks. */
  lemma SegmentsIff(content: Text, segments: seq<Segment>)
    ensures segments == Segments(content, 0) <==>
      && Shaped(segments) && Joined(segments) == content
      && forall k :: 0 <= k < |segments| ==> WellCut(segments[k])
  {
    hide WellCut, Segments, Joined, Shaped;
    assert content[0..] == content;
    SegmentsAreShaped(content, 0);
    SegmentsCoverContent(content, 0);
    SegmentsAreWellCut(content, 0);
    if Shaped(segments) && Joined(segments) == content && forall k :: 0 <= k < |segments| ==> WellCut(segments[k]) {
      CutIsUnique(content, 0, segments);
    }
  }

  // ---- What the response is ----

  lemma KeepsTwo(a: Segment, b: Segment, rest: seq<Segment>, parse: Parser)
    requires a.Plain?
    ensures KeptText([a, b] + rest, parse) == a.text + Kept(b, parse) + KeptText(rest, parse)
    ensures ParsedMessages([a, b] + rest, parse) == Parsed(b, parse) + ParsedMessages(rest, parse)
  {
    hide KeptText, ParsedMessages, Kept, Parsed;
    TwoSegments(a, b, rest, parse, [], []);
    NothingBefore(KeptText([a, b] + rest, parse));
    NothingBefore(a.text);
    NothingBefore(ParsedMessages([a, b] + rest, parse));
    NothingBefore(Parsed(b, parse));
  }

  lemma NothingBefore<T>(s: seq<T>)
    ensures [] + s == s
  {
  }

  lemma KeepsPlain(text: Text, parse: Parser)
    ensures KeptText([Plain(text)], parse) == text && ParsedMessages([Plain(text)], parse) == []
  {
    assert [Plain(text)][1..] == [];
  }

  lemma OneBlockSegments(before: Text, block: Text, body: Text, after: Text)
    requires WellCut(Plain(before)) && WellCut(Block(block, body)) && WellCut(Plain(after))
    ensures Segments(before + block + after, 0)
      == [Plain(before), Block(block, body)] + if after == [] then [] else [Plain(after)]
  {
    hide WellCut, Segments, Joined;
    var rest := if after == [] then [] else [Plain(after)];
    var segments := [Plain(before), Block(block, body)] + rest;
    assert segments[2..] == rest;
    JoinTwo(Plain(before), Block(block, body), rest);
    JoinOne(Plain(after));
    JoinNone();
    assert before + block + after == before + (block + after);
    SegmentsIff(before + block + after, segments);
  }

  /** A response with one block: the text around it stays, and the block if and only if it does not parse. */
  lemma OneBlockResponse(before: Text, block: Text, body: Text, after: Text, parse: Parser)
    requires WellCut(Plain(before)) && WellCut(Block(block, body)) && WellCut(Plain(after))
    ensures var segments := Segments(before + block + after, 0);
      match parse(body)
      case None => KeptText(segments, parse) == before + block + after && ParsedMessages(segments, parse) == []
      case Some(parsed) => KeptText(segments, parse) == before + after && ParsedMessages(segments, parse) == parsed
  {
    hide WellCut, Segments, KeptText, ParsedMessages;
    OneBlockSegments(before, block, body, after);
    KeepsTwo(Plain(before), Block(block, body), if after == [] then [] else [Plain(after)], parse);
    KeepsPlain(after, parse);
    NoSegments(parse);
  }

  /** A fence that is never closed stays. */
  lemma UnclosedResponse(before: Text, text: Text, parse: Parser)
    requires WellCut(Plain(before)) && WellCut(Unclosed(text))
    ensures var segments := Segments(before + text, 0);
      KeptText(segments, parse) == before + text && ParsedMessages(segments, parse) == []
  {
    hide WellCut, Segments, KeptText, ParsedMessages, Joined;
    var segments := [Plain(before), Unclosed(text)];
    assert segments == [Plain(before), Unclosed(text)] + [];
    JoinTwo(Plain(before), Unclosed(text), []);
    JoinNone();
    SegmentsIff(before + text, segments);
    KeepsTwo(Plain(before), Unclosed(text), [], parse);
    NoSegments(parse);
  }

  lemma FirstAndRest(segments: seq<Segment>, parse: Parser)
    requires segments != []
    ensures KeptText(segments, parse) == Kept(segments[0], parse) + KeptText(segments[1..], parse)
    ensures ParsedMessages(segments, parse) == Parsed(segments[0], parse) + ParsedMessages(segments[1..], parse)
  {
  }

  lemma Regroup<T>(a: seq<T>, b: seq<T>, c: seq<T>)
    ensures a + (b + c) == a + b + c
  {
  }

  /** What two lists of segments leave, one behind the other, is what they leave on their own, in this order. */
  lemma {:induction false} ResponsesJoin(a: seq<Segment>, b: seq<Segment>, parse: Parser)
    ensures KeptText(a + b, parse) == KeptText(a, parse) + KeptText(b, parse)
    ensures ParsedMessages(a + b, parse) == ParsedMessages(a, parse) + ParsedMessages(b, parse)
  {
    hide KeptText, ParsedMessages, Kept, Parsed;
    NoSegments(parse);
    NothingBefore(KeptText(b, parse));
    NothingBefore(ParsedMessages(b, parse));
    if a == [] {
      assert a + b == b;
    } else {
      ResponsesJoin(a[1..], b, parse);
      FirstAndRest(a, parse);
      FirstAndRest(a + b, parse);
      assert (a + b)[0] == a[0] && (a + b)[1..] == a[1..] + b;
      Regroup(Kept(a[0], parse), KeptText(a[1..], parse), KeptText(b, parse));
      Regroup(Parsed(a[0], parse), ParsedMessages(a[1..], parse), ParsedMessages(b, parse));
    }
  }
}
