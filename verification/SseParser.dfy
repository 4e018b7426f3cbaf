/** The incremental parser of an event stream: whatever way the text is cut into chunks, the frames
    are those of the whole text split at each leftmost blank line. */
module SseParser {
  import opened Options
  import opened Text
  import opened SseFrames

  const BLANK_LINE := "\n\n"

  /** What reads one block: `parseSseFrame`, given what `Number` makes of odd numerals. */
  type Parse = string -> Option<Frame>

  function FrameParser(other: OtherNumbers): Parse { raw => ParsedFrame(raw, other) }

  /** The texts ended by a blank line. */
  function Blocks(text: string): seq<string>
    decreases |text|
  {
    var i := IndexOf(text, BLANK_LINE, 0);
    if i == -1 then [] else [text[..i]] + Blocks(text[i + 2..])
  }

  /** What is left after the last blank line. */
  function Rest(text: string): string
    decreases |text|
  {
    var i := IndexOf(text, BLANK_LINE, 0);
    if i == -1 then text else Rest(text[i + 2..])
  }

  function Found(f: Option<Frame>): seq<Frame> { if f.Some? then [f.value] else [] }

  /** The frames of some blocks; a block without data is none. */
  function FramesOf(blocks: seq<string>, parse: Parse): seq<Frame> {
    if blocks == [] then []
    else Found(parse(blocks[0])) + FramesOf(blocks[1..], parse)
  }

  /** All at once: the frames of a text. A reader that dies drops the unfinished rest; one that
      ends has it read as a last frame, unless it is blank. */
  function FramesIn(text: string, ended: bool, parse: Parse): seq<Frame> {
    FramesOf(Blocks(text), parse) + LastFrame(Rest(text), ended, parse)
  }

  function LastFrame(rest: string, ended: bool, parse: Parse): seq<Frame> {
    if ended && !Blank(rest) then FramesOf([rest], parse) else []
  }

  /** Text added at the end leaves the first block of a text that has one as it is. */
  lemma FirstBlock(a: string, b: string, i: nat)
    requires i == IndexOf(a, BLANK_LINE, 0)
    ensures i + 2 <= |a|
    ensures Blocks(a) == [a[..i]] + Blocks(a[i + 2..]) && Rest(a) == Rest(a[i + 2..])
    ensures Blocks(a + b) == [a[..i]] + Blocks(a[i + 2..] + b) && Rest(a + b) == Rest(a[i + 2..] + b)
  {
    IndexOfAppend(a, b, BLANK_LINE);
    assert (a + b)[..i] == a[..i];
    assert (a + b)[i + 2..] == a[i + 2..] + b;
  }

  /** More text only adds blocks: the finished ones stay, and reading goes on from the rest. */
  lemma {:induction false} BlocksAppend(a: string, b: string)
    ensures Blocks(a + b) == Blocks(a) + Blocks(Rest(a) + b)
    ensures Rest(a + b) == Rest(Rest(a) + b)
    decreases |a|
  {
    var i := IndexOf(a, BLANK_LINE, 0);
    if i == -1 {
      assert Blocks(a) == [] && Rest(a) == a;
    } else {
      FirstBlock(a, b, i);
      BlocksAppend(a[i + 2..], b);
      Regroup([a[..i]], Blocks(a[i + 2..]), Blocks(Rest(a) + b));
    }
  }

  lemma {:induction false} FramesAppend(a: seq<string>, b: seq<string>, parse: Parse)
    ensures FramesOf(a + b, parse) == FramesOf(a, parse) + FramesOf(b, parse)
    decreases |a|
  {
    if a == [] {
      assert a + b == b;
    } else {
      assert (a + b)[1..] == a[1..] + b;
      FramesAppend(a[1..], b, parse);
    }
  }

  lemma FramesCons(block: string, blocks: seq<string>, parse: Parse)
    ensures FramesOf([block] + blocks, parse) == FramesOf([block], parse) + FramesOf(blocks, parse)
    ensures FramesOf([block], parse) == Found(parse(block))
  {
    FramesAppend([block], blocks, parse);
    assert [block][1..] == [];
  }

  lemma FirstFrame(text: string, i: nat, parse: Parse)
    requires i == IndexOf(text, BLANK_LINE, 0)
    ensures i + 2 <= |text| && Rest(text) == Rest(text[i + 2..])
    ensures FramesOf(Blocks(text), parse) ==
      Found(parse(text[..i])) + FramesOf(Blocks(text[i + 2..]), parse)
  {
    FirstBlock(text, "", i);
    FramesCons(text[..i], Blocks(text[i + 2..]), parse);
  }

  lemma NoFrame(text: string, parse: Parse)
    requires IndexOf(text, BLANK_LINE, 0) == -1
    ensures FramesOf(Blocks(text), parse) == [] && Rest(text) == text
  {
  }

  /** The inner loop of `parseSse`: read every finished block off the buffer. */
  method Drain(text: string, other: OtherNumbers) returns (frames: seq<Frame>, buffer: string)
    ensures frames == FramesOf(Blocks(text), FrameParser(other)) && buffer == Rest(text)
  {
    ghost var parse := FrameParser(other);
    frames, buffer := [], text;
    var idx := IndexOf(buffer, BLANK_LINE, 0);
    while idx != -1
      invariant idx == IndexOf(buffer, BLANK_LINE, 0)
      invariant frames + FramesOf(Blocks(buffer), parse) == FramesOf(Blocks(text), parse)
      invariant Rest(buffer) == Rest(text)
      decreases |buffer|
    {
      FirstFrame(buffer, idx, parse);
      var frame := ParseSseFrame(buffer[..idx], other);
      ghost var before := frames;
      if frame.Some? { frames := frames + [frame.value]; }
      assert frames == before + Found(parse(buffer[..idx]));
      Regroup(before, Found(parse(buffer[..idx])), FramesOf(Blocks(buffer[idx + 2..]), parse));
      buffer := buffer[idx + 2..];
      idx := IndexOf(buffer, BLANK_LINE, 0);
    }
    NoFrame(buffer, parse);
  }

  /** `parseSse`, over the chunks the reader delivers; `ended` tells a stream that was closed from
      a reader that threw after them. */
  method ParseSse(chunks: seq<string>, ended: bool, other: OtherNumbers) returns (frames: seq<Frame>)
    ensures frames == FramesIn(Concat(chunks), ended, FrameParser(other))
  {
    frames := [];
    var buffer := "";
    for k := 0 to |chunks|
      invariant frames == FramesOf(Blocks(Concat(chunks[..k])), FrameParser(other))
      invariant buffer == Rest(Concat(chunks[..k]))
    {
      ghost var text := Concat(chunks[..k]);
      assert chunks[..k + 1] == chunks[..k] + [chunks[k]];
      ConcatSnoc(chunks[..k], chunks[k]);
      BlocksAppend(text, chunks[k]);
      FramesAppend(Blocks(text), Blocks(buffer + chunks[k]), FrameParser(other));
      var more;
      more, buffer := Drain(buffer + chunks[k], other);
      frames := frames + more;
    }
    assert chunks[..|chunks|] == chunks;
    if ended && !Blank(buffer) {
      var frame := ParseSseFrame(buffer, other);
      FramesCons(buffer, [], FrameParser(other));
      if frame.Some? { frames := frames + [frame.value]; }
    }
  }

  // ---- A whole stream, written and read back ----

  function EncodeAll(frames: seq<Frame>): string {
    if frames == [] then "" else EncodeFrame(frames[0]) + EncodeAll(frames[1..])
  }

  /** Lines that are neither empty nor broken leave no blank line before the one that follows them. */
  lemma {:induction false} NoBlankLineInside(lines: seq<string>, rest: string, j: int)
    requires lines != [] && forall i | 0 <= i < |lines| :: lines[i] != "" && '\n' !in lines[i]
    requires 0 <= j < |Join(lines)|
    ensures Join(lines)[0] != '\n'
    ensures !At(Join(lines) + BLANK_LINE + rest, BLANK_LINE, j)
    decreases |lines|
  {
    var s := Join(lines);
    var l := lines[0];
    assert forall i | 0 <= i < |l| :: s[i] == l[i] && l[i] in l;
    var t := s + BLANK_LINE + rest;
    assert t[j..j + 2] == [t[j], t[j + 1]];
    if |lines| > 1 {
      var m := Join(lines[1..]);
      assert s == l + "\n" + m;
      assert lines[1..][0] != "";
      NonEmptyJoin(lines[1..]);
      if j < |l| {
        assert t[j] == l[j];
      } else if j == |l| {
        NoBlankLineInside(lines[1..], rest, 0);
        assert t[j + 1] == m[0];
      } else {
        NoBlankLineInside(lines[1..], rest, j - |l| - 1);
        var u := m + BLANK_LINE + rest;
        assert t == l + "\n" + u;
        assert t[j..j + 2] == u[j - |l| - 1..j - |l| + 1];
      }
    } else {
      assert t[j] == l[j];
    }
  }

  lemma NonEmptyJoin(lines: seq<string>)
    requires lines != [] && lines[0] != ""
    ensures Join(lines) != ""
  {
  }

  /** A frame's text is one block. */
  lemma FrameIsBlock(f: Frame, rest: string)
    requires '\n' !in f.event
    ensures Blocks(EncodeFrame(f) + rest) == [FrameBody(f)] + Blocks(rest)
    ensures Rest(EncodeFrame(f) + rest) == Rest(rest)
    ensures Blocks(FrameBody(f)) == [] && Rest(FrameBody(f)) == FrameBody(f) && !Blank(FrameBody(f))
  {
    var ls := FrameLines(f);
    FrameLinesPlain(f);
    var s := Join(ls);
    var t := EncodeFrame(f) + rest;
    assert t == s + BLANK_LINE + rest;
    forall j | 0 <= j < |s| ensures !At(t, BLANK_LINE, j) { NoBlankLineInside(ls, rest, j); }
    assert t[|s|..|s| + 2] == BLANK_LINE;
    IndexOfIs(t, BLANK_LINE, 0, |s|);
    assert t[..|s|] == s && t[|s| + 2..] == rest;
    forall j | 0 <= j ensures !At(s, BLANK_LINE, j) {
      if j + 2 <= |s| {
        NoBlankLineInside(ls, rest, j);
        assert t[j..j + 2] == s[j..j + 2];
      }
    }
    IndexOfNone(s, BLANK_LINE, 0);
    assert ls[0][0] == 'i' || ls[0][0] == 'e';
    assert s[0] == ls[0][0];
    assert !IsSpace(s[0]);
  }

  lemma FrameIsRead(f: Frame, more: string, parse: Parse)
    requires '\n' !in f.event && parse(FrameBody(f)) == Some(f)
    ensures FramesOf(Blocks(EncodeFrame(f) + more), parse) == [f] + FramesOf(Blocks(more), parse)
    ensures Rest(EncodeFrame(f) + more) == Rest(more)
  {
    FrameIsBlock(f, more);
    FramesCons(FrameBody(f), Blocks(more), parse);
  }

  ghost predicate AllSendable(frames: seq<Frame>) {
    forall i | 0 <= i < |frames| :: Sendable(frames[i])
  }

  ghost predicate AllRead(frames: seq<Frame>, parse: Parse) {
    forall i | 0 <= i < |frames| :: '\n' !in frames[i].event && parse(FrameBody(frames[i])) == Some(frames[i])
  }

  lemma SendableAreRead(frames: seq<Frame>, other: OtherNumbers)
    requires AllSendable(frames)
    ensures AllRead(frames, FrameParser(other))
  {
    forall i | 0 <= i < |frames| ensures ParsedFrame(FrameBody(frames[i]), other) == Some(frames[i]) {
      FrameRoundTrip(frames[i], other);
    }
  }

  lemma EncodeMore(f: Frame, fs: seq<Frame>, rest: string)
    ensures EncodeAll([f] + fs) + rest == EncodeFrame(f) + (EncodeAll(fs) + rest)
  {
    assert ([f] + fs)[1..] == fs;
  }

  lemma {:induction false} EncodedBlocks(frames: seq<Frame>, rest: string, parse: Parse)
    requires AllRead(frames, parse)
    ensures FramesOf(Blocks(EncodeAll(frames) + rest), parse) == frames + FramesOf(Blocks(rest), parse)
    ensures Rest(EncodeAll(frames) + rest) == Rest(rest)
    decreases |frames|
  {
    if frames == [] {
      assert EncodeAll(frames) + rest == rest;
    } else {
      var f, fs := frames[0], frames[1..];
      assert frames == [f] + fs;
      EncodedBlocks(fs, rest, parse);
      FrameIsRead(f, EncodeAll(fs) + rest, parse);
      EncodeMore(f, fs, rest);
      Regroup([f], fs, FramesOf(Blocks(rest), parse));
    }
  }

  /** Frames written one after the other, cut into chunks anywhere, are read back one by one. */
  lemma StreamRoundTrip(frames: seq<Frame>, chunks: seq<string>, ended: bool, other: OtherNumbers)
    requires AllSendable(frames)
    requires Concat(chunks) == EncodeAll(frames)
    ensures FramesIn(Concat(chunks), ended, FrameParser(other)) == frames
  {
    SendableAreRead(frames, other);
    EncodedBlocks(frames, "", FrameParser(other));
    assert EncodeAll(frames) + "" == EncodeAll(frames);
    assert frames + [] == frames;
  }

  /** A last frame whose blank line never came is read as well when the stream ends, and dropped
      when the reader dies. */
  lemma UnterminatedLastFrame(frames: seq<Frame>, f: Frame, chunks: seq<string>, ended: bool, other: OtherNumbers)
    requires Sendable(f) && AllSendable(frames)
    requires Concat(chunks) == EncodeAll(frames) + FrameBody(f)
    ensures FramesIn(Concat(chunks), ended, FrameParser(other)) == frames + if ended then [f] else []
  {
    SendableAreRead(frames, other);
    SendableAreRead([f], other);
    assert FrameParser(other)(FrameBody([f][0])) == Some(f);
    EncodedBlocks(frames, FrameBody(f), FrameParser(other));
    FrameIsBlock(f, "");
    FramesCons(FrameBody(f), [], FrameParser(other));
    assert frames + [] == frames;
  }
}
