/** One server-sent event: the text of a frame, what the client reads out of it, and when reading
    gives back what was written. */
module SseFrames {
  import opened Options
  import opened Text

  /** `data` is the text of the data lines; decoding it as JSON is a function of that text. */
  datatype Frame = Frame(id: Option<int>, event: string, data: string)

  // ---- Numbers ----

  /** What `Number` makes of a text that is neither empty nor a plain row of digits; `None` where
      the result is not finite. */
  type OtherNumbers = string -> Option<int>

  predicate IsDigit(c: char) { '0' <= c <= '9' }

  function Digits(s: string): int
    requires forall i | 0 <= i < |s| :: IsDigit(s[i])
  {
    if s == "" then 0 else 10 * Digits(s[..|s| - 1]) + (s[|s| - 1] as int - '0' as int)
  }

  function Number(s: string, other: OtherNumbers): Option<int> {
    if forall i | 0 <= i < |s| :: IsDigit(s[i]) then Some(Digits(s)) else other(s)
  }

  function Decimal(n: nat): string {
    var d := ['0' + (n % 10) as char];
    if n < 10 then d else Decimal(n / 10) + d
  }

  lemma {:induction false} DecimalRoundTrip(n: nat)
    ensures forall i | 0 <= i < |Decimal(n)| :: IsDigit(Decimal(n)[i])
    ensures Digits(Decimal(n)) == n
    ensures |Decimal(n)| > 0
  {
    var d := ['0' + (n % 10) as char];
    if n >= 10 {
      DecimalRoundTrip(n / 10);
      assert (Decimal(n / 10) + d)[..|Decimal(n / 10)|] == Decimal(n / 10);
    } else {
      assert d[..0] == "";
    }
  }

  // ---- Reading ----

  function WithoutCr(line: string): string {
    if line != "" && line[|line| - 1] == '\r' then line[..|line| - 1] else line
  }

  /** Split at each line feed, taking a carriage return before it along. The last line, which no
      line feed ends, keeps its carriage return. */
  function Lines(lines: seq<string>): seq<string> {
    if |lines| <= 1 then lines else [WithoutCr(lines[0])] + Lines(lines[1..])
  }

  function SplitLines(raw: string): seq<string> { Lines(SplitLf(raw)) }

  /** Field name and value of a line; one space after the colon is not part of the value. */
  function FieldOf(line: string): (string, string) {
    var colon := IndexOf(line, ":", 0);
    if colon == -1 then (line, "")
    else
      var v := line[colon + 1..];
      (line[..colon], if v != "" && v[0] == ' ' then v[1..] else v)
  }

  datatype Fields = Fields(id: Option<int>, event: string, dataLines: seq<string>)

  function ReadLine(f: Fields, line: string, other: OtherNumbers): Fields {
    if line == "" || line[0] == ':' then f
    else
      var (field, value) := FieldOf(line);
      if field == "id" then
        var n := Number(value, other);
        if n.Some? then f.(id := n) else f
      else if field == "event" then f.(event := value)
      else if field == "data" then f.(dataLines := f.dataLines + [value])
      else f
  }

  function ReadLines(f: Fields, lines: seq<string>, other: OtherNumbers): Fields
    decreases |lines|
  {
    if lines == [] then f else ReadLines(ReadLine(f, lines[0], other), lines[1..], other)
  }

  const NO_FIELDS := Fields(None, "message", [])

  function ParsedFrame(raw: string, other: OtherNumbers): Option<Frame> {
    var f := ReadLines(NO_FIELDS, SplitLines(raw), other);
    if f.dataLines == [] then None else Some(Frame(f.id, f.event, Join(f.dataLines)))
  }

  method ParseSseFrame(raw: string, other: OtherNumbers) returns (frame: Option<Frame>)
    ensures frame == ParsedFrame(raw, other)
  {
    var lines := SplitLines(raw);
    var id: Option<int>, event, dataLines := None, "message", [];
    var i := 0;
    while i < |lines|
      invariant 0 <= i <= |lines|
      invariant ReadLines(NO_FIELDS, lines, other) == ReadLines(Fields(id, event, dataLines), lines[i..], other)
    {
      var line := lines[i];
      assert lines[i..][0] == line && lines[i..][1..] == lines[i + 1..];
      i := i + 1;
      if line == "" || line[0] == ':' { continue; }
      var colon := IndexOf(line, ":", 0);
      var field := if colon == -1 then line else line[..colon];
      var value := if colon == -1 then "" else line[colon + 1..];
      if value != "" && value[0] == ' ' { value := value[1..]; }
      if field == "id" {
        var n := Number(value, other);
        if n.Some? { id := n; }
      } else if field == "event" {
        event := value;
      } else if field == "data" {
        dataLines := dataLines + [value];
      }
    }
    return if dataLines == [] then None else Some(Frame(id, event, Join(dataLines)));
  }

  // ---- Writing ----

  function DataLines(lines: seq<string>): seq<string> {
    if lines == [] then [] else ["data: " + lines[0]] + DataLines(lines[1..])
  }

  /** The lines of a frame: its position if it has one, its event, its data line by line. */
  function FrameLines(f: Frame): seq<string> {
    (if f.id.Some? && f.id.value >= 0 then ["id: " + Decimal(f.id.value)] else [])
    + ["event: " + f.event] + DataLines(SplitLf(f.data))
  }

  function FrameBody(f: Frame): string { Join(FrameLines(f)) }

  function EncodeFrame(f: Frame): string { FrameBody(f) + "\n\n" }

  predicate EndsInCr(s: string) { s != "" && s[|s| - 1] == '\r' }

  predicate CrLfAt(s: string, i: int) { 0 <= i < |s| - 1 && s[i] == '\r' && s[i + 1] == '\n' }

  ghost predicate NoCrLf(s: string) { forall i :: !CrLfAt(s, i) }

  /** No line but the last ends in a carriage return. */
  ghost predicate NoCrEnds(lines: seq<string>) { forall i | 0 <= i < |lines| - 1 :: !EndsInCr(lines[i]) }

  /** A frame the wire can carry: its event fits on a line, and no line end hides in its data. */
  ghost predicate Sendable(f: Frame) {
    && (f.id.Some? ==> f.id.value >= 0)
    && '\n' !in f.event && !EndsInCr(f.event)
    && NoCrLf(f.data)
  }

  // ---- Reading what was written ----

  lemma FieldIs(name: string, value: string)
    requires ':' !in name
    ensures FieldOf(name + ": " + value) == (name, value)
  {
    var line := name + ": " + value;
    forall j | 0 <= j < |name| ensures !At(line, ":", j) {
      AtChar(line, ':', j);
      assert line[j] == name[j] && name[j] in name;
    }
    AtChar(line, ':', |name|);
    IndexOfIs(line, ":", 0, |name|);
    assert line[..|name|] == name && line[|name| + 1..] == " " + value;
    assert (" " + value)[1..] == value;
  }

  lemma ReadDataLine(f: Fields, l: string, other: OtherNumbers)
    ensures ReadLine(f, "data: " + l, other) == f.(dataLines := f.dataLines + [l])
  {
    FieldIs("data", l);
    assert "data: " + l == "data" + ": " + l;
  }

  lemma ReadCons(f: Fields, l: string, rest: seq<string>, other: OtherNumbers)
    ensures ReadLines(f, [l] + rest, other) == ReadLines(ReadLine(f, l, other), rest, other)
  {
    assert ([l] + rest)[1..] == rest;
  }

  lemma ReadFirst(f: Fields, lines: seq<string>, other: OtherNumbers)
    requires lines != []
    ensures ReadLines(f, DataLines(lines), other)
         == ReadLines(f.(dataLines := f.dataLines + [lines[0]]), DataLines(lines[1..]), other)
  {
    ReadDataLine(f, lines[0], other);
    ReadCons(f, "data: " + lines[0], DataLines(lines[1..]), other);
  }

  lemma {:induction false} ReadData(f: Fields, lines: seq<string>, other: OtherNumbers, g: Fields)
    requires g == f.(dataLines := f.dataLines + lines)
    ensures ReadLines(f, DataLines(lines), other) == g
    decreases |lines|
  {
    if lines == [] {
      assert f.dataLines + lines == f.dataLines;
    } else {
      var more := f.dataLines + [lines[0]];
      assert more + lines[1..] == f.dataLines + lines;
      ReadFirst(f, lines, other);
      ReadData(f.(dataLines := more), lines[1..], other, g);
    }
  }

  /** The lines of a frame as they come off the wire, read back. */
  lemma ReadFrame(id: Option<int>, event: string, lines: seq<string>, other: OtherNumbers)
    requires id.Some? ==> id.value >= 0
    ensures var l := (if id.Some? then ["id: " + Decimal(id.value)] else []) + ["event: " + event] + DataLines(lines);
      ReadLines(NO_FIELDS, l, other) == Fields(id, event, lines)
  {
    var f, e, d := NO_FIELDS.(id := id), ["event: " + event], DataLines(lines);
    ReadEvent(f, event, d, other);
    ReadData(f.(event := event), lines, other, Fields(id, event, lines));
    if id.Some? {
      ReadId(id.value, e + d, other);
      Regroup(["id: " + Decimal(id.value)], e, d);
    } else {
      assert [] + e == e;
    }
  }

  lemma ReadEvent(f: Fields, event: string, rest: seq<string>, other: OtherNumbers)
    ensures ReadLines(f, ["event: " + event] + rest, other) == ReadLines(f.(event := event), rest, other)
  {
    FieldIs("event", event);
    assert "event: " + event == "event" + ": " + event;
    ReadCons(f, "event: " + event, rest, other);
  }

  lemma ReadId(id: nat, rest: seq<string>, other: OtherNumbers)
    ensures ReadLines(NO_FIELDS, ["id: " + Decimal(id)] + rest, other)
         == ReadLines(NO_FIELDS.(id := Some(id)), rest, other)
  {
    var d := Decimal(id);
    FieldIs("id", d);
    assert "id: " + d == "id" + ": " + d;
    DecimalRoundTrip(id);
    ReadCons(NO_FIELDS, "id: " + d, rest, other);
  }

  lemma {:induction false} LinesOfData(lines: seq<string>)
    ensures Lines(DataLines(lines)) == DataLines(Lines(lines))
    decreases |lines|
  {
    if |lines| > 1 {
      LinesOfData(lines[1..]);
      var l := lines[0];
      assert ("data: " + l)[..|"data: " + l| - 1] == if l == "" then "data:" else "data: " + l[..|l| - 1];
      assert DataLines(lines)[1..] == DataLines(lines[1..]);
    }
  }

  lemma DecimalNoCr(n: nat)
    ensures !EndsInCr("id: " + Decimal(n)) && '\n' !in "id: " + Decimal(n)
  {
    DecimalRoundTrip(n);
    var d := Decimal(n);
    forall i | 0 <= i < |"id: " + d| ensures ("id: " + d)[i] != '\n' {
      if i >= 4 { assert IsDigit(d[i - 4]); }
    }
  }

  lemma {:induction false} DataLinesPlain(lines: seq<string>)
    requires forall i | 0 <= i < |lines| :: '\n' !in lines[i]
    ensures |DataLines(lines)| == |lines|
    ensures forall i | 0 <= i < |lines| :: DataLines(lines)[i] != "" && '\n' !in DataLines(lines)[i]
  {
    if lines != [] { DataLinesPlain(lines[1..]); }
  }

  /** The lines of a frame come off the wire without their carriage returns. */
  lemma LinesOfFrame(f: Frame)
    requires f.id.Some? ==> f.id.value >= 0
    ensures Lines(FrameLines(f)) ==
      (if f.id.Some? then ["id: " + Decimal(f.id.value)] else [])
      + ["event: " + WithoutCr(f.event)] + DataLines(Lines(SplitLf(f.data)))
  {
    var data := SplitLf(f.data);
    var tail := ["event: " + f.event] + DataLines(data);
    EventLines(f.event, data);
    if f.id.Some? {
      var l := "id: " + Decimal(f.id.value);
      DecimalNoCr(f.id.value);
      LinesCons(l, tail);
      Regroup([l], ["event: " + f.event], DataLines(data));
      Regroup([l], ["event: " + WithoutCr(f.event)], DataLines(Lines(data)));
    } else {
      assert [] + ["event: " + f.event] == ["event: " + f.event];
      assert [] + ["event: " + WithoutCr(f.event)] == ["event: " + WithoutCr(f.event)];
    }
  }

  lemma EventLines(event: string, data: seq<string>)
    requires data != []
    ensures Lines(["event: " + event] + DataLines(data)) == ["event: " + WithoutCr(event)] + DataLines(Lines(data))
  {
    LinesOfData(data);
    FieldWithoutCr("event: ", event);
    LinesCons("event: " + event, DataLines(data));
  }

  lemma LinesCons(l: string, rest: seq<string>)
    requires rest != []
    ensures Lines([l] + rest) == [WithoutCr(l)] + Lines(rest)
  {
    assert ([l] + rest)[1..] == rest;
  }

  lemma FieldWithoutCr(name: string, value: string)
    requires name != "" && name[|name| - 1] != '\r'
    ensures WithoutCr(name + value) == name + WithoutCr(value)
  {
    if value == "" {
      assert name + value == name;
    } else {
      assert (name + value)[..|name + value| - 1] == name + value[..|value| - 1];
    }
  }

  /** What a frame with a one-line event reads as: its event loses a final carriage return, and so
      does every line of its data but the last. */
  lemma ParsedBody(f: Frame, other: OtherNumbers)
    requires (f.id.Some? ==> f.id.value >= 0) && '\n' !in f.event
    ensures ParsedFrame(FrameBody(f), other) == Some(Frame(f.id, WithoutCr(f.event), Join(Lines(SplitLf(f.data)))))
  {
    FrameLinesPlain(f);
    SplitJoin(FrameLines(f));
    LinesOfFrame(f);
    ReadFrame(f.id, WithoutCr(f.event), Lines(SplitLf(f.data)), other);
    LinesSameCount(SplitLf(f.data));
  }

  lemma {:induction false} LinesSameCount(lines: seq<string>)
    ensures |Lines(lines)| == |lines|
    ensures forall i | 0 <= i < |lines| - 1 :: Lines(lines)[i] == WithoutCr(lines[i])
    ensures lines != [] ==> Lines(lines)[|lines| - 1] == lines[|lines| - 1]
    decreases |lines|
  {
    if |lines| > 1 { LinesSameCount(lines[1..]); }
  }

  lemma FrameLinesPlain(f: Frame)
    requires '\n' !in f.event
    ensures var ls := FrameLines(f);
      |ls| > 0 && forall i | 0 <= i < |ls| :: ls[i] != "" && '\n' !in ls[i]
  {
    SplitPlain(f.data);
    DataLinesPlain(SplitLf(f.data));
    if f.id.Some? && f.id.value >= 0 { DecimalNoCr(f.id.value); }
    assert '\n' !in "event: " + f.event;
  }

  /** Dropping carriage returns leaves the joined text as it is exactly when there is none to drop. */
  lemma {:induction false} JoinedLines(lines: seq<string>)
    requires lines != []
    ensures |Join(Lines(lines))| <= |Join(lines)|
    ensures Join(Lines(lines)) == Join(lines) <==> NoCrEnds(lines)
    decreases |lines|
  {
    if |lines| > 1 {
      var l, rest := lines[0], lines[1..];
      JoinedLines(rest);
      LinesSameCount(rest);
      assert Lines(lines)[1..] == Lines(rest);
      assert Join(Lines(lines)) == WithoutCr(l) + "\n" + Join(Lines(rest));
      assert Join(lines) == l + "\n" + Join(rest);
      assert lines == [l] + rest;
      CrEndsInRest(l, rest);
      if Join(Lines(lines)) == Join(lines) {
        assert |WithoutCr(l)| == |l|;
        assert Join(Lines(lines))[|l| + 1..] == Join(Lines(rest)) && Join(lines)[|l| + 1..] == Join(rest);
      }
    }
  }

  /** A text has a line ending in a carriage return, other than its last, exactly when it has a
      carriage return before a line feed. */
  lemma {:induction false} CrBeforeLf(s: string)
    ensures NoCrEnds(SplitLf(s)) <==> NoCrLf(s)
    decreases |s|
  {
    var n := IndexOf(s, "\n", 0);
    NoLfBefore(s);
    if n != -1 {
      IndexOfFirst(s, "\n", 0);
      AtChar(s, '\n', n);
      var rest := s[n + 1..];
      CrBeforeLf(rest);
      CrEndsInRest(s[..n], SplitLf(rest));
      CrLfInRest(s, n, s[..n], rest);
    } else {
      forall i ensures !CrLfAt(s, i) {
        if 0 <= i < |s| - 1 { assert s[i + 1] in s; }
      }
    }
  }

  lemma CrEndsInRest(l: string, rest: seq<string>)
    requires rest != []
    ensures NoCrEnds([l] + rest) <==> !EndsInCr(l) && NoCrEnds(rest)
  {
    var ls := [l] + rest;
    assert ls[0] == l && forall i | 0 <= i < |rest| :: rest[i] == ls[i + 1];
  }

  lemma CrLfInRest(s: string, n: nat, l: string, rest: string)
    requires n < |s| && s[n] == '\n' && '\n' !in l && l == s[..n] && rest == s[n + 1..]
    ensures NoCrLf(s) <==> !EndsInCr(l) && NoCrLf(rest)
  {
    assert n > 0 ==> l[n - 1] == s[n - 1];
    assert EndsInCr(l) <==> CrLfAt(s, n - 1);
    forall i ensures CrLfAt(rest, i) <==> i >= 0 && CrLfAt(s, i + n + 1) {
      if 0 <= i < |rest| - 1 { assert rest[i] == s[i + n + 1] && rest[i + 1] == s[i + n + 2]; }
    }
    forall i ensures CrLfAt(s, i) ==> i == n - 1 || CrLfAt(rest, i - n - 1) {
      if 0 <= i && i + 1 < n { assert s[i + 1] == l[i + 1] && l[i + 1] in l; }
      if n < i < |s| - 1 { assert rest[i - n - 1] == s[i] && rest[i - n] == s[i + 1]; }
    }
  }

  /** No frame read off the wire has a line feed in its event. */
  lemma {:induction false} EventsAreOneLine(f: Fields, lines: seq<string>, other: OtherNumbers)
    requires '\n' !in f.event && forall i | 0 <= i < |lines| :: '\n' !in lines[i]
    ensures '\n' !in ReadLines(f, lines, other).event
    decreases |lines|
  {
    if lines != [] {
      EventsAreOneLine(ReadLine(f, lines[0], other), lines[1..], other);
    }
  }

  lemma ParsedIsOneLine(raw: string, other: OtherNumbers)
    ensures ParsedFrame(raw, other).Some? ==> '\n' !in ParsedFrame(raw, other).value.event
  {
    var ls := SplitLf(raw);
    SplitPlain(raw);
    LinesSameCount(ls);
    forall i | 0 <= i < |ls| ensures '\n' !in Lines(ls)[i] { }
    EventsAreOneLine(NO_FIELDS, Lines(ls), other);
  }

  /** With a one-line event, the rest is in the carriage returns. */
  lemma OneLineRoundTrip(f: Frame, other: OtherNumbers)
    requires (f.id.Some? ==> f.id.value >= 0) && '\n' !in f.event
    ensures ParsedFrame(FrameBody(f), other) == Some(f) <==> !EndsInCr(f.event) && NoCrLf(f.data)
  {
    ParsedBody(f, other);
    JoinSplit(f.data);
    JoinedLines(SplitLf(f.data));
    CrBeforeLf(f.data);
  }

  /** Reading a frame's text gives the frame back exactly when the wire can carry it. */
  lemma FrameRoundTrip(f: Frame, other: OtherNumbers)
    requires f.id.Some? ==> f.id.value >= 0
    ensures ParsedFrame(FrameBody(f), other) == Some(f) <==> Sendable(f)
  {
    if '\n' in f.event { ParsedIsOneLine(FrameBody(f), other); } else { OneLineRoundTrip(f, other); }
  }
}
