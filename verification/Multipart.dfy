/** The delimiter scan over a multipart body: the list and the map it fills, and its agreement with
    the way senders write bodies. A character stands for a byte. */
module Multipart {
  import opened Options
  import opened Text
  import opened MultipartFields

  datatype Part = Part(fields: Fields, data: string)

  const CRLF := "\r\n"
  const BLANK_LINE := "\r\n\r\n"

  function Delimiter(boundary: string): (d: string)
    ensures |d| >= 2
  {
    "--" + boundary
  }

  /** A part without a blank line, or without a name, is skipped. */
  function ReadPart(chunk: string): Option<Part> {
    var sep := IndexOf(chunk, BLANK_LINE, 0);
    if sep == -1 then None
    else
      match ReadFields(chunk[..sep])
      case None => None
      case Some(fields) => Some(Part(fields, chunk[sep + |BLANK_LINE|..]))
  }

  predicate IsClosing(body: string, at: nat) { at + 1 < |body| && body[at] == '-' && body[at + 1] == '-' }

  /** The part body ends before the line end that precedes the next delimiter. */
  function Between(body: string, partStart: nat, nextIdx: nat): string
    requires partStart <= nextIdx <= |body|
  {
    var partEnd := nextIdx - 2;
    body[partStart..if partEnd < partStart then partStart else partEnd]
  }

  datatype ScanStep = Stop | Next(chunk: string, start: nat)

  /** One turn of the loop: the next place to start from, and what lies between the delimiters. The
      start grows strictly, and nothing outside the body is touched. */
  function Scan(body: string, d: string, start: nat): (r: ScanStep)
    requires d != []
    ensures r.Next? ==> start + |d| + 2 <= r.start <= |body| - |d|
  {
    var idx := IndexOf(body, d, start);
    if idx == -1 || IsClosing(body, idx + |d|) then Stop
    else
      var partStart := idx + |d| + 2;
      var nextIdx := IndexOf(body, d, partStart);
      if nextIdx == -1 then Stop
      else Next(Between(body, partStart, nextIdx), nextIdx)
  }

  /** What lies between the delimiters from `start` on, up to the closing one. */
  function Chunks(body: string, d: string, start: nat): seq<string>
    requires d != []
    decreases |body| - start
  {
    match Scan(body, d, start)
    case Stop => []
    case Next(chunk, next) => [chunk] + Chunks(body, d, next)
  }

  /** The parts among some chunks, in order. */
  function ReadAll(chunks: seq<string>): seq<Part> {
    if chunks == [] then []
    else
      var init := ReadAll(chunks[..|chunks| - 1]);
      match ReadPart(chunks[|chunks| - 1])
      case Some(part) => init + [part]
      case None => init
  }

  lemma ReadAllSnoc(chunks: seq<string>, c: string)
    ensures ReadAll(chunks + [c]) == match ReadPart(c) case Some(part) => ReadAll(chunks) + [part] case None => ReadAll(chunks)
  {
    assert (chunks + [c])[..|chunks|] == chunks;
  }

  /** A run of the loop: what it has taken off the body so far, and what is left. */
  ghost predicate Scanned(done: seq<string>, body: string, d: string, start: nat)
    requires d != []
  {
    done + Chunks(body, d, start) == Chunks(body, d, 0)
  }

  lemma ScanIs(body: string, d: string, start: nat, idx: nat, next: nat)
    requires d != []
    requires IndexOf(body, d, start) == idx && !IsClosing(body, idx + |d|) && IndexOf(body, d, idx + |d| + 2) == next
    ensures Scan(body, d, start) == Next(Between(body, idx + |d| + 2, next), next)
  {
  }

  lemma ChunksTake(body: string, d: string, start: nat, chunk: string, next: nat)
    requires d != [] && Scan(body, d, start) == Next(chunk, next)
    ensures Chunks(body, d, start) == [chunk] + Chunks(body, d, next)
  {
  }

  lemma ScannedStep(done: seq<string>, body: string, d: string, start: nat, chunk: string, next: nat)
    requires d != [] && Scanned(done, body, d, start) && Scan(body, d, start) == Next(chunk, next)
    ensures Scanned(done + [chunk], body, d, next)
  {
    ChunksTake(body, d, start, chunk, next);
    Regroup(done, [chunk], Chunks(body, d, next));
  }

  lemma ScannedEnd(done: seq<string>, body: string, d: string, start: nat)
    requires d != [] && Scanned(done, body, d, start) && Scan(body, d, start) == Stop
    ensures done == Chunks(body, d, 0)
  {
  }

  /** `parseMultipartParts`. */
  method ParseMultipartParts(body: string, boundary: string) returns (parts: seq<Part>)
    ensures parts == ReadAll(Chunks(body, Delimiter(boundary), 0))
  {
    var d := Delimiter(boundary);
    parts := [];
    var start := 0;
    ghost var done: seq<string> := [];
    while true
      invariant Scanned(done, body, d, start) && parts == ReadAll(done)
      decreases |body| - start
    {
      var step := Scan(body, d, start);
      if step.Stop? { break; }
      var chunk := step.chunk;
      ScannedStep(done, body, d, start, chunk, step.start);
      start := step.start;
      ReadAllSnoc(done, chunk);
      done := done + [chunk];
      var part := ReadPart(chunk);
      if part == None { continue; }
      parts := parts + [part.value];
    }
    ScannedEnd(done, body, d, start);
  }

  /** The last part of each name. */
  function LastByName(parts: seq<Part>): map<string, Part> {
    if parts == [] then map[]
    else LastByName(parts[..|parts| - 1])[parts[|parts| - 1].fields.name := parts[|parts| - 1]]
  }

  lemma LastByNameSnoc(parts: seq<Part>, p: Part)
    ensures LastByName(parts + [p]) == LastByName(parts)[p.fields.name := p]
  {
    assert (parts + [p])[..|parts|] == parts;
  }

  /** `parseMultipart`: a map where a name met again takes the later part. */
  method ParseMultipart(body: string, boundary: string) returns (parts: map<string, Part>)
    ensures parts == LastByName(ReadAll(Chunks(body, Delimiter(boundary), 0)))
  {
    var d := Delimiter(boundary);
    parts := map[];
    var start := 0;
    ghost var done: seq<string> := [];
    while true
      invariant Scanned(done, body, d, start) && parts == LastByName(ReadAll(done))
      decreases |body| - start
    {
      var step := Scan(body, d, start);
      if step.Stop? { break; }
      var chunk := step.chunk;
      ScannedStep(done, body, d, start, chunk, step.start);
      start := step.start;
      ReadAllSnoc(done, chunk);
      var part := ReadPart(chunk);
      if part.Some? { LastByNameSnoc(ReadAll(done), part.value); }
      done := done + [chunk];
      if part == None { continue; }
      parts := parts[part.value.fields.name := part.value];
    }
    ScannedEnd(done, body, d, start);
  }

  /** Part `i` is the last of its name. */
  ghost predicate LastNamed(parts: seq<Part>, name: string, i: int) {
    && 0 <= i < |parts| && parts[i].fields.name == name
    && forall j | i < j < |parts| :: parts[j].fields.name != name
  }

  /** What last wins means: a name is in the map when some part has it, and it has the last such. */
  lemma {:induction false} LastByNameIs(parts: seq<Part>, name: string)
    ensures name in LastByName(parts) <==> exists i | 0 <= i < |parts| :: parts[i].fields.name == name
    ensures name in LastByName(parts) ==>
      exists i | LastNamed(parts, name, i) :: parts[i] == LastByName(parts)[name]
    decreases |parts|
  {
    if parts != [] {
      var n := |parts| - 1;
      var init := parts[..n];
      LastByNameIs(init, name);
      assert forall i | 0 <= i < n :: init[i] == parts[i];
      if parts[n].fields.name == name {
        assert LastNamed(parts, name, n);
      } else if name in LastByName(init) {
        var i :| LastNamed(init, name, i) && init[i] == LastByName(init)[name];
        assert LastNamed(parts, name, i);
      }
    }
  }

  // ---- Bodies as senders write them: section 5.1.1 of RFC 2046 ----

  /** The text after a delimiter: the close marker and an epilogue, or a chunk up to the next. */
  function Rest(d: string, chunks: seq<string>, epilogue: string): string {
    if chunks == [] then "--" + epilogue
    else CRLF + chunks[0] + CRLF + d + Rest(d, chunks[1..], epilogue)
  }

  function WriteBody(d: string, preamble: Option<string>, chunks: seq<string>, epilogue: string): string {
    (match preamble case Some(p) => p + CRLF case None => "") + d + Rest(d, chunks, epilogue)
  }

  ghost predicate Lacks(s: string, pat: string) { forall j :: !At(s, pat, j) }

  /** A delimiter cannot begin in a text without it that a line end follows, nor in the line end. */
  lemma NotBeforeLineEnd(s: string, t: string, d: string)
    requires Lacks(s, d) && OneLine(d) && d != []
    ensures forall j | 0 <= j < |s| + 2 :: !At(s + CRLF + t, d, j)
  {
    var b := s + CRLF + t;
    forall j | 0 <= j < |s| + 2 ensures !At(b, d, j) {
      assert !At(s, d, j);
      if j + |d| <= |s| {
        assert s[j..j + |d|] == b[j..j + |d|];
      } else if j + |d| <= |b| {
        var k := if j <= |s| then |s| - j else 0;
        assert b[j..j + |d|][k] == b[j + k] && LineEnd(b[j + k]) && !LineEnd(d[k]);
      }
    }
  }

  lemma NextDelimiter(body: string, head: string, at: nat, c: string, d: string, tail: string)
    requires OneLine(d) && d != [] && Lacks(c, d) && body == head + (c + CRLF + (d + tail)) && at == |head|
    ensures IndexOf(body, d, at) == at + |c| + 2 && Between(body, at, at + |c| + 2) == c
  {
    var next := at + |c| + 2;
    NotBeforeLineEnd(c, d + tail, d);
    forall j | at <= j < next ensures !At(body, d, j) { AtShift(head, c + CRLF + (d + tail), d, j); }
    assert body[next..next + |d|] == d;
    IndexOfIs(body, d, at, next);
  }

  /** The scan takes a chunk between two delimiters whole, after any two characters but two dashes. */
  lemma ScanSkipsTwo(body: string, front: string, d: string, two: string, c: string, tail: string, start: nat)
    requires OneLine(d) && d != [] && Lacks(c, d) && start <= |front| && |two| == 2 && two != "--"
    requires body == front + (d + two) + (c + CRLF + (d + tail))
    requires forall j | start <= j < |front| :: !At(body, d, j)
    ensures Scan(body, d, start) == Next(c, |front| + |d| + |c| + 4)
  {
    var at, next := |front| + |d| + 2, |front| + |d| + |c| + 4;
    FirstDelimiter(body, front, d, two, c + CRLF + (d + tail), start);
    NextDelimiter(body, front + (d + two), at, c, d, tail);
    ScanIs(body, d, start, |front|, next);
  }

  lemma FirstDelimiter(body: string, front: string, d: string, two: string, rest: string, start: nat)
    requires body == front + (d + two) + rest && |two| == 2 && two != "--" && d != [] && start <= |front|
    requires forall j | start <= j < |front| :: !At(body, d, j)
    ensures IndexOf(body, d, start) == |front| && !IsClosing(body, |front| + |d|)
  {
    assert body[|front|..|front| + |d|] == d;
    assert body[|front| + |d|..|front| + |d| + 2] == two;
    IndexOfIs(body, d, start, |front|);
    NotClosing(body, |front| + |d|, two);
  }

  lemma NotClosing(body: string, at: nat, two: string)
    requires at + 2 <= |body| && body[at..at + 2] == two && two != "--"
    ensures !IsClosing(body, at)
  {
    assert body[at] == two[0] && body[at + 1] == two[1];
    assert two == [two[0], two[1]] && "--" == ['-', '-'];
  }

  lemma ScanChunk(body: string, front: string, d: string, c: string, tail: string, start: nat)
    requires OneLine(d) && d != [] && Lacks(c, d) && start <= |front|
    requires body == front + (d + CRLF) + (c + CRLF + (d + tail))
    requires forall j | start <= j < |front| :: !At(body, d, j)
    ensures Scan(body, d, start) == Next(c, |front| + |d| + |c| + 4)
  {
    assert CRLF != "--" by { assert CRLF[0] != '-'; }
    ScanSkipsTwo(body, front, d, CRLF, c, tail, start);
  }

  /** From a delimiter on, the scan reads every chunk, and nothing of the epilogue. */
  lemma {:induction false} ScanReadsAll(body: string, front: string, d: string, chunks: seq<string>, epilogue: string, start: nat)
    requires OneLine(d) && d != [] && forall i | 0 <= i < |chunks| :: Lacks(chunks[i], d)
    requires body == front + d + Rest(d, chunks, epilogue)
    requires start <= |front| && forall j | start <= j < |front| :: !At(body, d, j)
    ensures Chunks(body, d, start) == chunks
    decreases |chunks|
  {
    if chunks == [] {
      ClosingEnds(body, front, d, epilogue, start);
    } else {
      var c, tail := chunks[0], Rest(d, chunks[1..], epilogue);
      OneChunk(body, front, d, c, tail);
      ScanChunk(body, front, d, c, tail, start);
      var next := |front| + |d| + |c| + 4;
      ChunksTake(body, d, start, c, next);
      ScanReadsAll(body, front + (d + CRLF) + (c + CRLF), d, chunks[1..], epilogue, next);
      assert chunks == [c] + chunks[1..];
    }
  }

  lemma ClosingEnds(body: string, front: string, d: string, epilogue: string, start: nat)
    requires d != [] && body == front + d + ("--" + epilogue)
    requires start <= |front| && forall j | start <= j < |front| :: !At(body, d, j)
    ensures Chunks(body, d, start) == []
  {
    assert body[|front|..|front| + |d|] == d;
    IndexOfIs(body, d, start, |front|);
    assert body[|front| + |d|] == '-' && body[|front| + |d| + 1] == '-';
    assert Scan(body, d, start) == Stop;
  }

  lemma OneChunk(body: string, front: string, d: string, c: string, tail: string)
    requires body == front + d + (CRLF + c + CRLF + d + tail)
    ensures body == front + (d + CRLF) + (c + CRLF + (d + tail))
    ensures body == front + (d + CRLF) + (c + CRLF) + d + tail
  {
  }

  /** A body reads back as the chunks written, whatever follows the close delimiter. */
  lemma BodyRoundTrip(d: string, preamble: Option<string>, chunks: seq<string>, epilogue: string)
    requires OneLine(d) && d != [] && forall i | 0 <= i < |chunks| :: Lacks(chunks[i], d)
    requires preamble.Some? ==> Lacks(preamble.value, d)
    ensures Chunks(WriteBody(d, preamble, chunks, epilogue), d, 0) == chunks
  {
    var rest := Rest(d, chunks, epilogue);
    match preamble
    case Some(p) =>
      NotBeforeLineEnd(p, d + rest, d);
      assert p + CRLF + d + rest == p + CRLF + (d + rest);
      ScanReadsAll(p + CRLF + d + rest, p + CRLF, d, chunks, epilogue, 0);
    case None =>
      ScanReadsAll("" + d + rest, "", d, chunks, epilogue, 0);
  }

  // ---- Form data ----

  function WriteChunk(headers: string, data: string): string { headers + BLANK_LINE + data }

  /** No blank line in the headers, nor a line end after them that would make one. */
  ghost predicate HeaderBlock(h: string) {
    forall i | 0 <= i < |h| && h[i] == '\n' :: i + 1 < |h| && h[i + 1] != '\r'
  }

  /** The first blank line of a chunk ends its headers. */
  lemma FirstBlankLine(h: string, data: string)
    requires HeaderBlock(h)
    ensures IndexOf(WriteChunk(h, data), BLANK_LINE, 0) == |h|
  {
    var s := WriteChunk(h, data);
    assert s[|h|..|h| + 4] == BLANK_LINE;
    forall j | 0 <= j < |h| ensures !At(s, BLANK_LINE, j) {
      if j + 4 <= |s| {
        var m := s[j..j + 4];
        assert m[1] == s[j + 1] && m[2] == s[j + 2] && BLANK_LINE[1] == '\n' && BLANK_LINE[2] == '\r';
      }
    }
    IndexOfIs(s, BLANK_LINE, 0, |h|);
  }

  /** A chunk reads back as its headers read, with the data byte for byte. */
  lemma ChunkReads(h: string, data: string)
    requires HeaderBlock(h)
    ensures ReadPart(WriteChunk(h, data))
         == match ReadFields(h) case Some(fields) => Some(Part(fields, data)) case None => None
  {
    FirstBlankLine(h, data);
    var s := WriteChunk(h, data);
    assert s[..|h|] == h && s[|h| + 4..] == data;
  }

  /** Headers and data without the delimiter make a chunk without it. */
  lemma ChunkLacks(h: string, data: string, d: string)
    requires OneLine(d) && d != [] && Lacks(h, d) && Lacks(data, d)
    ensures Lacks(WriteChunk(h, data), d)
  {
    var s := WriteChunk(h, data);
    assert s == h + CRLF + (CRLF + data) == (h + CRLF) + ("" + CRLF + data);
    NotBeforeLineEnd(h, CRLF + data, d);
    NotBeforeLineEnd("", data, d);
    forall j ensures !At(s, d, j) {
      if j >= |h| + 4 {
        assert s == (h + BLANK_LINE) + data;
        AtShift(h + BLANK_LINE, data, d, j);
        assert !At(data, d, j - |h| - 4);
      } else if j >= |h| + 2 {
        AtShift(h + CRLF, "" + CRLF + data, d, j);
      }
    }
  }

  lemma HeaderBlockAfter(a: string, t: string)
    requires OneLine(a) && HeaderBlock(t)
    ensures HeaderBlock(a + t)
  {
    var s := a + t;
    forall i | 0 <= i < |s| && s[i] == '\n' ensures i + 1 < |s| && s[i + 1] != '\r' {
      assert i >= |a| ==> s[i] == t[i - |a|];
    }
  }

  /** The only line end in written headers is the one before the content type. */
  lemma WrittenHeaders(f: Fields)
    requires Writable(f)
    ensures HeaderBlock(WriteFields(f))
  {
    var head, c := DISPOSITION + "\"", ContentTypeText(f.contentType);
    assert HeaderBlock(c);
    HeaderBlockAfter(FilenameText(f.filename), c);
    HeaderBlockAfter(f.name + "\"", Tail(f));
    HeaderBlockAfter(head, f.name + "\"" + Tail(f));
    assert WriteFields(f) == head + (f.name + "\"" + Tail(f));
  }

  function WritePart(p: Part): string { WriteChunk(WriteFields(p.fields), p.data) }

  function WriteParts(parts: seq<Part>): seq<string> {
    seq(|parts|, i requires 0 <= i < |parts| => WritePart(parts[i]))
  }

  lemma PartReadsBack(p: Part)
    requires Writable(p.fields)
    ensures ReadPart(WritePart(p)) == Some(p) <==> Readable(p.fields)
  {
    WrittenHeaders(p.fields);
    ChunkReads(WriteFields(p.fields), p.data);
    FieldsRoundTrip(p.fields);
  }

  lemma {:induction false} PartsReadBack(parts: seq<Part>)
    requires forall i | 0 <= i < |parts| :: Writable(parts[i].fields)
    ensures ReadAll(WriteParts(parts)) == parts <==> forall i | 0 <= i < |parts| :: Readable(parts[i].fields)
    ensures |ReadAll(WriteParts(parts))| <= |parts|
    decreases |parts|
  {
    if parts != [] {
      var init, last := parts[..|parts| - 1], parts[|parts| - 1];
      assert parts == init + [last];
      PartsReadBack(init);
      PartReadsBack(last);
      WritePartsSnoc(init, last);
      LastOfList(ReadAll(WriteParts(init)), init, ReadPart(WritePart(last)), last);
      assert (forall i | 0 <= i < |parts| :: Readable(parts[i].fields))
          <==> (forall i | 0 <= i < |init| :: Readable(init[i].fields)) && Readable(last.fields);
    }
  }

  lemma WritePartsSnoc(init: seq<Part>, last: Part)
    ensures ReadAll(WriteParts(init + [last])) == Extended(ReadAll(WriteParts(init)), ReadPart(WritePart(last)))
  {
    assert WriteParts(init + [last]) == WriteParts(init) + [WritePart(last)];
    ReadAllSnoc(WriteParts(init), WritePart(last));
  }

  function Extended(parts: seq<Part>, p: Option<Part>): seq<Part> {
    match p case Some(part) => parts + [part] case None => parts
  }

  lemma LastOfList(read: seq<Part>, init: seq<Part>, p: Option<Part>, last: Part)
    requires |read| <= |init|
    ensures Extended(read, p) == init + [last] <==> read == init && p == Some(last)
    ensures |Extended(read, p)| <= |init| + 1
  {
    if p.Some? && read + [p.value] == init + [last] {
      assert read == (read + [p.value])[..|read|] && init == (init + [last])[..|init|];
      assert (read + [p.value])[|read|] == p.value;
    }
  }

  /** A form-data body reads back exactly as the parts it was written from, if and only if each part
      is readable: it has a name, neither of its quoted values mentions a content type, and its name
      does not pass for the key of the filename. */
  lemma FormDataRoundTrip(boundary: string, preamble: Option<string>, parts: seq<Part>, epilogue: string)
    requires OneLine(boundary) && (preamble.Some? ==> Lacks(preamble.value, Delimiter(boundary)))
    requires forall i | 0 <= i < |parts| :: Writable(parts[i].fields)
    requires forall i | 0 <= i < |parts| :: Lacks(WriteFields(parts[i].fields), Delimiter(boundary))
    requires forall i | 0 <= i < |parts| :: Lacks(parts[i].data, Delimiter(boundary))
    ensures var body := WriteBody(Delimiter(boundary), preamble, WriteParts(parts), epilogue);
      ReadAll(Chunks(body, Delimiter(boundary), 0)) == parts
      <==> forall i | 0 <= i < |parts| :: Readable(parts[i].fields)
  {
    var d, chunks := Delimiter(boundary), WriteParts(parts);
    forall i | 0 <= i < |chunks| ensures Lacks(chunks[i], d) {
      ChunkLacks(WriteFields(parts[i].fields), parts[i].data, d);
    }
    BodyRoundTrip(d, preamble, chunks, epilogue);
    PartsReadBack(parts);
  }

  // ---- Bodies no sender writes ----

  /** A chunk without a blank line is no part. */
  lemma HeadersOnlyAreSkipped(chunk: string)
    requires Lacks(chunk, BLANK_LINE)
    ensures ReadPart(chunk) == None
  {
    IndexOfNone(chunk, BLANK_LINE, 0);
  }

  /** What follows the last delimiter is dropped, when that is no closing one and nothing closes it. */
  lemma UnclosedIsDropped(front: string, d: string, tail: string, start: nat)
    requires OneLine(d) && d != [] && Lacks(tail, d) && start <= |front|
    requires forall j | start <= j < |front| :: !At(front + d + CRLF + tail, d, j)
    ensures Chunks(front + d + CRLF + tail, d, start) == []
  {
    var body, head := front + d + CRLF + tail, front + d + CRLF;
    assert body[|front|..|front| + |d|] == d;
    IndexOfIs(body, d, start, |front|);
    assert body[|front| + |d|] == '\r';
    assert body == head + tail;
    forall j: nat | |head| <= j ensures !At(body, d, j) {
      AtShift(head, tail, d, j);
      assert !At(tail, d, j - |head|);
    }
    IndexOfNone(body, d, |head|);
    assert Scan(body, d, start) == Stop;
  }

  /** A body without a delimiter has no parts. */
  lemma NoDelimiterNoParts(body: string, d: string)
    requires d != [] && Lacks(body, d)
    ensures Chunks(body, d, 0) == []
  {
    IndexOfNone(body, d, 0);
  }
}
