/** What a block of lines reads as, field by field, and what a text is cut into. */
module SseReading {
  import opened Options
  import opened Text
  import opened SseFrames
  import opened SseParser

  // ---- One line ----

  /** A line without a colon is a field name with an empty value; otherwise the name ends at the first
      colon, and one space after that is dropped. */
  lemma FieldExactly(name: string, value: string)
    requires ':' !in name
    ensures FieldOf(name) == (name, "")
    ensures FieldOf(name + ":" + value) == (name, if " " <= value then value[1..] else value)
  {
    forall j: nat ensures !At(name, ":", j) {
      AtChar(name, ':', j);
    }
    IndexOfNone(name, ":", 0);
    var line := name + ":" + value;
    forall j: nat | j < |name| ensures !At(line, ":", j) {
      AtChar(line, ':', j);
      assert line[j] == name[j] && name[j] in name;
    }
    AtChar(line, ':', |name|);
    IndexOfIs(line, ":", 0, |name|);
    assert line[..|name|] == name && line[|name| + 1..] == value;
  }

  // ---- All lines ----

  /** The values of the lines with a field of this name; empty lines and comments have none. */
  function ValuesOf(lines: seq<string>, name: string): seq<string> {
    if lines == [] then []
    else
      var l, rest := lines[0], ValuesOf(lines[1..], name);
      if l != "" && l[0] != ':' && FieldOf(l).0 == name then [FieldOf(l).1] + rest else rest
  }

  function LastOr(values: seq<string>, default: string): string {
    if values == [] then default else values[|values| - 1]
  }

  /** The last of the values that are numbers. */
  function LastNumber(values: seq<string>, before: Option<int>, other: OtherNumbers): Option<int> {
    if values == [] then before
    else LastNumber(values[1..], if Number(values[0], other).Some? then Number(values[0], other) else before, other)
  }

  lemma {:induction false} LinesReadAs(f: Fields, lines: seq<string>, other: OtherNumbers)
    ensures var r := ReadLines(f, lines, other);
      && r.dataLines == f.dataLines + ValuesOf(lines, "data")
      && r.event == LastOr(ValuesOf(lines, "event"), f.event)
      && r.id == LastNumber(ValuesOf(lines, "id"), f.id, other)
    decreases |lines|
  {
    if lines == [] {
      assert f.dataLines + [] == f.dataLines;
    } else {
      var g := ReadLine(f, lines[0], other);
      LinesReadAs(g, lines[1..], other);
      Regroup(f.dataLines, if g.dataLines == f.dataLines then [] else [FieldOf(lines[0]).1], ValuesOf(lines[1..], "data"));
      assert f.dataLines + [] == f.dataLines;
      LineReadsAs(f, lines[0], other);
    }
  }

  lemma LineReadsAs(f: Fields, l: string, other: OtherNumbers)
    ensures var g := ReadLine(f, l, other);
      if l == "" || l[0] == ':' then g == f
      else
        var (name, value) := FieldOf(l);
        && g.dataLines == (if name == "data" then f.dataLines + [value] else f.dataLines)
        && g.event == (if name == "event" then value else f.event)
        && g.id == (if name == "id" && Number(value, other).Some? then Number(value, other) else f.id)
  {
  }

  /** A block is a frame exactly when it has a data line; its data are the values of those, a line each;
      its event is the last one named, or `message`; its id is the last that is a number. */
  lemma BlockReadsAs(raw: string, other: OtherNumbers)
    ensures var lines := SplitLines(raw);
      ParsedFrame(raw, other) ==
        if ValuesOf(lines, "data") == [] then None
        else Some(Frame(LastNumber(ValuesOf(lines, "id"), None, other),
                        LastOr(ValuesOf(lines, "event"), "message"),
                        Join(ValuesOf(lines, "data"))))
  {
    LinesReadAs(NO_FIELDS, SplitLines(raw), other);
    assert [] + ValuesOf(SplitLines(raw), "data") == ValuesOf(SplitLines(raw), "data");
  }

  // ---- The cut ----

  function Ended(blocks: seq<string>): string {
    if blocks == [] then "" else blocks[0] + "\n\n" + Ended(blocks[1..])
  }

  ghost predicate NoBlankLine(s: string) { forall j :: !At(s, "\n\n", j) }

  /** The blocks, each ended by a blank line, and the rest are the text; a block ends at the first blank
      line there is, and none is left in the rest. */
  lemma CutExactly(text: string)
    ensures Ended(Blocks(text)) + Rest(text) == text
    ensures forall i | 0 <= i < |Blocks(text)| :: NoBlankLine(Blocks(text)[i] + "\n")
    ensures NoBlankLine(Rest(text))
  {
    BlocksRejoin(text);
    BlocksAreFirst(text);
  }

  lemma {:induction false} BlocksRejoin(text: string)
    ensures Ended(Blocks(text)) + Rest(text) == text
    decreases |text|
  {
    var i := IndexOf(text, "\n\n", 0);
    if i == -1 {
      assert "" + text == text;
    } else {
      IndexOfFirst(text, "\n\n", 0);
      BlocksRejoin(text[i + 2..]);
      EndedCons(text[..i], Blocks(text[i + 2..]));
      CutOnce(text, i, Ended(Blocks(text[i + 2..])), Rest(text[i + 2..]));
    }
  }

  lemma EndedCons(block: string, blocks: seq<string>)
    ensures Ended([block] + blocks) == block + "\n\n" + Ended(blocks)
  {
    assert ([block] + blocks)[1..] == blocks;
  }

  lemma CutOnce(text: string, i: nat, a: string, b: string)
    requires At(text, "\n\n", i) && a + b == text[i + 2..]
    ensures text[..i] + "\n\n" + a + b == text
  {
    assert text == text[..i] + text[i..i + 2] + text[i + 2..];
    assert text[..i] + "\n\n" + a + b == text[..i] + "\n\n" + (a + b);
  }

  lemma {:induction false} BlocksAreFirst(text: string)
    ensures forall i | 0 <= i < |Blocks(text)| :: NoBlankLine(Blocks(text)[i] + "\n")
    ensures NoBlankLine(Rest(text))
    decreases |text|
  {
    var i := IndexOf(text, "\n\n", 0);
    IndexOfFirst(text, "\n\n", 0);
    if i == -1 {
      NoneAtAll(text);
    } else {
      BlocksAreFirst(text[i + 2..]);
      NoneBefore(text, i);
    }
  }

  lemma NoneAtAll(text: string)
    requires forall j :: 0 <= j ==> !At(text, "\n\n", j)
    ensures NoBlankLine(text)
  {
  }

  lemma NoneBefore(text: string, i: nat)
    requires At(text, "\n\n", i) && forall j | 0 <= j < i :: !At(text, "\n\n", j)
    ensures NoBlankLine(text[..i] + "\n")
  {
    var s := text[..i] + "\n";
    assert text[i..i + 2][0] == text[i];
    forall j ensures !At(s, "\n\n", j) {
      if 0 <= j && j + 2 <= |s| { assert s[j..j + 2] == text[j..j + 2] && !At(text, "\n\n", j); }
    }
  }
}
