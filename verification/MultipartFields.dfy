/** The header block of a form-data part: what a sender writes, and what the parsers find in it by
    taking the first match of a pattern. A character stands for a byte. */
module MultipartFields {
  import opened Options
  import opened Text

  datatype Fields = Fields(name: string, filename: Option<string>, contentType: Option<string>)

  // ---- Reading ----

  /** From `from` up to the next quote, if there is one. */
  function UntilQuote(s: string, from: nat): Option<string> {
    var end := IndexOf(s, "\"", from);
    if end == -1 then None else Some(s[from..end])
  }

  /** The first match of `key="([^"]*)"`. */
  function Quoted(h: string, key: string): Option<string> {
    var pat := key + "=\"";
    var i := IndexOf(h, pat, 0);
    if i == -1 then None else UntilQuote(h, i + |pat|)
  }

  function LowerChar(c: char): char { if 'A' <= c <= 'Z' then c + 32 as char else c }

  function Lower(s: string): string { seq(|s|, i requires 0 <= i < |s| => LowerChar(s[i])) }

  function TrimStart(s: string): string {
    if s != [] && IsSpace(s[0]) then TrimStart(s[1..]) else s
  }

  function TrimEnd(s: string): string {
    if s != [] && IsSpace(s[|s| - 1]) then TrimEnd(s[..|s| - 1]) else s
  }

  function Trim(s: string): string { TrimEnd(TrimStart(s)) }

  predicate LineEnd(c: char) { c == '\r' || c == '\n' }

  /** Up to the first line end. */
  function Line(s: string): string {
    if s == [] || LineEnd(s[0]) then [] else [s[0]] + Line(s[1..])
  }

  const CONTENT_TYPE := "content-type:"

  /** `\s*([^\r\n]+)`, trimmed. When only white space follows, the match gives some of it back, if
      it is not all line ends. */
  function Value(s: string): Option<string> {
    var value := TrimStart(s);
    if value != [] then Some(Trim(Line(value)))
    else if exists k | 0 <= k < |s| :: !LineEnd(s[k]) then Some("")
    else None
  }

  /** The first `content-type:` in any case. */
  function Mention(h: string): (i: int)
    ensures i == -1 || 0 <= i <= |h| - |CONTENT_TYPE|
  {
    IndexOf(Lower(h), CONTENT_TYPE, 0)
  }

  function AfterMention(h: string): Option<string> {
    if Mention(h) == -1 then None else Some(h[Mention(h) + |CONTENT_TYPE|..])
  }

  /** The first match of `content-type:\s*([^\r\n]+)` in any case, trimmed. */
  function ContentType(h: string): Option<string> {
    match AfterMention(h) case None => None case Some(rest) => Value(rest)
  }

  /** An absent or empty name makes a part no part. */
  function ReadFields(h: string): Option<Fields> {
    match Quoted(h, "name")
    case None => None
    case Some(name) => if name == "" then None else Some(Fields(name, Quoted(h, "filename"), ContentType(h)))
  }

  // ---- Writing: sections 4.2, 4.3 and 4.4 of RFC 7578 ----

  const DISPOSITION := "Content-Disposition" + ":" + " form-data; name="
  const FILENAME := "; filename="

  function FilenameText(filename: Option<string>): string {
    match filename case Some(f) => FILENAME + "\"" + f + "\"" case None => ""
  }

  function ContentTypeText(contentType: Option<string>): string {
    match contentType case Some(c) => "\r\nContent-Type: " + c case None => ""
  }

  function Tail(f: Fields): string { FilenameText(f.filename) + ContentTypeText(f.contentType) }

  function WriteAfter(head: string, f: Fields): string { head + "\"" + (f.name + "\"" + Tail(f)) }

  function WriteFields(f: Fields): string { WriteAfter(DISPOSITION, f) }

  predicate OneLine(s: string) { forall i | 0 <= i < |s| :: !LineEnd(s[i]) }

  predicate NoQuote(s: string) { '"' !in s }

  function Quotes(s: string): nat {
    if s == [] then 0 else Quotes(s[..|s| - 1]) + if s[|s| - 1] == '"' then 1 else 0
  }

  /** What can be written at all: no quotes or line ends inside quotes, and a media type on one
      line, not blank at either end, with every quoted parameter closed and none holding a quote. */
  predicate Writable(f: Fields) {
    && NoQuote(f.name) && OneLine(f.name)
    && (f.filename.Some? ==> NoQuote(f.filename.value) && OneLine(f.filename.value))
    && (f.contentType.Some? ==>
          var c := f.contentType.value;
          c != "" && !IsSpace(c[0]) && !IsSpace(c[|c| - 1]) && OneLine(c) && Quotes(c) % 2 == 0)
  }

  predicate Mentions(s: string) { Mention(s) != -1 }

  predicate EndsWith(s: string, t: string) { |t| <= |s| && s[|s| - |t|..] == t }

  /** What reads back as written: the first match of each pattern is the field itself. */
  predicate Readable(f: Fields) {
    && f.name != ""
    && !Mentions(f.name)
    && (f.filename.Some? ==>
          && !Mentions(f.filename.value)
          && (EndsWith(f.name, "filename=") ==> f.filename.value == FILENAME))
    && (f.filename.None? && f.contentType.Some? ==>
          if EndsWith(f.name, "filename=") then NoQuote(f.contentType.value)
          else Quoted(f.contentType.value, "filename") == None)
  }

  // ---- The patterns at work ----

  /** A match of `key="` lies on a quote, and no quote comes before that in the match. */
  lemma MatchOnQuote(a: string, t: string, key: string, j: nat)
    requires NoQuote(a) && NoQuote(key) && At(a + "\"" + t, key + "=\"", j) && j <= |a|
    ensures EndsWith(a, key + "=") && j == |a| - |key| - 1
  {
    var s, n := a + "\"" + t, |key|;
    var m := s[j..j + n + 2];
    assert m == key + "=\"";
    assert m[n + 1] == s[j + n + 1] == '"' && s[|a|] == '"';
    assert forall i | 0 <= i < |a| :: s[i] != '"' by {
      forall i | 0 <= i < |a| ensures s[i] != '"' { assert s[i] == a[i] && a[i] in a; }
    }
    assert forall i | j <= i <= j + n :: s[i] != '"' by {
      forall i | j <= i <= j + n ensures s[i] != '"' { assert s[i] == m[i - j] == (key + "=")[i - j]; }
    }
    if j + n + 1 == |a| { assert a[j..] == m[..n + 1] == key + "="; }
  }

  lemma UntilQuoteShift(b: string, t: string, k: nat)
    requires k <= |t|
    ensures UntilQuote(b + t, |b| + k) == UntilQuote(t, k)
  {
    IndexOfShift(b, t, "\"", |b| + k, k);
    var e := IndexOf(t, "\"", k);
    assert e != -1 ==> (b + t)[|b| + k..|b| + e] == t[k..e];
  }

  /** A quoted pattern matches at the first quote of a text, if its key stands right before it, and
      otherwise only after it. */
  lemma QuotedAt(a: string, t: string, key: string)
    requires NoQuote(a) && NoQuote(key)
    ensures Quoted(a + "\"" + t, key) == if EndsWith(a, key + "=") then UntilQuote(t, 0) else Quoted(t, key)
  {
    forall j: nat | j <= |a| && At(a + "\"" + t, key + "=\"", j) ensures EndsWith(a, key + "=") && j == |a| - |key| - 1 {
      MatchOnQuote(a, t, key, j);
    }
    if EndsWith(a, key + "=") { QuotedHere(a, t, key); } else { QuotedLater(a + "\"", t, key); }
  }

  lemma QuotedHere(a: string, t: string, key: string)
    requires EndsWith(a, key + "=")
    requires forall j: nat | j < |a| - |key| - 1 :: !At(a + "\"" + t, key + "=\"", j)
    ensures Quoted(a + "\"" + t, key) == UntilQuote(t, 0)
  {
    var s, pat, i := a + "\"" + t, key + "=\"", |a| - |key| - 1;
    assert s[i..i + |pat|] == pat by { assert s[i..|a|] == key + "="; }
    IndexOfIs(s, pat, 0, i);
    UntilQuoteShift(a + "\"", t, 0);
  }

  lemma QuotedLater(b: string, t: string, key: string)
    requires forall j: nat | j < |b| :: !At(b + t, key + "=\"", j)
    ensures Quoted(b + t, key) == Quoted(t, key)
  {
    var pat := key + "=\"";
    IndexOfShift(b, t, pat, 0, 0);
    var i := IndexOf(t, pat, 0);
    if i != -1 { UntilQuoteShift(b, t, i + |pat|); }
  }

  lemma QuotedNowhere(s: string, key: string)
    requires NoQuote(s)
    ensures Quoted(s, key) == None && UntilQuote(s, 0) == None
  {
    var pat := key + "=\"";
    forall j: nat ensures !At(s, pat, j) && !At(s, "\"", j) {
      assert j + |pat| <= |s| ==> s[j..j + |pat|][|pat| - 1] == s[j + |pat| - 1];
      AtChar(s, '"', j);
    }
    IndexOfNone(s, pat, 0);
    IndexOfNone(s, "\"", 0);
  }

  lemma UntilQuoteAt(v: string, t: string)
    requires NoQuote(v)
    ensures UntilQuote(v + "\"" + t, 0) == Some(v)
  {
    var s := v + "\"" + t;
    forall j: nat | j <= |v| ensures At(s, "\"", j) <==> j == |v| {
      AtChar(s, '"', j);
      if j < |v| { assert s[j] in v; }
    }
    IndexOfIs(s, "\"", 0, |v|);
    assert s[..|v|] == v;
  }

  // ---- The fields a sender writes ----

  lemma DispositionFacts()
    ensures NameHead(DISPOSITION)
  {
    var a, b := "Content-Disposition", " form-data; name=";
    OneColon(a, b);
    HeadEnds(a + ":", b);
    assert NoQuote(a) && NoQuote(b);
  }

  lemma HeadEnds(a: string, b: string)
    requires b == " form-data; name="
    ensures EndsWith(a + b, "name=") && !EndsWith(a + b, "filename=")
  {
    var d := a + b;
    assert b[12..] == "name=" && d[|d| - 5..] == b[12..];
    if |d| >= 9 {
      assert d[|d| - 9..][3] == b[11] == ' ';
      assert "filename="[3] == 'e';
    }
  }

  /** With a single colon, the pattern could only end there. */
  lemma OneColon(a: string, b: string)
    requires ':' !in a && ':' !in b && |a| == 19 && a[7] == '-'
    ensures !Mentions(a + ":" + b)
  {
    var d := a + ":" + b;
    var l := Lower(d);
    forall k | 0 <= k < |d| ensures d[k] == ':' ==> k == 19 {
      assert d[k] == if k < 19 then a[k] else if k == 19 then ':' else b[k - 20];
    }
    forall j: nat ensures !At(l, CONTENT_TYPE, j) {
      if j + 13 <= |l| {
        assert CONTENT_TYPE[12] == ':' && CONTENT_TYPE[0] == 'c';
        assert l[j..j + 13][12] == l[j + 12] && l[j..j + 13][0] == l[j];
        assert l[j + 12] == ':' ==> d[j + 12] == ':';
        assert j == 7 ==> l[j] == '-';
      }
    }
    IndexOfNone(l, CONTENT_TYPE, 0);
  }

  lemma FilenameKeyFacts()
    ensures NoQuote(FILENAME) && EndsWith(FILENAME, "filename=") && !Mentions(FILENAME)
  {
    assert FILENAME[2..] == "filename=";
    IndexOfNone(Lower(FILENAME), CONTENT_TYPE, 0);
  }

  /** What matters about the text before the name. */
  ghost predicate NameHead(a: string) {
    NoQuote(a) && EndsWith(a, "name=") && !EndsWith(a, "filename=") && !Mentions(a)
  }

  lemma NameReads(a: string, f: Fields)
    requires NameHead(a) && Writable(f)
    ensures Quoted(WriteAfter(a, f), "name") == Some(f.name)
  {
    TwoQuotes(a, f.name, Tail(f), "name");
  }

  lemma {:induction false} FirstQuote(s: string) returns (a: string, t: string)
    requires !NoQuote(s)
    ensures NoQuote(a) && s == a + "\"" + t
    decreases |s|
  {
    if s[0] == '"' {
      a, t := "", s[1..];
    } else {
      a, t := FirstQuote(s[1..]);
      a := [s[0]] + a;
    }
  }

  /** The text before a media type neither takes part in a quoted pattern nor ends its key. */
  lemma BeforeType(p: string, c: string, key: string)
    requires NoQuote(p) && NoQuote(key) && p != "" && p[|p| - 1] == ' ' && ' ' !in key + "="
    ensures Quoted(p + c, key) == Quoted(c, key)
    ensures UntilQuote(p + c, 0) == None <==> NoQuote(c)
  {
    if NoQuote(c) {
      QuotedNowhere(c, key);
      QuotedNowhere(p + c, key);
    } else {
      var a, t := FirstQuote(c);
      assert p + c == (p + a) + "\"" + t;
      KeyAfterSpace(p, a, key + "=");
      QuotedAt(a, t, key);
      QuotedAt(p + a, t, key);
      UntilQuoteAt(p + a, t);
    }
  }

  lemma KeyAfterSpace(p: string, a: string, k: string)
    requires p != "" && p[|p| - 1] == ' ' && ' ' !in k && k != ""
    ensures EndsWith(p + a, k) <==> EndsWith(a, k)
  {
    var s := p + a;
    if |k| <= |a| {
      assert s[|s| - |k|..] == a[|a| - |k|..];
    } else if |k| <= |s| {
      assert s[|s| - |k|..][|k| - |a| - 1] == ' ';
    }
  }

  lemma TypeQuotes(contentType: Option<string>)
    ensures var t := ContentTypeText(contentType);
      && Quoted(t, "filename") == (match contentType case Some(c) => Quoted(c, "filename") case None => None)
      && (UntilQuote(t, 0) == None <==> (contentType.Some? ==> NoQuote(contentType.value)))
  {
    match contentType
    case Some(c) => BeforeType("\r\nContent-Type: ", c, "filename");
    case None => QuotedNowhere("", "filename");
  }

  lemma TailReads(f: Fields)
    requires Writable(f)
    ensures f.filename.Some? ==> Quoted(Tail(f), "filename") == f.filename && UntilQuote(Tail(f), 0) == Some(FILENAME)
    ensures f.filename.None? ==> Tail(f) == ContentTypeText(f.contentType)
  {
    var c := ContentTypeText(f.contentType);
    match f.filename
    case Some(v) =>
      assert Tail(f) == FILENAME + "\"" + (v + "\"" + c);
      FilenameKeyFacts();
      TwoQuotes(FILENAME, v, c, "filename");
    case None =>
      assert Tail(f) == c;
  }

  lemma TwoQuotes(b: string, v: string, c: string, key: string)
    requires NoQuote(b) && NoQuote(v) && NoQuote(key)
    ensures var t := b + "\"" + (v + "\"" + c);
      && UntilQuote(t, 0) == Some(b)
      && Quoted(t, key) == if EndsWith(b, key + "=") then Some(v) else Quoted(v + "\"" + c, key)
  {
    QuotedAt(b, v + "\"" + c, key);
    UntilQuoteAt(v, c);
    UntilQuoteAt(b, v + "\"" + c);
  }

  lemma SecondQuote(a: string, n: string, tail: string, key: string)
    requires NoQuote(a) && NoQuote(n) && NoQuote(key) && !EndsWith(a, key + "=")
    ensures Quoted(a + "\"" + (n + "\"" + tail), key)
         == if EndsWith(n, key + "=") then UntilQuote(tail, 0) else Quoted(tail, key)
  {
    QuotedAt(a, n + "\"" + tail, key);
    QuotedAt(n, tail, key);
  }

  /** A name that ends in `filename=` stands right before a quote, and is taken for the key; and
      without a filename, a parameter of the media type may be taken for one. */
  lemma FilenameReads(a: string, f: Fields)
    requires NameHead(a) && Writable(f)
    ensures Quoted(WriteAfter(a, f), "filename") == f.filename <==>
      match f.filename
      case Some(v) => EndsWith(f.name, "filename=") ==> v == FILENAME
      case None => f.contentType.Some? ==>
        if EndsWith(f.name, "filename=") then NoQuote(f.contentType.value)
        else Quoted(f.contentType.value, "filename") == None
  {
    SecondQuote(a, f.name, Tail(f), "filename");
    TailReads(f);
    TypeQuotes(f.contentType);
  }

  // ---- The content type ----

  lemma MentionSkips(a: string, t: string)
    requires !Mentions(a)
    ensures Mention(a + "\"" + t) == if Mention(t) == -1 then -1 else |a| + 1 + Mention(t)
  {
    var b := a + "\"";
    assert Lower(b) == Lower(a) + "\"";
    NoneBefore(Lower(a), Lower(t));
    MentionShift(b, t);
  }

  /** A text up to a quote that does not mention a content type has no part in the match. */
  lemma ContentTypeSkips(a: string, t: string)
    requires !Mentions(a)
    ensures AfterMention(a + "\"" + t) == AfterMention(t)
    ensures ContentType(a + "\"" + t) == ContentType(t)
  {
    var b := a + "\"";
    MentionSkips(a, t);
    SameAfter(b, t, b + t);
  }

  lemma SameAfter(b: string, t: string, h: string)
    requires h == b + t && Mention(h) == if Mention(t) == -1 then -1 else |b| + Mention(t)
    ensures AfterMention(h) == AfterMention(t)
  {
    if Mention(t) != -1 { SuffixShift(b, t, Mention(t) + |CONTENT_TYPE|); }
  }

  lemma SuffixShift(b: string, t: string, k: nat)
    requires k <= |t|
    ensures (b + t)[|b| + k..] == t[k..]
  {
  }

  lemma MentionShift(b: string, t: string)
    requires forall j: nat | j < |b| :: !At(Lower(b) + Lower(t), CONTENT_TYPE, j)
    ensures Mention(b + t) == if Mention(t) == -1 then -1 else |b| + Mention(t)
  {
    assert Lower(b + t) == Lower(b) + Lower(t);
    IndexOfShift(Lower(b), Lower(t), CONTENT_TYPE, 0, 0);
  }

  lemma NoneBefore(a: string, t: string)
    requires IndexOf(a, CONTENT_TYPE, 0) == -1
    ensures forall j: nat | j <= |a| :: !At(a + "\"" + t, CONTENT_TYPE, j)
  {
    IndexOfFirst(a, CONTENT_TYPE, 0);
    forall j: nat | j <= |a| ensures !At(a + "\"" + t, CONTENT_TYPE, j) {
      if At(a + "\"" + t, CONTENT_TYPE, j) { AcrossQuote(a, t, j); }
    }
  }

  lemma AcrossQuote(a: string, t: string, j: nat)
    requires j <= |a| && At(a + "\"" + t, CONTENT_TYPE, j)
    ensures At(a, CONTENT_TYPE, j)
  {
    var s := a + "\"" + t;
    assert s[|a|] == '"';
    assert s[j..j + 13] == CONTENT_TYPE;
    assert forall k | 0 <= k < 13 :: CONTENT_TYPE[k] != '"';
    assert forall k | j <= k < j + 13 :: s[k] == CONTENT_TYPE[k - j] != '"';
    assert a[j..j + 13] == s[j..j + 13];
  }

  lemma {:induction false} QuotesAppend(a: string, b: string)
    ensures Quotes(a + b) == Quotes(a) + Quotes(b)
    decreases |b|
  {
    if b == [] {
      assert a + b == a;
    } else {
      QuotesAppend(a, b[..|b| - 1]);
      assert (a + b)[..|a + b| - 1] == a + b[..|b| - 1];
    }
  }

  lemma {:induction false} QuotesIn(s: string)
    ensures Quotes(s) == 0 <==> NoQuote(s)
    ensures |s| == 1 ==> Quotes(s) == if s[0] == '"' then 1 else 0
    decreases |s|
  {
    if s != [] {
      QuotesIn(s[..|s| - 1]);
      assert s == s[..|s| - 1] + [s[|s| - 1]];
    }
  }

  lemma {:induction false} TrimStartQuotes(s: string)
    ensures Quotes(TrimStart(s)) == Quotes(s)
    decreases |s|
  {
    if s != [] && IsSpace(s[0]) {
      TrimStartQuotes(s[1..]);
      assert s == [s[0]] + s[1..];
      QuotesAppend([s[0]], s[1..]);
      QuotesIn([s[0]]);
    }
  }

  lemma {:induction false} TrimEndQuotes(s: string)
    ensures Quotes(TrimEnd(s)) == Quotes(s)
    decreases |s|
  {
    if s != [] && IsSpace(s[|s| - 1]) { TrimEndQuotes(s[..|s| - 1]); }
  }

  /** Trimming takes no quotes away. */
  lemma TrimQuotes(s: string)
    ensures Quotes(Trim(s)) == Quotes(s)
  {
    TrimStartQuotes(s);
    TrimEndQuotes(TrimStart(s));
  }

  lemma {:induction false} TrimStartBefore(u: string, t: string)
    ensures TrimStart(u + "\"" + t) == TrimStart(u) + "\"" + t
    decreases |u|
  {
    if u == [] {
      assert u + "\"" + t == "\"" + t;
    } else {
      assert (u + "\"" + t)[1..] == u[1..] + "\"" + t;
      if IsSpace(u[0]) { TrimStartBefore(u[1..], t); }
    }
  }

  lemma {:induction false} LineAppend(u: string, t: string)
    requires OneLine(u)
    ensures Line(u + t) == u + Line(t)
    decreases |u|
  {
    if u == [] {
      assert u + t == t;
    } else {
      assert (u + t)[1..] == u[1..] + t;
      LineAppend(u[1..], t);
      assert u == [u[0]] + u[1..];
    }
  }

  lemma FirstLine(s: string, r: string, l: string)
    requires TrimStart(s) == r && r != [] && Line(r) == l
    ensures Value(s) == Some(Trim(l))
  {
  }

  lemma {:induction false} TrimStartPart(u: string)
    requires NoQuote(u) && OneLine(u)
    ensures NoQuote(TrimStart(u)) && OneLine(TrimStart(u) + "\"")
    decreases |u|
  {
    if u != [] && IsSpace(u[0]) { TrimStartPart(u[1..]); }
  }

  lemma ValueIs(u: string, t: string)
    requires NoQuote(u) && OneLine(u)
    ensures Value(u + "\"" + t) == Some(Trim(TrimStart(u) + "\"" + Line(t)))
  {
    var q := TrimStart(u) + "\"";
    TrimStartPart(u);
    TrimStartBefore(u, t);
    LineAppend(q, t);
    FirstLine(u + "\"" + t, q + t, q + Line(t));
  }

  /** What a match yields that starts before a quote: that quote, and those that follow on the line. */
  lemma ValueQuotes(u: string, t: string)
    requires NoQuote(u) && OneLine(u) && Quotes(Line(t)) % 2 == 0
    ensures Unbalanced(Value(u + "\"" + t))
  {
    ValueIs(u, t);
    TrimStartPart(u);
    OneMoreQuote(Value(u + "\"" + t), TrimStart(u), Line(t));
  }

  lemma OneMoreQuote(r: Option<string>, v: string, l: string)
    requires r == Some(Trim(v + "\"" + l)) && NoQuote(v) && Quotes(l) % 2 == 0
    ensures Unbalanced(r)
  {
    QuotesAround(v, l);
  }

  lemma QuotesAround(v: string, l: string)
    requires NoQuote(v)
    ensures Quotes(Trim(v + "\"" + l)) == 1 + Quotes(l)
  {
    TrimQuotes(v + "\"" + l);
    QuotesAppend(v + "\"", l);
    QuotesAppend(v, "\"");
    QuotesIn(v);
    QuotesIn("\"");
  }

  /** The value has a quote without its partner. */
  predicate Unbalanced(r: Option<string>) { r.Some? && Quotes(r.value) % 2 == 1 }

  lemma AfterCaught(a: string, t: string) returns (u: string)
    requires Mentions(a) && NoQuote(a) && OneLine(a)
    ensures AfterMention(a + "\"" + t) == Some(u + "\"" + t) && NoQuote(u) && OneLine(u)
  {
    var h, i := a + "\"" + t, Mention(a);
    assert Lower(h) == Lower(a) + Lower("\"" + t);
    IndexOfAppend(Lower(a), Lower("\"" + t), CONTENT_TYPE);
    u := a[i + |CONTENT_TYPE|..];
    assert h[i + |CONTENT_TYPE|..] == u + "\"" + t;
  }

  /** A mention inside quotes is taken for the header, and what it yields runs over the quote. */
  lemma MentionCaught(a: string, t: string)
    requires Mentions(a) && NoQuote(a) && OneLine(a) && Quotes(Line(t)) % 2 == 0
    ensures Unbalanced(ContentType(a + "\"" + t))
  {
    var u := AfterCaught(a, t);
    ValueQuotes(u, t);
    ContentTypeIs(a + "\"" + t, u + "\"" + t);
  }

  lemma ContentTypeIs(h: string, rest: string)
    requires AfterMention(h) == Some(rest)
    ensures ContentType(h) == Value(rest)
  {
  }

  /** The first line of what follows the name has the quotes of the filename. */
  lemma TailLine(f: Fields)
    requires Writable(f)
    ensures Quotes(Line(Tail(f))) % 2 == 0 && Line(ContentTypeText(f.contentType)) == ""
  {
    var c := ContentTypeText(f.contentType);
    assert c != "" ==> LineEnd(c[0]);
    FilenameLine(f.filename, c);
  }

  lemma FilenameLine(filename: Option<string>, c: string)
    requires filename.Some? ==> NoQuote(filename.value) && OneLine(filename.value)
    requires Line(c) == ""
    ensures Quotes(Line(FilenameText(filename) + c)) % 2 == 0
  {
    var t := FilenameText(filename);
    LineAppend(t, c);
    assert t + "" == t;
    if filename.Some? { FilenameQuotes(filename.value); }
  }

  lemma FilenameQuotes(v: string)
    requires NoQuote(v)
    ensures Quotes(FILENAME + "\"" + v + "\"") == 2
  {
    FilenameKeyFacts();
    QuotesIn(FILENAME);
    QuotesIn(v);
    QuotesIn("\"");
    QuotesAppend(FILENAME, "\"");
    QuotesAppend(FILENAME + "\"", v);
    QuotesAppend(FILENAME + "\"" + v, "\"");
  }

  lemma HeaderMention(v: string)
    ensures IndexOf(Lower("\r\nContent-Type:") + v, CONTENT_TYPE, 0) == 2
  {
    var p := Lower("\r\nContent-Type:");
    assert p[2..] == CONTENT_TYPE && p[0] == '\r' && p[1] == '\n';
    var h := p + v;
    assert h[2..15] == p[2..];
    assert forall j | 0 <= j < 2 :: h[j..j + 13][0] == p[j] != CONTENT_TYPE[0];
    IndexOfIs(h, CONTENT_TYPE, 0, 2);
  }

  lemma Trimmed(c: string)
    requires c != "" && !IsSpace(c[0]) && !IsSpace(c[|c| - 1])
    ensures TrimStart(c) == c && Trim(c) == c
  {
  }

  lemma TrimmedLine(c: string)
    requires c != "" && !IsSpace(c[0]) && !IsSpace(c[|c| - 1]) && OneLine(c)
    ensures Value(" " + c) == Some(c)
  {
    var s := " " + c;
    Trimmed(c);
    assert s[1..] == c && IsSpace(s[0]);
    assert TrimStart(s) == TrimStart(c);
    LineAppend(c, "");
    assert c + "" == c;
  }

  lemma ContentTypeReads(f: Fields)
    requires Writable(f)
    ensures ContentType(ContentTypeText(f.contentType)) == f.contentType
  {
    match f.contentType
    case Some(c) =>
      var p, v := "\r\nContent-Type:", " " + c;
      assert ContentTypeText(f.contentType) == p + v;
      assert Lower(p + v) == Lower(p) + Lower(v);
      HeaderMention(Lower(v));
      assert (p + v)[15..] == v;
      TrimmedLine(c);
    case None =>
  }

  lemma ContentTypeOf(a: string, f: Fields)
    requires NameHead(a) && Writable(f)
    ensures var r := ContentType(WriteAfter(a, f));
      if Mentions(f.name) || (f.filename.Some? && Mentions(f.filename.value)) then Unbalanced(r)
      else r == f.contentType
  {
    TailLine(f);
    ContentTypeQuoted(a, f.name, Tail(f));
    ContentTypeAfterFilename(f.filename, ContentTypeText(f.contentType));
    ContentTypeReads(f);
  }

  lemma ContentTypeQuoted(b: string, v: string, c: string)
    requires !Mentions(b) && NoQuote(v) && OneLine(v) && Quotes(Line(c)) % 2 == 0
    ensures var r := ContentType(b + "\"" + (v + "\"" + c));
      if Mentions(v) then Unbalanced(r) else r == ContentType(c)
  {
    ContentTypeSkips(b, v + "\"" + c);
    if Mentions(v) { MentionCaught(v, c); } else { ContentTypeSkips(v, c); }
  }

  lemma ContentTypeAfterFilename(filename: Option<string>, c: string)
    requires filename.Some? ==> NoQuote(filename.value) && OneLine(filename.value)
    requires Line(c) == ""
    ensures var r := ContentType(FilenameText(filename) + c);
      if filename.Some? && Mentions(filename.value) then Unbalanced(r) else r == ContentType(c)
  {
    if filename.Some? { ContentTypeAfterSome(filename.value, c); } else { assert FilenameText(filename) + c == c; }
  }

  lemma ContentTypeAfterSome(v: string, c: string)
    requires NoQuote(v) && OneLine(v) && Line(c) == ""
    ensures var r := ContentType(FilenameText(Some(v)) + c); if Mentions(v) then Unbalanced(r) else r == ContentType(c)
  {
    FilenameKeyFacts();
    ContentTypeQuoted(FILENAME, v, c);
    assert FilenameText(Some(v)) + c == FILENAME + "\"" + (v + "\"" + c);
  }

  /** A written header block reads back exactly when the first match of each pattern is the field. */
  lemma FieldsRoundTrip(f: Fields)
    requires Writable(f)
    ensures ReadFields(WriteFields(f)) == Some(f) <==> Readable(f)
    ensures ReadFields(WriteFields(f)) == None <==> f.name == ""
  {
    DispositionFacts();
    ReadsBack(DISPOSITION, f);
  }

  lemma ReadsBack(a: string, f: Fields)
    requires NameHead(a) && Writable(f)
    ensures ReadFields(WriteAfter(a, f)) == Some(f) <==> Readable(f)
    ensures ReadFields(WriteAfter(a, f)) == None <==> f.name == ""
  {
    NameReads(a, f);
    FilenameReads(a, f);
    ContentTypeOf(a, f);
  }

  /** A field a sender may write that does not read back: its name is taken for a header. */
  lemma NameTakenForHeader()
    ensures var f := Fields(CONTENT_TYPE, None, None); Writable(f) && ReadFields(WriteFields(f)) != Some(f)
  {
    var f := Fields(CONTENT_TYPE, None, None);
    assert Lower(CONTENT_TYPE) == CONTENT_TYPE;
    IndexOfIs(CONTENT_TYPE, CONTENT_TYPE, 0, 0);
    FieldsRoundTrip(f);
  }

  /** Another: its name is taken for the key of the filename. */
  lemma NameTakenForKey()
    ensures var f := Fields("filename=", Some("a"), None); Writable(f) && ReadFields(WriteFields(f)) != Some(f)
  {
    var f := Fields("filename=", Some("a"), None);
    assert EndsWith(f.name, "filename=") && f.filename.value != FILENAME;
    FieldsRoundTrip(f);
  }
}
