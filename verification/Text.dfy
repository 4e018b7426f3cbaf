/** Searching and splitting sequences as the JavaScript built-ins do. */
module Text {

  ghost predicate At<T>(s: seq<T>, pat: seq<T>, i: int) {
    0 <= i <= |s| - |pat| && s[i..i + |pat|] == pat
  }

  /** `indexOf`: the leftmost occurrence of `pat` from `from` on, or -1. */
  function IndexOf<T(==)>(s: seq<T>, pat: seq<T>, from: nat): (i: int)
    requires pat != []
    ensures i == -1 || from <= i <= |s| - |pat|
    decreases |s| - from
  {
    if from + |pat| > |s| then -1
    else if s[from..from + |pat|] == pat then from
    else IndexOf(s, pat, from + 1)
  }

  lemma {:induction false} IndexOfFirst<T>(s: seq<T>, pat: seq<T>, from: nat)
    requires pat != []
    ensures var i := IndexOf(s, pat, from);
      && (i == -1 || At(s, pat, i))
      && forall j :: from <= j && (i == -1 || j < i) ==> !At(s, pat, j)
    decreases |s| - from
  {
    if from + |pat| <= |s| && s[from..from + |pat|] != pat { IndexOfFirst(s, pat, from + 1); }
  }

  /** An occurrence with none before it is the one `indexOf` finds. */
  lemma IndexOfIs<T>(s: seq<T>, pat: seq<T>, from: nat, i: nat)
    requires pat != [] && from <= i && At(s, pat, i)
    requires forall j :: from <= j < i ==> !At(s, pat, j)
    ensures IndexOf(s, pat, from) == i
  {
    IndexOfFirst(s, pat, from);
  }

  lemma IndexOfNone<T>(s: seq<T>, pat: seq<T>, from: nat)
    requires pat != []
    requires forall j :: from <= j ==> !At(s, pat, j)
    ensures IndexOf(s, pat, from) == -1
  {
    IndexOfFirst(s, pat, from);
  }

  /** Text added at the end does not change which occurrence is the first. */
  lemma IndexOfAppend<T>(a: seq<T>, b: seq<T>, pat: seq<T>)
    requires pat != [] && IndexOf(a, pat, 0) != -1
    ensures IndexOf(a + b, pat, 0) == IndexOf(a, pat, 0)
  {
    var i := IndexOf(a, pat, 0);
    IndexOfFirst(a, pat, 0);
    assert (a + b)[i..i + |pat|] == a[i..i + |pat|];
    forall j | 0 <= j < i ensures !At(a + b, pat, j) {
      assert !At(a, pat, j);
      assert (a + b)[j..j + |pat|] == a[j..j + |pat|];
    }
    IndexOfIs(a + b, pat, 0, i);
  }

  lemma AtShift<T>(a: seq<T>, t: seq<T>, pat: seq<T>, j: int)
    requires j >= |a|
    ensures At(a + t, pat, j) <==> At(t, pat, j - |a|)
  {
    if j + |pat| <= |a + t| { assert (a + t)[j..j + |pat|] == t[j - |a|..j - |a| + |pat|]; }
  }

  /** With no occurrence before place `k` of `t`, searching `a + t` is searching `t` from `k`. */
  lemma IndexOfShift<T>(a: seq<T>, t: seq<T>, pat: seq<T>, from: nat, k: nat)
    requires pat != [] && from <= |a| + k
    requires forall j | from <= j < |a| + k :: !At(a + t, pat, j)
    ensures IndexOf(a + t, pat, from) == if IndexOf(t, pat, k) == -1 then -1 else |a| + IndexOf(t, pat, k)
  {
    var i := IndexOf(t, pat, k);
    IndexOfFirst(t, pat, k);
    forall j | from <= j && (i == -1 || j < |a| + i) ensures !At(a + t, pat, j) {
      if j >= |a| + k { AtShift(a, t, pat, j); }
    }
    if i == -1 {
      IndexOfNone(a + t, pat, from);
    } else {
      AtShift(a, t, pat, |a| + i);
      IndexOfIs(a + t, pat, from, |a| + i);
    }
  }

  function Concat<T>(parts: seq<seq<T>>): seq<T> {
    if parts == [] then [] else parts[0] + Concat(parts[1..])
  }

  lemma {:induction false} ConcatSnoc<T>(parts: seq<seq<T>>, last: seq<T>)
    ensures Concat(parts + [last]) == Concat(parts) + last
  {
    if parts == [] {
      assert Concat([last]) == last + Concat<T>([]);
    } else {
      ConcatSnoc(parts[1..], last);
      assert (parts + [last])[1..] == parts[1..] + [last];
    }
  }

  lemma Regroup<T>(a: seq<T>, b: seq<T>, c: seq<T>)
    ensures a + (b + c) == (a + b) + c
  {
  }

  /** White space as `trim` sees it. */
  predicate IsSpace(c: char) {
    || c == ' ' || '\t' <= c <= '\r' || c == '\U{00A0}' || c == '\U{FEFF}' || c == '\U{1680}'
    || '\U{2000}' <= c <= '\U{200A}' || c == '\U{2028}' || c == '\U{2029}' || c == '\U{202F}'
    || c == '\U{205F}' || c == '\U{3000}'
  }

  predicate Blank(s: string) {
    forall i | 0 <= i < |s| :: IsSpace(s[i])
  }

  /** Lines joined by a line feed. */
  function Join(lines: seq<string>): string {
    if lines == [] then ""
    else if |lines| == 1 then lines[0]
    else lines[0] + "\n" + Join(lines[1..])
  }

  lemma AtChar<T>(s: seq<T>, c: T, j: int)
    ensures At(s, [c], j) <==> 0 <= j < |s| && s[j] == c
  {
    if 0 <= j < |s| { assert s[j..j + 1] == [s[j]]; }
  }

  /** Before the first line feed, or in all of a text without one, there is none. */
  lemma NoLfBefore(s: string)
    ensures var i := IndexOf(s, "\n", 0); '\n' !in (if i == -1 then s else s[..i])
  {
    IndexOfFirst(s, "\n", 0);
    forall j | 0 <= j < |s| && s[j] == '\n' ensures At(s, "\n", j) { AtChar(s, '\n', j); }
  }

  /** Split at each line feed. */
  function SplitLf(s: string): (lines: seq<string>)
    ensures |lines| > 0
    decreases |s|
  {
    var i := IndexOf(s, "\n", 0);
    if i == -1 then [s] else [s[..i]] + SplitLf(s[i + 1..])
  }

  lemma {:induction false} SplitPlain(s: string)
    ensures forall i | 0 <= i < |SplitLf(s)| :: '\n' !in SplitLf(s)[i]
    decreases |s|
  {
    NoLfBefore(s);
    var i := IndexOf(s, "\n", 0);
    if i != -1 { SplitPlain(s[i + 1..]); }
  }

  lemma {:induction false} JoinSplit(s: string)
    ensures Join(SplitLf(s)) == s
    decreases |s|
  {
    var i := IndexOf(s, "\n", 0);
    if i != -1 {
      JoinSplit(s[i + 1..]);
      IndexOfFirst(s, "\n", 0);
      assert s[i..i + 1] == "\n";
      assert s == s[..i] + "\n" + s[i + 1..];
      assert SplitLf(s)[1..] == SplitLf(s[i + 1..]);
    }
  }

  lemma {:induction false} SplitJoin(lines: seq<string>)
    requires lines != [] && forall i | 0 <= i < |lines| :: '\n' !in lines[i]
    ensures SplitLf(Join(lines)) == lines
    decreases |lines|
  {
    var s := Join(lines);
    var l := lines[0];
    assert '\n' !in l;
    forall j | 0 <= j < |l| ensures !At(s, "\n", j) {
      AtChar(s, '\n', j);
      assert s[j] == l[j] && l[j] in l;
    }
    if |lines| == 1 {
      forall j | 0 <= j ensures !At(s, "\n", j) { AtChar(s, '\n', j); }
      IndexOfNone(s, "\n", 0);
    } else {
      SplitJoin(lines[1..]);
      AtChar(s, '\n', |l|);
      IndexOfIs(s, "\n", 0, |l|);
      assert s[..|l|] == l && s[|l| + 1..] == Join(lines[1..]);
    }
  }
}
