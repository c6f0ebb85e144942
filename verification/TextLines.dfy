/** Splitting a text at a separator, joining it again, and trimming white space. */
module TextLines {

  function Split<T(==)>(s: seq<T>, sep: T): (lines: seq<seq<T>>)
    ensures |lines| >= 1
    ensures forall l | l in lines :: sep !in l
  {
    if s == [] then [[]]
    else
      var rest := Split(s[1..], sep);
      if s[0] == sep then [[]] + rest
      else
        assert rest[0] in rest;
        [[s[0]] + rest[0]] + rest[1..]
  }

  function Join<T>(lines: seq<seq<T>>, sep: T): seq<T> {
    if |lines| == 0 then []
    else if |lines| == 1 then lines[0]
    else lines[0] + [sep] + Join(lines[1..], sep)
  }

  lemma {:induction false} JoinOfSplit<T>(s: seq<T>, sep: T)
    ensures Join(Split(s, sep), sep) == s
  {
    if s != [] {
      JoinOfSplit(s[1..], sep);
      var rest := Split(s[1..], sep);
      if s[0] == sep {
        assert ([[]] + rest)[1..] == rest;
      } else {
        assert ([[s[0]] + rest[0]] + rest[1..])[1..] == rest[1..];
        assert [s[0]] + s[1..] == s;
      }
    }
  }

  // A line without the separator, then the separator, then the rest.
  lemma {:induction false} SplitLine<T>(line: seq<T>, rest: seq<T>, sep: T)
    requires sep !in line
    ensures Split(line + [sep] + rest, sep) == [line] + Split(rest, sep)
  {
    var s := line + [sep] + rest;
    if line == [] {
      assert s[1..] == rest;
    } else {
      assert s[1..] == line[1..] + [sep] + rest;
      assert s[0] == line[0] && line[0] in line && line[0] != sep;
      SplitLine(line[1..], rest, sep);
      assert [line[0]] + line[1..] == line;
    }
  }

  lemma {:induction false} SplitSingle<T>(line: seq<T>, sep: T)
    requires sep !in line
    ensures Split(line, sep) == [line]
  {
    if line != [] {
      assert line[0] in line;
      SplitSingle(line[1..], sep);
      assert [line[0]] + line[1..] == line;
    }
  }

  lemma {:induction false} SplitOfJoin<T>(lines: seq<seq<T>>, sep: T)
    requires |lines| >= 1 && forall l | l in lines :: sep !in l
    ensures Split(Join(lines, sep), sep) == lines
  {
    if |lines| == 1 {
      SplitSingle(lines[0], sep);
    } else {
      SplitOfJoin(lines[1..], sep);
      SplitLine(lines[0], Join(lines[1..], sep), sep);
    }
  }

  lemma {:induction false} JoinAppend<T>(a: seq<seq<T>>, b: seq<seq<T>>, sep: T)
    requires |a| >= 1 && |b| >= 1
    ensures Join(a + b, sep) == Join(a, sep) + [sep] + Join(b, sep)
  {
    if |a| > 1 {
      assert (a + b)[1..] == a[1..] + b;
      JoinAppend(a[1..], b, sep);
    } else {
      assert (a + b)[1..] == b;
    }
  }

  lemma SplitAppend<T>(a: seq<T>, b: seq<T>, sep: T)
    ensures Split(a + [sep] + b, sep) == Split(a, sep) + Split(b, sep)
  {
    hide Split, Join;
    var lines := Split(a, sep) + Split(b, sep);
    SplitOfJoin(lines, sep);
    JoinAppend(Split(a, sep), Split(b, sep), sep);
    JoinOfSplit(a, sep);
    JoinOfSplit(b, sep);
  }

  function LastOf<T>(s: seq<T>): T
    requires |s| >= 1
  {
    s[|s| - 1]
  }

  function AllButLast<T>(s: seq<T>): seq<T>
    requires |s| >= 1
  {
    s[..|s| - 1]
  }

  /** Text that arrives in two parts: only the last, open line of the first part is affected by the second. */
  lemma SplitConcat<T>(a: seq<T>, b: seq<T>, sep: T)
    ensures Split(a + b, sep) == AllButLast(Split(a, sep)) + Split(LastOf(Split(a, sep)) + b, sep)
  {
    var first, open := AllButLast(Split(a, sep)), LastOf(Split(a, sep));
    var tail := Split(open + b, sep);
    assert first + [open] == Split(a, sep);
    assert forall l | l in first :: l in Split(a, sep);
    JoinOfSplit(a, sep);
    JoinOfSplit(open + b, sep);
    JoinOpen(first, open, tail, b, sep);
    hide *;
    assert forall l | l in first + tail :: sep !in l;
    SplitOfJoin(first + tail, sep);
  }

  // Joining lines after `first`, the next of which starts with `open`.
  lemma JoinOpen<T>(first: seq<seq<T>>, open: seq<T>, tail: seq<seq<T>>, b: seq<T>, sep: T)
    requires |tail| >= 1 && Join(tail, sep) == open + b
    ensures Join(first + tail, sep) == Join(first + [open], sep) + b
  {
    JoinOne(open, sep);
    if first == [] {
      assert first + [open] == [open] && first + tail == tail;
    } else {
      JoinAppend(first, [open], sep);
      JoinAppend(first, tail, sep);
      hide Join;
      assert Join(first, sep) + [sep] + (open + b) == Join(first, sep) + [sep] + open + b;
    }
  }

  lemma JoinOne<T>(line: seq<T>, sep: T)
    ensures Join([line], sep) == line
  {
  }

  // The open line at the end of a prefix is the start of a line of the whole.
  lemma OpenLineIsPrefix<T>(a: seq<T>, b: seq<T>, sep: T)
    ensures exists line :: line in Split(a + b, sep) && LastOf(Split(a, sep)) <= line
  {
    var open := LastOf(Split(a, sep));
    assert open in Split(a, sep);
    SplitConcat(a, b, sep);
    StartOfSplit(open, b, sep);
    var line := Split(open + b, sep)[0];
    assert line in Split(a + b, sep);
  }

  lemma {:induction false} StartOfSplit<T>(open: seq<T>, b: seq<T>, sep: T)
    requires sep !in open
    ensures open <= Split(open + b, sep)[0]
  {
    if open != [] {
      assert open[0] in open;
      assert (open + b)[1..] == open[1..] + b;
      StartOfSplit(open[1..], b, sep);
    }
  }

  // The characters that trim() and \s treat as white space.
  predicate IsSpace(c: char) {
    || '\U{0009}' <= c <= '\U{000d}' || c == ' ' || c == '\U{00a0}' || c == '\U{1680}'
    || '\U{2000}' <= c <= '\U{200a}' || c == '\U{2028}' || c == '\U{2029}' || c == '\U{202f}'
    || c == '\U{205f}' || c == '\U{3000}' || c == '\U{feff}'
  }

  function TrimStart(s: string): string {
    if s != [] && IsSpace(s[0]) then TrimStart(s[1..]) else s
  }

  function TrimEnd(s: string): string {
    if s != [] && IsSpace(s[|s| - 1]) then TrimEnd(s[..|s| - 1]) else s
  }

  function Trim(s: string): string {
    TrimEnd(TrimStart(s))
  }

  predicate Trimmed(s: string) {
    s == [] || (!IsSpace(s[0]) && !IsSpace(s[|s| - 1]))
  }

  lemma TrimmedIsFixed(s: string)
    requires Trimmed(s)
    ensures Trim(s) == s
  {
  }

  lemma {:induction false} TrimStartSkips(spaces: string, s: string)
    requires forall c | c in spaces :: IsSpace(c)
    ensures TrimStart(spaces + s) == TrimStart(s)
  {
    if spaces == [] {
      assert spaces + s == s;
    } else {
      assert spaces[0] in spaces;
      assert (spaces + s)[1..] == spaces[1..] + s;
      TrimStartSkips(spaces[1..], s);
    }
  }

  lemma {:induction false} TrimEndKeepsStart(s: string)
    requires s != [] && !IsSpace(s[0])
    ensures TrimEnd(s) != [] && TrimEnd(s)[0] == s[0]
    decreases |s|
  {
    if IsSpace(s[|s| - 1]) {
      TrimEndKeepsStart(s[..|s| - 1]);
    }
  }

  /** Trimming always gives a trimmed text. */
  lemma TrimTrims(s: string)
    ensures Trimmed(Trim(s))
  {
    var t := TrimStart(s);
    TrimStartStarts(s);
    TrimEndEnds(t);
    if t != [] { TrimEndKeepsStart(t); }
  }

  lemma {:induction false} TrimStartStarts(s: string)
    ensures TrimStart(s) == [] || !IsSpace(TrimStart(s)[0])
  {
    if s != [] && IsSpace(s[0]) { TrimStartStarts(s[1..]); }
  }

  lemma {:induction false} TrimEndEnds(s: string)
    ensures TrimEnd(s) == [] || !IsSpace(TrimEnd(s)[|TrimEnd(s)| - 1])
  {
    if s != [] && IsSpace(s[|s| - 1]) { TrimEndEnds(s[..|s| - 1]); }
  }
}
