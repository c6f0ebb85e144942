/**
 * Parsing undoes printing for git's NUL-separated formats: what `git status
 * --porcelain=v2 -z` and `git diff --numstat -z` write comes back entry by entry,
 * keyed by the new path.
 */
module GitRoundTrips {
  import opened Common
  import opened TextLines
  import opened GitParsers

  // A NUL-terminated list of records.
  function Output(records: seq<string>): string { Join(records + [""], NUL) }

  lemma OutputSplits(records: seq<string>)
    requires forall r | r in records :: NUL !in r
    ensures Split(Output(records), NUL) == records + [""]
  {
    hide Join, Split;
    assert forall r | r in records + [""] :: NUL !in r;
    SplitOfJoin(records + [""], NUL);
  }

  // ---- status ----

  datatype Change =
    | Ordinary(code: string, fields: seq<string>, path: string)
    | Renamed(code: string, fields: seq<string>, path: string, source: string)
    | Unmerged(code: string, fields: seq<string>, path: string)
    | Untracked(path: string)
  {
    // The number of fields between the code and the path.
    function Width(): nat { if Ordinary? then 6 else if Renamed? then 7 else 8 }

    function Prefix(): string { if Ordinary? then "1 " else if Renamed? then "2 " else "u " }

    predicate Legal() {
      && NUL !in path
      && (!Untracked? ==>
            && |code| == 2 && ' ' !in code && NUL !in code
            && |fields| == Width()
            && (forall f | f in fields :: ' ' !in f && NUL !in f))
      && (Renamed? ==> source != "" && NUL !in source)
    }

    function Record(): string {
      if Untracked? then "? " + path else Prefix() + code + " " + Fields(fields) + path
    }

    function ChangeRecords(): seq<string> { if Renamed? then [Record(), source] else [Record()] }

    function Parsed(): Entry { if Untracked? then Entry("??", path) else Entry(code, path) }
  }

  function Fields(fields: seq<string>): string {
    if fields == [] then "" else fields[0] + " " + Fields(fields[1..])
  }

  function ChangeRecords(changes: seq<Change>): seq<string> {
    if changes == [] then [] else changes[0].ChangeRecords() + ChangeRecords(changes[1..])
  }

  function Entries(changes: seq<Change>): seq<Entry> {
    if changes == [] then [] else [changes[0].Parsed()] + Entries(changes[1..])
  }

  // The branch headers.
  datatype Headers = Headers(branch: Option<string>, upstream: Option<string>, ab: Option<(nat, nat)>) {
    predicate Legal() {
      && (branch.Some? ==> HeaderText(branch.value) && branch.value != "(detached)")
      && (upstream.Some? ==> HeaderText(upstream.value))
    }

    function Head(): string { HEAD + if branch.Some? then branch.value else "(detached)" }

    function Upstream(): seq<string> { if upstream.Some? then [UPSTREAM + upstream.value] else [] }

    function Ab(): seq<string> {
      if ab.Some? then [AB + "+" + Decimal(ab.value.0) + " -" + Decimal(ab.value.1)] else []
    }

    function HeaderRecords(): seq<string> { [Head()] + Upstream() + Ab() }
  }

  predicate HeaderText(s: string) { NUL !in s && '\n' !in s }

  // A record that the header splitting leaves as one piece.
  predicate OnePiece(record: string) { |Pieces(record)| == 1 }

  // A piece that the parser passes over.
  predicate Ignored(record: string) {
    && !Starts(record, HEAD) && !Starts(record, UPSTREAM) && !Starts(record, AB)
    && !Starts(record, "1 ") && !Starts(record, "2 ") && !Starts(record, "u ") && !Starts(record, "? ")
  }

  // What a rename source leaves after its first piece is passed over.
  predicate Harmless(source: string) {
    forall k | 1 <= k < |Pieces(source)| :: Ignored(Pieces(source)[k])
  }

  lemma {:induction false} NonEmptyAppend(a: seq<string>, b: seq<string>)
    ensures NonEmpty(a + b) == NonEmpty(a) + NonEmpty(b)
  {
    if a == [] {
      assert a + b == b;
    } else {
      assert (a + b)[1..] == a[1..] + b;
      NonEmptyAppend(a[1..], b);
    }
  }

  lemma {:induction false} FlattenAppend(a: seq<string>, b: seq<string>)
    ensures Flatten(a + b) == Flatten(a) + Flatten(b)
  {
    if a == [] {
      assert a + b == b;
    } else {
      assert (a + b)[1..] == a[1..] + b;
      FlattenAppend(a[1..], b);
    }
  }

  // A record that is not a header, or holds a single line, is kept as it is.
  lemma PlainPiece(record: string)
    requires record != "" && (!Starts(record, "#") || '\n' !in record)
    ensures Pieces(record) == [record]
  {
    if Starts(record, "#") { SplitSingle(record, '\n'); }
    OneKept(record);
  }

  lemma OneKept(record: string)
    requires record != ""
    ensures NonEmpty([record]) == [record]
  {
    var one := [record];
    assert one[1..] == [] && NonEmpty(one) == [record] + NonEmpty([]);
  }

  // A record is never lost: its first line is not empty.
  lemma SomePiece(record: string)
    requires record != ""
    ensures |Pieces(record)| >= 1
  {
    if Starts(record, "#") {
      assert record[0] == '#';
      assert Split(record, '\n')[0] != "";
    }
  }

  lemma EmptyPiece()
    ensures Pieces("") == [] && Flatten([""]) == []
  {
    assert [""][1..] == [];
  }

  // ---- one record ----

  lemma {:induction false} RestOfFields(fields: seq<string>, path: string)
    requires forall f | f in fields :: ' ' !in f
    ensures Rest(Fields(fields) + path, |fields|) == path
  {
    if fields == [] {
      assert "" + path == path;
    } else {
      var f, tail := fields[0], Fields(fields[1..]) + path;
      assert f in fields;
      var s := f + " " + tail;
      assert Fields(fields) + path == s;
      SpaceAfter(f, tail);
      assert s[|f| + 1..] == tail;
      RestOfFields(fields[1..], path);
    }
  }

  lemma SpaceAfter(f: string, tail: string)
    requires ' ' !in f
    ensures SpaceFrom(f + " " + tail, 0) == |f|
  {
    var s := f + " " + tail;
    var i := SpaceFrom(s, 0);
    assert s[|f|] == ' ';
    assert forall k | 0 <= k < |f| :: s[k] == f[k] && f[k] in f;
    assert forall k | 0 <= k < i :: s[0..i][k] == s[k];
  }

  lemma CodeIsRead(c: Change)
    requires c.Legal() && !c.Untracked?
    ensures Code(c.Record()) == c.code
  {
    hide Fields;
    assert c.Record() == c.Prefix() + (c.code + (" " + Fields(c.fields) + c.path));
    assert c.Record()[2..4] == c.code;
  }

  lemma PathIsRead(c: Change)
    requires c.Legal() && !c.Untracked?
    ensures Rest(c.Record(), c.Width() + 2) == c.path
  {
    var kind := if c.Ordinary? then "1" else if c.Renamed? then "2" else "u";
    var all := [kind, c.code] + c.fields;
    TwoFields(kind, c.code, c.fields);
    hide Fields, Rest;
    assert c.Prefix() == kind + " ";
    assert kind + " " + (c.code + " " + Fields(c.fields)) + c.path == kind + " " + c.code + " " + Fields(c.fields) + c.path;
    forall f | f in all ensures ' ' !in f { }
    RestOfFields(all, c.path);
  }

  lemma TwoFields(a: string, b: string, fields: seq<string>)
    ensures Fields([a, b] + fields) == a + " " + (b + " " + Fields(fields))
  {
    var all := [a, b] + fields;
    assert all[1..] == [b] + fields && all[1..][1..] == fields;
  }

  lemma RecordKind(c: Change)
    requires c.Legal()
    ensures var r := c.Record();
      && r != "" && !Starts(r, "#")
      && !Starts(r, HEAD) && !Starts(r, UPSTREAM) && !Starts(r, AB)
      && (Starts(r, "1 ") <==> c.Ordinary?) && (Starts(r, "2 ") <==> c.Renamed?)
      && (Starts(r, "u ") <==> c.Unmerged?) && (Starts(r, "? ") <==> c.Untracked?)
  {
    var r := c.Record();
    assert r[0] == (if c.Untracked? then '?' else if c.Ordinary? then '1' else if c.Renamed? then '2' else 'u');
    assert r[1] == ' ';
    assert HEAD[0] == '#' && UPSTREAM[0] == '#' && AB[0] == '#';
    hide Fields;
  }

  // A change at the head of the records becomes its entry.
  lemma ChangeIsRead(c: Change, pieces: seq<string>, rest: seq<string>, st: Status)
    requires c.Legal() && |pieces| == |c.ChangeRecords()| && pieces[0] == c.Record()
    ensures ParseRecords(pieces + rest, st) == ParseRecords(rest, st.(entries := st.entries + [c.Parsed()]))
  {
    RecordKind(c);
    if !c.Untracked? { CodeIsRead(c); PathIsRead(c); }
    var records := pieces + rest;
    assert records[0] == c.Record();
    if c.Renamed? {
      assert records[2..] == rest;
    } else {
      assert records[1..] == rest;
    }
    if c.Untracked? { assert c.Record()[2..] == c.path; }
    hide Rest, Code;
  }

  // ---- all records ----

  lemma {:induction false} ChangesAreRead(changes: seq<Change>, st: Status)
    requires forall c | c in changes :: c.Legal() && (c.Renamed? ==> Harmless(c.source))
    ensures ParseRecords(Flatten(ChangeRecords(changes)), st) == st.(entries := st.entries + Entries(changes))
    decreases |changes|
  {
    hide Harmless;
    if changes == [] {
      assert st.entries + [] == st.entries;
    } else {
      hide ParseRecords, Flatten, ChangeRecords;
      var c, rest := changes[0], changes[1..];
      assert c in changes;
      assert changes == [c] + rest;
      FirstChange(c, rest, st);
      ChangesAreRead(rest, st.(entries := st.entries + [c.Parsed()]));
      Grouped(st.entries, c.Parsed(), Entries(rest));
    }
  }

  lemma Grouped(a: seq<Entry>, e: Entry, b: seq<Entry>)
    ensures a + [e] + b == a + ([e] + b)
  {
  }

  lemma FirstChange(c: Change, rest: seq<Change>, st: Status)
    requires c.Legal() && (c.Renamed? ==> Harmless(c.source))
    ensures ParseRecords(Flatten(ChangeRecords([c] + rest)), st)
         == ParseRecords(Flatten(ChangeRecords(rest)), st.(entries := st.entries + [c.Parsed()]))
  {
    assert ([c] + rest)[1..] == rest;
    FlattenAppend(c.ChangeRecords(), ChangeRecords(rest));
    hide ParseRecords, Flatten, Harmless;
    OwnRecordsAreRead(c, Flatten(ChangeRecords(rest)), st);
  }

  // The records of a change, in front of any others.
  lemma OwnRecordsAreRead(c: Change, rest: seq<string>, st: Status)
    requires c.Legal() && (c.Renamed? ==> Harmless(c.source))
    ensures ParseRecords(Flatten(c.ChangeRecords()) + rest, st) == ParseRecords(rest, st.(entries := st.entries + [c.Parsed()]))
  {
    var tail := PiecesOf(c);
    assert forall r | r in tail :: Ignored(r);
    hide ParseRecords, Flatten, Harmless, Ignored, Change.Record, Change.Parsed, Change.Legal;
    var own := Flatten(c.ChangeRecords());
    var front := own[..|c.ChangeRecords()|];
    assert own + rest == front + (tail + rest);
    ChangeIsRead(c, front, tail + rest, st);
    IgnoredArePassed(tail, rest, st.(entries := st.entries + [c.Parsed()]));
  }

  lemma {:induction false} IgnoredArePassed(tail: seq<string>, rest: seq<string>, st: Status)
    requires forall r | r in tail :: Ignored(r)
    ensures ParseRecords(tail + rest, st) == ParseRecords(rest, st)
  {
    if tail == [] {
      assert tail + rest == rest;
    } else {
      assert tail[0] in tail && (tail + rest)[1..] == tail[1..] + rest;
      IgnoredArePassed(tail[1..], rest, st);
    }
  }

  // The pieces of a change: its records, where a source may be cut into more.
  lemma PiecesOf(c: Change) returns (tail: seq<string>)
    requires c.Legal()
    ensures var pieces := Flatten(c.ChangeRecords());
      && |pieces| >= |c.ChangeRecords()| && pieces[0] == c.Record()
      && tail == pieces[|c.ChangeRecords()|..]
    ensures tail == if c.Renamed? then Pieces(c.source)[1..] else []
    ensures c.Renamed? ==> (Harmless(c.source) <==> forall r | r in tail :: Ignored(r))
  {
    RecordKind(c);
    PlainPiece(c.Record());
    var records := c.ChangeRecords();
    if c.Renamed? {
      SomePiece(c.source);
      assert records[1..] == [c.source] && [c.source][1..] == [];
      assert Flatten([c.source]) == Pieces(c.source) + [] == Pieces(c.source);
      var pieces := Pieces(c.source);
      tail := pieces[1..];
      assert forall k | 1 <= k < |pieces| :: pieces[k] == tail[k - 1];
      assert Flatten(records) == [c.Record()] + pieces;
      hide Ignored, Pieces, Flatten;
    } else {
      assert records[1..] == [];
      tail := [];
    }
  }

  // Pieces that change no status are all passed over: any other sets a field or adds an entry.
  lemma {:induction false} UnchangingAreIgnored(tail: seq<string>, e: Entry)
    requires forall st: Status :: ParseRecords(tail, st.(entries := st.entries + [e])) == st.(entries := st.entries + [e])
    ensures forall r | r in tail :: Ignored(r)
    decreases |tail|
  {
    if tail != [] {
      var r := tail[0];
      if Ignored(r) {
        forall st: Status ensures ParseRecords(tail[1..], st.(entries := st.entries + [e])) == st.(entries := st.entries + [e]) {
          assert ParseRecords(tail, st.(entries := st.entries + [e])) == st.(entries := st.entries + [e]);
        }
        UnchangingAreIgnored(tail[1..], e);
      } else {
        FirstChanges(tail, e);
      }
    }
  }

  // A first piece that is not ignored tells apart two statuses it makes the same, or adds an entry.
  lemma FirstChanges(tail: seq<string>, e: Entry)
    requires tail != [] && !Ignored(tail[0])
    ensures exists st: Status :: ParseRecords(tail, st.(entries := st.entries + [e])) != st.(entries := st.entries + [e])
  {
    var r := tail[0];
    var a := NO_STATUS;
    var b := Status(Some(""), Some(""), 1, 1, []);
    var c := b.(branch := Some("x"), upstream := Some("x"), ahead := 2, behind := 2);
    if !Starts(r, HEAD) && !Starts(r, UPSTREAM) && !Starts(r, AB) {
      var st := a.(entries := [] + [e]);
      var next := if Starts(r, "2 ") then (if |tail| > 1 then tail[2..] else []) else tail[1..];
      var entry := if Starts(r, "1 ") then Entry(Code(r), Rest(r, 8)) else if Starts(r, "2 ") then Entry(Code(r), Rest(r, 9))
                   else if Starts(r, "u ") then Entry(Code(r), Rest(r, 10)) else Entry("??", r[2..]);
      assert ParseRecords(tail, st) == ParseRecords(next, WithEntry(st, entry.code, entry.path));
      hide ParseRecords;
      EntriesStay(next, WithEntry(st, entry.code, entry.path));
      assert ParseRecords(tail, a.(entries := a.entries + [e])) != a.(entries := a.entries + [e]);
    } else {
      TwoBecomeOne(tail, e);
    }
  }

  lemma {:induction false} EntriesStay(records: seq<string>, st: Status)
    ensures |ParseRecords(records, st).entries| >= |st.entries|
    decreases |records|
  {
    if records != [] {
      var next, st' := OneRecord(records, st);
      hide ParseRecords;
      EntriesStay(next, st');
    }
  }

  lemma OneRecord(records: seq<string>, st: Status) returns (next: seq<string>, st': Status)
    requires records != []
    ensures ParseRecords(records, st) == ParseRecords(next, st')
    ensures |next| < |records| && |st'.entries| >= |st.entries|
  {
    hide Rest, AheadBehind, Code;
    var r := records[0];
    next, st' := records[1..], st;
    if Starts(r, HEAD) {
      st' := st.(branch := if r[|HEAD|..] == "(detached)" then None else Some(r[|HEAD|..]));
    } else if Starts(r, UPSTREAM) {
      st' := st.(upstream := Some(r[|UPSTREAM|..]));
    } else if Starts(r, AB) {
      st' := st.(ahead := AheadBehind(r).0, behind := AheadBehind(r).1);
    } else if Starts(r, "1 ") {
      st' := WithEntry(st, Code(r), Rest(r, 8));
    } else if Starts(r, "2 ") {
      st' := WithEntry(st, Code(r), Rest(r, 9));
      next := if |records| > 1 then records[2..] else [];
    } else if Starts(r, "u ") {
      st' := WithEntry(st, Code(r), Rest(r, 10));
    } else if Starts(r, "? ") {
      st' := WithEntry(st, "??", r[2..]);
    }
  }

  lemma TwoBecomeOne(tail: seq<string>, e: Entry)
    requires tail != [] && (Starts(tail[0], HEAD) || Starts(tail[0], UPSTREAM) || Starts(tail[0], AB))
    ensures exists st: Status :: ParseRecords(tail, st.(entries := st.entries + [e])) != st.(entries := st.entries + [e])
  {
    var r := tail[0];
    var a := NO_STATUS;
    var b := if Starts(r, HEAD) then a.(branch := Some("x")) else if Starts(r, UPSTREAM) then a.(upstream := Some("x"))
             else a.(ahead := 1, behind := 1);
    var a', b' := a.(entries := a.entries + [e]), b.(entries := b.entries + [e]);
    assert ParseRecords(tail, a') == ParseRecords(tail, b');
    assert a' != b';
    hide ParseRecords;
    assert ParseRecords(tail, a') != a' || ParseRecords(tail, b') != b';
  }

  // The change comes back, whatever was read before and follows.
  ghost predicate Transparent(c: Change) {
    forall rest: seq<string>, st: Status ::
      ParseRecords(Flatten(c.ChangeRecords()) + rest, st) == ParseRecords(rest, st.(entries := st.entries + [c.Parsed()]))
  }

  /**
   * A rename comes back in every context exactly when all pieces of its source
   * after the first are ones the parser passes over.
   */
  lemma TransparentIff(c: Change)
    requires c.Legal() && c.Renamed?
    ensures Transparent(c) <==> Harmless(c.source)
  {
    var own := Flatten(c.ChangeRecords());
    var tail := PiecesOf(c);
    var front := own[..2];
    hide Flatten, Harmless, ParseRecords, Ignored;
    if Harmless(c.source) {
      forall rest: seq<string>, st: Status
        ensures ParseRecords(own + rest, st) == ParseRecords(rest, st.(entries := st.entries + [c.Parsed()]))
      {
        OwnRecordsAreRead(c, rest, st);
      }
    }
    if Transparent(c) {
      forall st: Status
        ensures ParseRecords(tail, st.(entries := st.entries + [c.Parsed()])) == st.(entries := st.entries + [c.Parsed()])
      {
        assert own + [] == own == front + tail;
        ChangeIsRead(c, front, tail, st);
        assert ParseRecords(own + [], st) == ParseRecords([], st.(entries := st.entries + [c.Parsed()]));
        NothingLeft(st.(entries := st.entries + [c.Parsed()]));
      }
      UnchangingAreIgnored(tail, c.Parsed());
    }
  }

  lemma NothingLeft(st: Status)
    ensures ParseRecords([], st) == st
  {
  }

  lemma HeadIsRead(h: Headers, rest: seq<string>, st: Status)
    requires h.Legal()
    ensures ParseRecords([h.Head()] + rest, st) == ParseRecords(rest, st.(branch := h.branch))
  {
    assert h.Head()[|HEAD|..] == if h.branch.Some? then h.branch.value else "(detached)";
    assert ([h.Head()] + rest)[1..] == rest;
  }

  lemma UpstreamIsRead(h: Headers, rest: seq<string>, st: Status)
    requires h.Legal() && st.upstream.None?
    ensures ParseRecords(h.Upstream() + rest, st) == ParseRecords(rest, st.(upstream := h.upstream))
  {
    if h.upstream.Some? {
      var r := UPSTREAM + h.upstream.value;
      assert r[|UPSTREAM|..] == h.upstream.value;
      assert r[9] == 'u' && HEAD[9] == 'h';
      assert (h.Upstream() + rest)[1..] == rest;
    } else {
      assert [] + rest == rest;
    }
  }

  lemma AbIsRead(h: Headers, rest: seq<string>, st: Status)
    requires h.Legal() && st.ahead == 0 && st.behind == 0
    ensures var (ahead, behind) := if h.ab.Some? then h.ab.value else (0, 0);
      ParseRecords(h.Ab() + rest, st) == ParseRecords(rest, st.(ahead := ahead, behind := behind))
  {
    if h.ab.Some? {
      var r := AB + "+" + Decimal(h.ab.value.0) + " -" + Decimal(h.ab.value.1);
      assert r[9] == 'a' && HEAD[9] == 'h' && UPSTREAM[9] == 'u';
      AheadBehindIsRead(AB, h.ab.value.0, h.ab.value.1);
      hide Decimal, AheadBehind;
      assert (h.Ab() + rest)[1..] == rest;
    } else {
      assert [] + rest == rest;
    }
  }

  lemma {:induction false} DigitsAtEnd(s: string, digits: string)
    requires (forall c | c in digits :: IsDigit(c)) && s != "" && !IsDigit(s[|s| - 1])
    ensures TrailingDigits(s + digits) == |digits|
  {
    if digits == "" {
      assert s + digits == s;
    } else {
      var last := |digits| - 1;
      assert digits[last] in digits;
      assert (s + digits)[..|s + digits| - 1] == s + digits[..last];
      DigitsAtEnd(s, digits[..last]);
    }
  }

  lemma AheadBehindIsRead(prefix: string, a: nat, b: nat)
    ensures AheadBehind(prefix + "+" + Decimal(a) + " -" + Decimal(b)) == (a, b)
  {
    var plus := prefix + "+";
    var ahead := plus + Decimal(a);
    var front := ahead + " -";
    var r := front + Decimal(b);
    DigitsAtEnd(front, Decimal(b));
    DigitsAtEnd(plus, Decimal(a));
    NumberOfDecimal(a);
    NumberOfDecimal(b);
    hide Decimal, Number, TrailingDigits;
    assert r[..|front|] == front && r[|front|..] == Decimal(b);
    assert front[..|ahead|] == ahead && front[|ahead|..] == " -";
    assert ahead[|plus|..] == Decimal(a) && ahead[|plus| - 1] == '+';
  }

  // Header records are single lines, so they survive as they are.
  lemma HeaderPieces(h: Headers)
    requires h.Legal()
    ensures Flatten(h.HeaderRecords()) == h.HeaderRecords()
    ensures forall r | r in h.HeaderRecords() :: NUL !in r
  {
    forall r | r in h.HeaderRecords() ensures r != "" && '\n' !in r && NUL !in r {
      HeaderChars(h, r);
    }
    SinglesSurvive(h.HeaderRecords());
  }

  lemma HeaderChars(h: Headers, r: string)
    requires h.Legal() && r in h.HeaderRecords()
    ensures r != "" && '\n' !in r && NUL !in r
  {
    assert NoBreak(HEAD) && NoBreak(UPSTREAM) && NoBreak(AB) && NoBreak("(detached)") && NoBreak("+") && NoBreak(" -");
    if h.ab.Some? {
      NumberHasNoBreak(Decimal(h.ab.value.0));
      NumberHasNoBreak(Decimal(h.ab.value.1));
    }
    hide Decimal;
  }

  predicate NoBreak(s: string) { '\n' !in s && NUL !in s }

  lemma NumberHasNoBreak(s: string)
    requires IsNumber(s)
    ensures NoBreak(s)
  {
  }

  lemma {:induction false} SinglesSurvive(records: seq<string>)
    requires forall r | r in records :: r != "" && '\n' !in r
    ensures Flatten(records) == records
  {
    if records != [] {
      assert records[0] in records;
      PlainPiece(records[0]);
      assert forall r | r in records[1..] :: r in records;
      SinglesSurvive(records[1..]);
    }
  }

  lemma {:induction false} ChangesHaveNoNul(changes: seq<Change>)
    requires forall c | c in changes :: c.Legal()
    ensures forall r | r in ChangeRecords(changes) :: NUL !in r
  {
    if changes != [] {
      var c := changes[0];
      assert c in changes;
      if !c.Untracked? { FieldsHaveNoNul(c.fields); }
      hide Fields;
      assert NUL !in c.Record();
      ChangesHaveNoNul(changes[1..]);
    }
  }

  lemma {:induction false} FieldsHaveNoNul(fields: seq<string>)
    requires forall f | f in fields :: NUL !in f
    ensures NUL !in Fields(fields)
  {
    if fields != [] {
      assert fields[0] in fields;
      FieldsHaveNoNul(fields[1..]);
    }
  }

  lemma RecordsOfOutput(h: Headers, changes: seq<Change>)
    requires h.Legal() && forall c | c in changes :: c.Legal()
    ensures Records(Output(h.HeaderRecords() + ChangeRecords(changes))) == h.HeaderRecords() + Flatten(ChangeRecords(changes))
  {
    var records := h.HeaderRecords() + ChangeRecords(changes);
    HeaderPieces(h);
    ChangesHaveNoNul(changes);
    hide Flatten, ChangeRecords, Output, Split;
    OutputSplits(records);
    FlattenAppend(records, [""]);
    EmptyPiece();
    FlattenAppend(h.HeaderRecords(), ChangeRecords(changes));
    assert Flatten(records) + [] == Flatten(records);
  }

  /**
   * Round trip of `git status`: the headers and the changes come back, renames
   * under their new path, as long as every rename source leaves nothing that the
   * parser takes for a record.
   */
  lemma StatusRoundTrip(h: Headers, changes: seq<Change>)
    requires h.Legal() && forall c | c in changes :: c.Legal() && (c.Renamed? ==> Harmless(c.source))
    ensures ParseRecords(Records(Output(h.HeaderRecords() + ChangeRecords(changes))), NO_STATUS)
         == Status(h.branch, h.upstream, if h.ab.Some? then h.ab.value.0 else 0, if h.ab.Some? then h.ab.value.1 else 0,
                   Entries(changes))
  {
    RecordsOfOutput(h, changes);
    hide ParseRecords, Flatten, Records, Output;
    HeadersAreRead(h, Flatten(ChangeRecords(changes)));
    hide *;
    ChangesAreRead(changes, HeaderStatus(h));
    NoEntriesYet(h, Entries(changes));
  }

  // The status after the headers.
  function HeaderStatus(h: Headers): Status {
    Status(h.branch, h.upstream, if h.ab.Some? then h.ab.value.0 else 0, if h.ab.Some? then h.ab.value.1 else 0, [])
  }

  lemma NoEntriesYet(h: Headers, entries: seq<Entry>)
    ensures HeaderStatus(h).(entries := HeaderStatus(h).entries + entries)
         == Status(h.branch, h.upstream, if h.ab.Some? then h.ab.value.0 else 0, if h.ab.Some? then h.ab.value.1 else 0, entries)
  {
    assert [] + entries == entries;
  }

  lemma HeadersAreRead(h: Headers, rest: seq<string>)
    requires h.Legal()
    ensures ParseRecords(h.HeaderRecords() + rest, NO_STATUS) == ParseRecords(rest, HeaderStatus(h))
  {
    hide ParseRecords;
    assert h.HeaderRecords() + rest == [h.Head()] + (h.Upstream() + (h.Ab() + rest));
    HeadIsRead(h, h.Upstream() + (h.Ab() + rest), NO_STATUS);
    var st1 := NO_STATUS.(branch := h.branch);
    UpstreamIsRead(h, h.Ab() + rest, st1);
    AbIsRead(h, rest, st1.(upstream := h.upstream));
  }

  /** The parser sees one record per record written exactly when every rename source stays in one piece. */
  lemma {:induction false} RecordsAlignIff(changes: seq<Change>)
    requires forall c | c in changes :: c.Legal()
    ensures |Flatten(ChangeRecords(changes))| >= |ChangeRecords(changes)|
    ensures |Flatten(ChangeRecords(changes))| == |ChangeRecords(changes)| <==>
            forall c | c in changes && c.Renamed? :: OnePiece(c.source)
  {
    if changes != [] {
      var c := changes[0];
      assert c in changes;
      RecordKind(c);
      PlainPiece(c.Record());
      FlattenAppend(c.ChangeRecords(), ChangeRecords(changes[1..]));
      RecordsAlignIff(changes[1..]);
      assert forall x :: x in changes <==> x == c || x in changes[1..];
      if c.Renamed? {
        SomePiece(c.source);
        assert c.ChangeRecords()[1..] == [c.source] && [c.source][1..] == [];
        assert Flatten([c.source]) == Pieces(c.source) + [];
      } else {
        assert c.ChangeRecords()[1..] == [];
      }
    }
  }

  /**
   * What goes wrong otherwise: the second line of a source that starts with `#`
   * is read as a record of its own, here an untracked file that does not exist.
   */
  lemma GhostEntry(c: Change, line: string, ghost': string)
    requires c.Legal() && c.Renamed? && '\n' !in line && '\n' !in ghost'
    requires c.source == "#" + line + "\n? " + ghost'
    ensures ParseRecords(Flatten(ChangeRecords([c])), NO_STATUS).entries == [c.Parsed(), Entry("??", ghost')]
  {
    var first, second := "#" + line, "? " + ghost';
    assert c.source == first + ['\n'] + second && Starts(c.source, "#");
    TwoPieces(first, second);
    RenamedPieces(c, first, second);
    hide Pieces, Flatten, ChangeRecords;
    ChangeIsRead(c, [c.Record(), first], [second], NO_STATUS);
    assert [c.Record(), first] + [second] == [c.Record(), first, second];
    assert [] + [c.Parsed()] == [c.Parsed()];
    LastUntracked(ghost', NO_STATUS.(entries := [c.Parsed()]));
    assert [c.Parsed()] + [Entry("??", ghost')] == [c.Parsed(), Entry("??", ghost')];
  }

  lemma TwoPieces(first: string, second: string)
    requires first != "" && second != "" && '\n' !in first && '\n' !in second && first[0] == '#'
    ensures Pieces(first + ['\n'] + second) == [first, second]
  {
    SplitLine(first, second, '\n');
    SplitSingle(second, '\n');
    OneKept(second);
    var both := [first, second];
    assert both[1..] == [second];
    assert NonEmpty(both) == [first] + NonEmpty([second]);
    assert (first + ['\n'] + second)[0] == '#';
    hide Split;
    assert [first] + [second] == both;
  }

  lemma RenamedPieces(c: Change, first: string, second: string)
    requires c.Legal() && c.Renamed? && Pieces(c.source) == [first, second]
    ensures Flatten(ChangeRecords([c])) == [c.Record(), first, second]
  {
    RecordKind(c);
    PlainPiece(c.Record());
    hide Pieces;
    var one := [c];
    assert one[1..] == [];
    assert ChangeRecords(one) == c.ChangeRecords() + [] == [c.Record(), c.source];
    var records := [c.Record(), c.source];
    assert records[1..] == [c.source] && records[1..][1..] == [];
    assert Flatten([c.source]) == [first, second] + Flatten([]);
    assert Flatten(records) == [c.Record()] + Flatten([c.source]);
  }

  lemma LastUntracked(path: string, st: Status)
    ensures ParseRecords(["? " + path], st) == st.(entries := st.entries + [Entry("??", path)])
  {
    var r := "? " + path;
    assert r[0] == '?' && HEAD[0] == '#' && UPSTREAM[0] == '#' && AB[0] == '#' && r[2..] == path;
    var one := [r];
    assert one[1..] == [];
  }

  // ---- numstat ----

  // One file's line counts; None stands for the `-` of a binary file.
  datatype Stat = Stat(additions: Option<nat>, deletions: Option<nat>, path: string, source: Option<string>) {
    predicate Legal() {
      path != "" && NUL !in path && (source.Some? ==> NUL !in source.value)
    }

    function Tokens(): seq<string> {
      if source.Some? then [Counts(additions, deletions), source.value, path] else [Counts(additions, deletions) + path]
    }

    function Parsed(): Numstat { Numstat(path, Amount(additions), Amount(deletions)) }
  }

  function CountText(n: Option<nat>): string { if n.Some? then Decimal(n.value) else "-" }
  function Amount(n: Option<nat>): nat { if n.Some? then n.value else 0 }
  function Counts(a: Option<nat>, d: Option<nat>): string { CountText(a) + "\t" + CountText(d) + "\t" }

  function StatTokens(stats: seq<Stat>): seq<string> {
    if stats == [] then [] else stats[0].Tokens() + StatTokens(stats[1..])
  }

  // The entries that are read: a plain path must be a single line.
  function Kept(stats: seq<Stat>): seq<Numstat> {
    if stats == [] then []
    else (if stats[0].source.Some? || OneLine(stats[0].path) then [stats[0].Parsed()] else []) + Kept(stats[1..])
  }

  lemma CountIsRead(n: Option<nat>, rest: string)
    ensures Count(CountText(n) + "\t" + rest) == Some((Amount(n), rest))
    ensures NUL !in CountText(n)
  {
    var text := CountText(n);
    var s := text + "\t" + rest;
    if n.Some? { NumberOfDecimal(n.value); }
    hide Decimal, Number;
    assert forall c | c in text :: c != '\t' && c != NUL;
    var i := TabAt(s);
    assert s[|text|] == '\t';
    assert forall k | 0 <= k < |text| :: s[k] == text[k] && text[k] in text;
    assert forall k | 0 <= k < i :: s[..i][k] == s[k];
    assert s[..|text|] == text && s[|text| + 1..] == rest;
  }

  lemma StatIsRead(a: Option<nat>, d: Option<nat>, path: string)
    ensures MatchStat(Counts(a, d) + path) == if OneLine(path) then Some(Numstat(path, Amount(a), Amount(d))) else None
    ensures Counts(a, d) + path != ""
    ensures NUL !in Counts(a, d)
  {
    var second := CountText(d) + "\t" + path;
    CountIsRead(a, second);
    CountIsRead(d, path);
    hide CountText, Count;
    assert Counts(a, d) + path == CountText(a) + "\t" + second;
  }

  lemma StatTokensRead(s: Stat, rest: seq<string>)
    requires s.Legal()
    ensures ParseTokens(s.Tokens() + rest) ==
      (if s.source.Some? || OneLine(s.path) then [s.Parsed()] else []) + ParseTokens(rest)
  {
    var tokens := s.Tokens() + rest;
    if s.source.Some? {
      StatIsRead(s.additions, s.deletions, "");
      assert Counts(s.additions, s.deletions) + "" == Counts(s.additions, s.deletions);
      hide MatchStat, Counts;
      assert tokens[3..] == rest && tokens[2] == s.path;
    } else {
      StatIsRead(s.additions, s.deletions, s.path);
      hide MatchStat, Counts;
      assert tokens[1..] == rest;
      assert [] + ParseTokens(rest) == ParseTokens(rest);
    }
  }

  lemma {:induction false} TokensAreRead(stats: seq<Stat>)
    requires forall s | s in stats :: s.Legal()
    ensures ParseTokens(StatTokens(stats) + [""]) == Kept(stats)
  {
    if stats == [] {
      assert [] + [""] == [""] && [""][1..] == [];
    } else {
      var s, rest := stats[0], stats[1..];
      assert s in stats;
      TokensAreRead(rest);
      assert StatTokens(stats) + [""] == s.Tokens() + (StatTokens(rest) + [""]);
      hide ParseTokens;
      StatTokensRead(s, StatTokens(rest) + [""]);
    }
  }

  lemma {:induction false} TokensHaveNoNul(stats: seq<Stat>)
    requires forall s | s in stats :: s.Legal()
    ensures forall t | t in StatTokens(stats) :: NUL !in t
  {
    if stats != [] {
      var s := stats[0];
      assert s in stats;
      StatIsRead(s.additions, s.deletions, s.path);
      hide Counts, MatchStat;
      TokensHaveNoNul(stats[1..]);
    }
  }

  /**
   * Round trip of `git diff --numstat`: every written file comes back with its
   * counts, renames under their new path, except plain paths with a line break,
   * which are dropped.
   */
  lemma NumstatRoundTrip(stats: seq<Stat>)
    requires forall s | s in stats :: s.Legal()
    ensures ParseTokens(Split(Output(StatTokens(stats)), NUL)) == Kept(stats)
  {
    hide Split, Output, ParseTokens;
    TokensHaveNoNul(stats);
    OutputSplits(StatTokens(stats));
    TokensAreRead(stats);
  }

  function AllParsed(stats: seq<Stat>): seq<Numstat> {
    if stats == [] then [] else [stats[0].Parsed()] + AllParsed(stats[1..])
  }

  /** Nothing is lost exactly when every path written without a source is a single line. */
  lemma {:induction false} KeptAllIff(stats: seq<Stat>)
    ensures |Kept(stats)| <= |stats| && |AllParsed(stats)| == |stats|
    ensures Kept(stats) == AllParsed(stats) <==> forall s | s in stats && s.source.None? :: OneLine(s.path)
  {
    if stats != [] {
      KeptAllIff(stats[1..]);
      assert forall x :: x in stats <==> x == stats[0] || x in stats[1..];
      var keep := stats[0].source.Some? || OneLine(stats[0].path);
      if keep {
        assert ([stats[0].Parsed()] + Kept(stats[1..]))[1..] == Kept(stats[1..]);
        assert ([stats[0].Parsed()] + AllParsed(stats[1..]))[1..] == AllParsed(stats[1..]);
      } else {
        assert |Kept(stats)| < |AllParsed(stats)|;
      }
    }
  }
}
