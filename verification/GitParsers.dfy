/**
 * The parsers of git's NUL-separated formats (git-manager.ts 105-179): the index
 * loops of parseStatus, restAfterFields and parseNumstat, and the functions they
 * compute.
 */
module GitParsers {
  import opened Common
  import opened TextLines

  const NUL: char := '\0'

  // ---- numbers ----

  predicate IsDigit(c: char) { '0' <= c <= '9' }

  predicate IsNumber(s: string) { s != "" && forall c | c in s :: IsDigit(c) }

  function Digit(d: nat): char
    requires d < 10
  {
    ('0' as int + d) as char
  }

  function Decimal(n: nat): (s: string)
    ensures IsNumber(s)
  {
    if n < 10 then [Digit(n)] else Decimal(n / 10) + [Digit(n % 10)]
  }

  // Number(...) of a digit string.
  function Number(s: string): nat {
    if s == "" || !IsDigit(s[|s| - 1]) then 0
    else 10 * Number(s[..|s| - 1]) + (s[|s| - 1] as int - '0' as int)
  }

  lemma {:induction false} NumberOfDecimal(n: nat)
    ensures Number(Decimal(n)) == n
  {
    var s := Decimal(n);
    if n < 10 {
      assert s[..0] == "";
    } else {
      NumberOfDecimal(n / 10);
      assert s[..|s| - 1] == Decimal(n / 10);
    }
  }

  // ---- status ----

  datatype Entry = Entry(code: string, path: string)

  // `clean` is entries == [].
  datatype Status = Status(branch: Option<string>, upstream: Option<string>, ahead: nat, behind: nat, entries: seq<Entry>)

  const NO_STATUS := Status(None, None, 0, 0, [])

  const HEAD: string := "# branch.head "
  const UPSTREAM: string := "# branch.upstream "
  const AB: string := "# branch.ab "

  predicate Starts(s: string, prefix: string) { prefix <= s }

  function NonEmpty(parts: seq<string>): seq<string> {
    if parts == [] then [] else (if parts[0] == "" then [] else [parts[0]]) + NonEmpty(parts[1..])
  }

  // A header record may hold several lines; empty parts are dropped.
  function Pieces(record: string): seq<string> {
    NonEmpty(if Starts(record, "#") then Split(record, '\n') else [record])
  }

  function Flatten(records: seq<string>): seq<string> {
    if records == [] then [] else Pieces(records[0]) + Flatten(records[1..])
  }

  function Records(output: string): seq<string> { Flatten(Split(output, NUL)) }

  // record.indexOf(' ', position)
  function SpaceFrom(record: string, position: nat): (i: nat)
    requires position <= |record|
    ensures position <= i <= |record| && ' ' !in record[position..i] && (i < |record| ==> record[i] == ' ')
    decreases |record| - position
  {
    if position == |record| || record[position] == ' ' then position
    else
      var i := SpaceFrom(record, position + 1);
      assert record[position..i] == [record[position]] + record[position + 1..i];
      i
  }

  // What follows the first `count` space-terminated fields.
  function Rest(record: string, count: nat): string
    decreases count
  {
    if count == 0 then record
    else
      var i := SpaceFrom(record, 0);
      if i == |record| then "" else Rest(record[i + 1..], count - 1)
  }

  method RestAfterFields(record: string, count: nat) returns (rest: string)
    ensures rest == Rest(record, count)
  {
    var position := 0;
    for field := 0 to count
      invariant 0 <= position <= |record|
      invariant Rest(record[position..], count - field) == Rest(record, count)
    {
      var space := SpaceFrom(record, position);
      SpaceInSlice(record, position);
      if space == |record| {
        return "";
      }
      assert record[position..][space - position + 1..] == record[space + 1..];
      position := space + 1;
    }
    return record[position..];
  }

  lemma {:induction false} SpaceInSlice(record: string, position: nat)
    requires position <= |record|
    ensures SpaceFrom(record[position..], 0) == SpaceFrom(record, position) - position
    decreases |record| - position
  {
    if position < |record| && record[position] != ' ' {
      SpaceInSlice(record, position + 1);
      SpaceStep(record[position..]);
      assert record[position..][1..] == record[position + 1..];
    }
  }

  lemma SpaceStep(s: string)
    requires s != "" && s[0] != ' '
    ensures SpaceFrom(s, 0) == 1 + SpaceFrom(s[1..], 0)
  {
    var i, j := SpaceFrom(s, 1), SpaceFrom(s[1..], 0);
    assert forall k | 1 <= k < i :: s[k] == s[1..i][k - 1];
    assert forall k | 0 <= k < j :: s[1..][k] == s[1..][0..j][k];
  }

  function TrailingDigits(s: string): (n: nat)
    ensures n <= |s| && (forall c | c in s[|s| - n..] :: IsDigit(c)) && (n < |s| ==> !IsDigit(s[|s| - n - 1]))
  {
    if s == "" || !IsDigit(s[|s| - 1]) then 0
    else
      var n := 1 + TrailingDigits(s[..|s| - 1]);
      assert s[|s| - n..] == s[..|s| - 1][|s| - n..] + [s[|s| - 1]];
      n
  }

  // The match of /\+(\d+) -(\d+)$/: it can only end in the last digits.
  function AheadBehind(record: string): (nat, nat) {
    var n := TrailingDigits(record);
    var front := record[..|record| - n];
    if n == 0 || !(" -" <= front[if |front| >= 2 then |front| - 2 else 0..]) then (0, 0)
    else
      var ahead := front[..|front| - 2];
      var m := TrailingDigits(ahead);
      if m == 0 || m == |ahead| || ahead[|ahead| - m - 1] != '+' then (0, 0)
      else (Number(ahead[|ahead| - m..]), Number(record[|record| - n..]))
  }

  function Code(record: string): string {
    if |record| >= 4 then record[2..4] else if |record| > 2 then record[2..] else ""
  }

  function WithEntry(st: Status, code: string, path: string): Status {
    st.(entries := st.entries + [Entry(code, path)])
  }

  function ParseRecords(records: seq<string>, st: Status): Status
    decreases |records|
  {
    if records == [] then st
    else
      var r := records[0];
      if Starts(r, HEAD) then
        var name := r[|HEAD|..];
        ParseRecords(records[1..], st.(branch := if name == "(detached)" then None else Some(name)))
      else if Starts(r, UPSTREAM) then ParseRecords(records[1..], st.(upstream := Some(r[|UPSTREAM|..])))
      else if Starts(r, AB) then
        ParseRecords(records[1..], st.(ahead := AheadBehind(r).0, behind := AheadBehind(r).1))
      else if Starts(r, "1 ") then ParseRecords(records[1..], WithEntry(st, Code(r), Rest(r, 8)))
      else if Starts(r, "2 ") then
        ParseRecords(if |records| > 1 then records[2..] else [], WithEntry(st, Code(r), Rest(r, 9)))
      else if Starts(r, "u ") then ParseRecords(records[1..], WithEntry(st, Code(r), Rest(r, 10)))
      else if Starts(r, "? ") then ParseRecords(records[1..], WithEntry(st, "??", r[2..]))
      else ParseRecords(records[1..], st)
  }

  method ParseStatus(output: string) returns (st: Status)
    ensures st == ParseRecords(Records(output), NO_STATUS)
  {
    hide Records, Rest, AheadBehind, Code;
    var records := Records(output);
    st := NO_STATUS;
    var index := 0;
    while index < |records|
      invariant 0 <= index <= |records|
      invariant ParseRecords(records[index..], st) == ParseRecords(records, NO_STATUS)
    {
      var record := records[index];
      assert records[index..][0] == record && records[index..][1..] == records[index + 1..];
      if Starts(record, HEAD) {
        var name := record[|HEAD|..];
        st := st.(branch := if name == "(detached)" then None else Some(name));
      } else if Starts(record, UPSTREAM) {
        st := st.(upstream := Some(record[|UPSTREAM|..]));
      } else if Starts(record, AB) {
        var ab := AheadBehind(record);
        st := st.(ahead := ab.0, behind := ab.1);
      } else if Starts(record, "1 ") {
        var path := RestAfterFields(record, 8);
        st := WithEntry(st, Code(record), path);
      } else if Starts(record, "2 ") {
        var path := RestAfterFields(record, 9);
        st := WithEntry(st, Code(record), path);
        if index + 1 < |records| {
          assert records[index..][2..] == records[index + 2..];
          index := index + 1;
        } else {
          assert records[index + 1..] == [];
        }
      } else if Starts(record, "u ") {
        var path := RestAfterFields(record, 10);
        st := WithEntry(st, Code(record), path);
      } else if Starts(record, "? ") {
        st := WithEntry(st, "??", record[2..]);
      }
      index := index + 1;
    }
  }

  // ---- numstat ----

  datatype Numstat = Numstat(path: string, additions: nat, deletions: nat)

  // A line terminator, which `.` does not match.
  predicate IsTerminator(c: char) { c == '\n' || c == '\r' || c == '\U{2028}' || c == '\U{2029}' }

  predicate OneLine(s: string) { forall c | c in s :: !IsTerminator(c) }

  // A count field (\d+|-), the tab after it, and the rest.
  function Count(s: string): Option<(nat, string)> {
    var i := TabAt(s);
    if i == |s| || !(s[..i] == "-" || IsNumber(s[..i])) then None
    else Some((if s[..i] == "-" then 0 else Number(s[..i]), s[i + 1..]))
  }

  function TabAt(s: string): (i: nat)
    ensures i <= |s| && '\t' !in s[..i] && (i < |s| ==> s[i] == '\t')
  {
    if s == "" || s[0] == '\t' then 0
    else
      var i := 1 + TabAt(s[1..]);
      assert s[..i] == [s[0]] + s[1..][..i - 1];
      i
  }

  // The match of /^(\d+|-)\t(\d+|-)\t(.*)$/.
  function MatchStat(token: string): Option<Numstat> {
    var first := Count(token);
    if first.None? then None
    else
      var second := Count(first.value.1);
      if second.None? || !OneLine(second.value.1) then None
      else Some(Numstat(second.value.1, first.value.0, second.value.0))
  }

  function ParseTokens(tokens: seq<string>): seq<Numstat>
    decreases |tokens|
  {
    if tokens == [] then []
    else
      var found := if tokens[0] == "" then None else MatchStat(tokens[0]);
      if found.None? then ParseTokens(tokens[1..])
      else if found.value.path != "" then [found.value] + ParseTokens(tokens[1..])
      else if |tokens| < 3 then []
      else
        (if tokens[2] == "" then [] else [found.value.(path := tokens[2])]) + ParseTokens(tokens[3..])
  }

  method ParseNumstat(output: string) returns (entries: seq<Numstat>)
    ensures entries == ParseTokens(Split(output, NUL))
  {
    hide Split, MatchStat;
    var tokens := Split(output, NUL);
    entries := [];
    var index := 0;
    while index < |tokens|
      invariant 0 <= index
      invariant entries + ParseTokens(From(tokens, index)) == ParseTokens(tokens)
    {
      var token := tokens[index];
      TokenStep(tokens, index);
      if token == "" {
        index := index + 1;
        continue;
      }
      var found := MatchStat(token);
      if found.None? {
        index := index + 1;
        continue;
      }
      var entry := found.value;
      if entry.path == "" {
        index := index + 2;
        if index >= |tokens| || tokens[index] == "" {
          index := index + 1;
          continue;
        }
        entry := entry.(path := tokens[index]);
      }
      index := index + 1;
      Appended(entries, entry, ParseTokens(From(tokens, index)));
      entries := entries + [entry];
    }
    assert entries + [] == entries;
  }

  function From(tokens: seq<string>, index: nat): seq<string> {
    if index <= |tokens| then tokens[index..] else []
  }

  lemma Appended(entries: seq<Numstat>, entry: Numstat, rest: seq<Numstat>)
    ensures entries + [entry] + rest == entries + ([entry] + rest)
  {
  }

  // What one round of the loop reads.
  lemma TokenStep(tokens: seq<string>, index: nat)
    requires index < |tokens|
    ensures var found := if tokens[index] == "" then None else MatchStat(tokens[index]);
      ParseTokens(From(tokens, index)) ==
        if found.None? then ParseTokens(From(tokens, index + 1))
        else if found.value.path != "" then [found.value] + ParseTokens(From(tokens, index + 1))
        else if index + 2 >= |tokens| || tokens[index + 2] == "" then ParseTokens(From(tokens, index + 3))
        else [found.value.(path := tokens[index + 2])] + ParseTokens(From(tokens, index + 3))
  {
    hide MatchStat;
    var rest := tokens[index..];
    assert rest[1..] == From(tokens, index + 1);
    if |rest| >= 3 {
      assert rest[3..] == From(tokens, index + 3);
      assert [] + ParseTokens(rest[3..]) == ParseTokens(rest[3..]);
    }
  }
}
