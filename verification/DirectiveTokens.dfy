/**
 * The quote-aware tokenizer of a directive line (message-directives.ts 69-103):
 * the loop over the characters, and its meaning.  A line is a sequence of words
 * spelled as bare and quoted pieces and separated by blanks; the tokenizer gives
 * back the words, whatever the spelling.
 */
module DirectiveTokens {
  import opened Common

  const QUOTE: char := '"'

  predicate IsBlank(c: char) { c == ' ' || c == '\t' }

  // The local variables of the loop.
  datatype Scanner = Scanner(tokens: seq<string>, current: string, inQuotes: bool, started: bool) {
    function Flush(): Scanner {
      Scanner(if started || |current| > 0 then tokens + [current] else tokens, "", inQuotes, false)
    }

    function Read(ch: char): Scanner {
      if inQuotes then
        if ch == QUOTE then this.(inQuotes := false) else this.(current := current + [ch])
      else if ch == QUOTE then this.(inQuotes := true, started := true)
      else if IsBlank(ch) then Flush()
      else this.(current := current + [ch])
    }
  }

  const START := Scanner([], "", false, false)

  function Scan(s: Scanner, line: string): Scanner
    decreases |line|
  {
    if line == "" then s else Scan(s.Read(line[0]), line[1..])
  }

  /** The tokens of a line, or None for an unterminated quote. */
  function Tokenize(line: string): Option<seq<string>> {
    var s := Scan(START, line);
    if s.inQuotes then None else Some(s.Flush().tokens)
  }

  method TokenizeDirectiveLine(line: string) returns (result: Option<seq<string>>)
    ensures result == Tokenize(line)
  {
    var tokens: seq<string>, current: string := [], "";
    var inQuotes, tokenStarted := false, false;
    var i := 0;
    while i < |line|
      invariant 0 <= i <= |line|
      invariant Scan(START, line) == Scan(Scanner(tokens, current, inQuotes, tokenStarted), line[i..])
    {
      var ch := line[i];
      ghost var before := Scanner(tokens, current, inQuotes, tokenStarted);
      if inQuotes {
        if ch == QUOTE {
          inQuotes := false;
        } else {
          current := current + [ch];
        }
      } else if ch == QUOTE {
        inQuotes, tokenStarted := true, true;
      } else if IsBlank(ch) {
        if tokenStarted || |current| > 0 {
          tokens := tokens + [current];
        }
        current, tokenStarted := "", false;
      } else {
        current := current + [ch];
      }
      assert line[i..][0] == ch && line[i..][1..] == line[i + 1..];
      assert before.Read(ch) == Scanner(tokens, current, inQuotes, tokenStarted);
      i := i + 1;
    }
    if inQuotes {
      return None;
    }
    if tokenStarted || |current| > 0 {
      tokens := tokens + [current];
    }
    return Some(tokens);
  }

  // ---- what a line means ----

  datatype Piece = Bare(text: string) | Quoted(text: string) {
    predicate Legal() {
      if Bare? then forall c | c in text :: c != QUOTE && !IsBlank(c) else QUOTE !in text
    }

    function Print(): string { if Bare? then text else [QUOTE] + text + [QUOTE] }
  }

  type Word = seq<Piece>

  function Value(word: Word): string {
    if word == [] then "" else word[0].text + Value(word[1..])
  }

  function PrintWord(word: Word): string {
    if word == [] then "" else word[0].Print() + PrintWord(word[1..])
  }

  predicate AnyQuoted(word: Word) { exists p :: p in word && p.Quoted? }

  // A word that is not invisible: an empty one must be quoted.
  predicate LegalWord(word: Word) {
    (forall p | p in word :: p.Legal()) && (AnyQuoted(word) || Value(word) != "")
  }

  predicate Blank(s: string) { forall c | c in s :: IsBlank(c) }

  // Words after their gaps; only the first gap may be empty.
  datatype Spaced = Spaced(gap: string, word: Word)

  function Print(line: seq<Spaced>): string {
    if line == [] then "" else line[0].gap + PrintWord(line[0].word) + Print(line[1..])
  }

  predicate LegalLine(line: seq<Spaced>, first: bool) {
    line == [] || (Blank(line[0].gap) && (first || line[0].gap != "") && LegalWord(line[0].word) && LegalLine(line[1..], false))
  }

  function Values(line: seq<Spaced>): seq<string> {
    if line == [] then [] else [Value(line[0].word)] + Values(line[1..])
  }

  lemma {:induction false} ScanAppend(s: Scanner, a: string, b: string)
    ensures Scan(s, a + b) == Scan(Scan(s, a), b)
    decreases |a|
  {
    if a == "" {
      assert a + b == b;
    } else {
      assert (a + b)[1..] == a[1..] + b;
      ScanAppend(s.Read(a[0]), a[1..], b);
    }
  }

  // Characters that only extend the current token.
  lemma {:induction false} ScanPlain(s: Scanner, text: string)
    requires forall c | c in text :: c != QUOTE && (s.inQuotes || !IsBlank(c))
    ensures Scan(s, text) == s.(current := s.current + text)
    decreases |text|
  {
    if text != "" {
      assert text[0] in text && forall c | c in text[1..] :: c in text;
      ScanPlain(s.Read(text[0]), text[1..]);
      assert s.current + [text[0]] + text[1..] == s.current + text;
    } else {
      assert s.current + text == s.current;
    }
  }

  lemma ScanPiece(s: Scanner, p: Piece)
    requires p.Legal() && !s.inQuotes
    ensures Scan(s, p.Print()) == s.(current := s.current + p.text, started := s.started || p.Quoted?)
  {
    if p.Bare? {
      ScanPlain(s, p.text);
    } else {
      var open := s.(inQuotes := true, started := true);
      ScanAppend(s, [QUOTE] + p.text, [QUOTE]);
      ScanAppend(s, [QUOTE], p.text);
      ScanOne(s, QUOTE);
      ScanPlain(open, p.text);
      ScanOne(open.(current := s.current + p.text), QUOTE);
    }
  }

  lemma ScanOne(s: Scanner, ch: char)
    ensures Scan(s, [ch]) == s.Read(ch)
  {
    assert Scan(s.Read(ch), [ch][1..]) == s.Read(ch);
  }

  lemma {:induction false} ScanWord(s: Scanner, word: Word)
    requires (forall p | p in word :: p.Legal()) && !s.inQuotes
    ensures Scan(s, PrintWord(word)) == s.(current := s.current + Value(word), started := s.started || AnyQuoted(word))
    decreases |word|
  {
    if word == [] {
      assert s.current + "" == s.current;
    } else {
      var p := word[0];
      assert p in word;
      ScanAppend(s, p.Print(), PrintWord(word[1..]));
      ScanPiece(s, p);
      var s1 := s.(current := s.current + p.text, started := s.started || p.Quoted?);
      ScanWord(s1, word[1..]);
      assert s.current + p.text + Value(word[1..]) == s.current + Value(word);
      assert AnyQuoted(word) <==> p.Quoted? || AnyQuoted(word[1..]) by {
        assert forall q :: q in word <==> q == p || q in word[1..];
      }
    }
  }

  // A gap ends the token before it, once.
  lemma {:induction false} ScanGap(s: Scanner, gap: string)
    requires !s.inQuotes && Blank(gap)
    ensures Scan(s, gap) == if gap == "" then s else s.Flush()
    decreases |gap|
  {
    if gap != "" {
      assert gap[0] in gap;
      ScanGap(s.Read(gap[0]), gap[1..]);
    }
  }

  // One word after its gap ends the token before it and adds its own.
  lemma ScanSpaced(s: Scanner, w: Spaced, first: bool) returns (s2: Scanner)
    requires !s.inQuotes && Blank(w.gap) && (first || w.gap != "") && LegalWord(w.word)
    requires first ==> s.Flush() == s
    ensures s2 == Scan(s, w.gap + PrintWord(w.word))
    ensures !s2.inQuotes && Adds(s, s2, [Value(w.word)])
  {
    ScanAppend(s, w.gap, PrintWord(w.word));
    ScanGap(s, w.gap);
    ScanWord(s.Flush(), w.word);
    assert "" + Value(w.word) == Value(w.word);
    s2 := s.Flush().(current := Value(w.word), started := AnyQuoted(w.word));
  }

  // `end` has finished the words `values` after those of `s`.
  predicate Adds(s: Scanner, end: Scanner, values: seq<string>) {
    !end.inQuotes && end.Flush().tokens == s.Flush().tokens + values
  }

  // From a state that ended its last word, or is in it, the line adds its words.
  lemma {:induction false} ScanLine(s: Scanner, line: seq<Spaced>, first: bool)
    requires !s.inQuotes && LegalLine(line, first)
    requires first ==> s.Flush() == s
    ensures Adds(s, Scan(s, Print(line)), Values(line))
    decreases |line|
  {
    if line == [] {
      assert s.Flush().tokens + [] == s.Flush().tokens;
    } else {
      var s2 := ScanSpaced(s, line[0], first);
      hide Scan, LegalWord, PrintWord, Value, Blank;
      ScanAppend(s, line[0].gap + PrintWord(line[0].word), Print(line[1..]));
      ScanLine(s2, line[1..], false);
      AddsThen(s, s2, Scan(s2, Print(line[1..])), Value(line[0].word), Values(line[1..]));
    }
  }

  lemma AddsThen(s: Scanner, s2: Scanner, end: Scanner, value: string, values: seq<string>)
    requires Adds(s, s2, [value]) && Adds(s2, end, values)
    ensures Adds(s, end, [value] + values)
  {
    var tokens := s.Flush().tokens;
    assert tokens + [value] + values == tokens + ([value] + values);
  }

  /** Tokenizing undoes every spelling of a line of words. */
  lemma TokenizePrinted(line: seq<Spaced>)
    requires LegalLine(line, true)
    ensures Tokenize(Print(line)) == Some(Values(line))
  {
    ScanLine(START, line, true);
    assert START.Flush().tokens + Values(line) == Values(line);
  }

  function Quotes(line: string): nat {
    if line == "" then 0 else Quotes(line[1..]) + if line[0] == QUOTE then 1 else 0
  }

  lemma {:induction false} QuotesAlternate(s: Scanner, line: string)
    ensures Scan(s, line).inQuotes <==> (Quotes(line) % 2 == 1) != s.inQuotes
    decreases |line|
  {
    if line != "" {
      QuotesAlternate(s.Read(line[0]), line[1..]);
    }
  }

  /** A line is rejected exactly when its quotes do not pair up. */
  lemma UnterminatedIff(line: string)
    ensures Tokenize(line).None? <==> Quotes(line) % 2 == 1
  {
    QuotesAlternate(START, line);
  }

  lemma {:induction false} TokensHaveNoQuotes(s: Scanner, line: string)
    requires QUOTE !in s.current && forall t | t in s.tokens :: QUOTE !in t
    ensures var end := Scan(s, line); QUOTE !in end.current && forall t | t in end.tokens :: QUOTE !in t
    decreases |line|
  {
    if line != "" {
      TokensHaveNoQuotes(s.Read(line[0]), line[1..]);
    }
  }

  /** No token contains a quote, so every token can be printed quoted. */
  lemma QuotesAreStripped(line: string)
    requires Tokenize(line).Some?
    ensures forall t | t in Tokenize(line).value :: QUOTE !in t
  {
    TokensHaveNoQuotes(START, line);
  }
}
