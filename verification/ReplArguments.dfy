/** The argument splitter of the REPL: white space separates, double quotes hold together. */
module ReplArguments {
  import opened Domain

  datatype Scanner = Scanner(arguments: seq<string>, current: string, quoted: bool, started: bool)

  function Fresh(arguments: seq<string>): Scanner {
    Scanner(arguments, "", false, false)
  }

  function Next(s: Scanner, c: char): Scanner {
    if c == '"' then s.(quoted := !s.quoted, started := true)
    else if IsWhitespace(c) && !s.quoted then
      if s.started then Fresh(s.arguments + [s.current]) else s
    else s.(current := s.current + [c], started := true)
  }

  function Scan(s: Scanner, input: string): Scanner
    decreases |input|
  {
    if input == "" then s else Scan(Next(s, input[0]), input[1..])
  }

  function Close(s: Scanner): Result<seq<string>, ()> {
    if s.quoted then Err(()) else Ok(if s.started then s.arguments + [s.current] else s.arguments)
  }

  function Parse(input: string): Result<seq<string>, ()> {
    Close(Scan(Fresh([]), input))
  }

  method Split(input: string) returns (result: Result<seq<string>, ()>)
    ensures result == Parse(input)
  {
    hide IsWhitespace;
    var arguments: seq<string>, current: string, quoted, started := [], "", false, false;
    for i := 0 to |input|
      invariant Scan(Fresh([]), input) == Scan(Scanner(arguments, current, quoted, started), input[i..])
      invariant !started ==> current == ""
    {
      assert input[i..][1..] == input[i + 1..];
      var c := input[i];
      if c == '"' {
        quoted := !quoted;
        started := true;
      } else if IsWhitespace(c) && !quoted {
        if started {
          arguments, current := arguments + [current], "";
          started := false;
        }
      } else {
        current := current + [c];
        started := true;
      }
    }
    assert input[|input|..] == "";
    if quoted { return Err(()); }
    if started { arguments := arguments + [current]; }
    result := Ok(arguments);
  }

  // ---- It fails exactly on an odd number of quotes ----

  function Quotes(input: string): nat {
    if input == "" then 0 else (if input[0] == '"' then 1 else 0) + Quotes(input[1..])
  }

  lemma {:induction false} ScanCountsQuotes(s: Scanner, input: string)
    ensures Scan(s, input).quoted <==> (Quotes(input) % 2 == 0) == s.quoted
    decreases |input|
  {
    hide IsWhitespace;
    if input != "" { ScanCountsQuotes(Next(s, input[0]), input[1..]); }
  }

  lemma SucceedsIffQuotesPair(input: string)
    ensures Parse(input).Ok? <==> Quotes(input) % 2 == 0
  {
    ScanCountsQuotes(Fresh([]), input);
  }

  // ---- It inverts writing arguments down ----

  predicate QuoteFree(text: string) {
    '"' !in text
  }

  /** Neither quotes nor white space. */
  predicate Plain(text: string) {
    forall i :: 0 <= i < |text| ==> text[i] != '"' && !IsWhitespace(text[i])
  }

  /** An argument is written in pieces, each with or without quotes around it. */
  datatype Piece = Piece(text: string, quoted: bool)

  predicate Proper(piece: Piece) {
    if piece.quoted then QuoteFree(piece.text) else piece.text != "" && Plain(piece.text)
  }

  predicate IsWritten(pieces: seq<Piece>) {
    pieces != [] && forall piece :: piece in pieces ==> Proper(piece)
  }

  function Written(pieces: seq<Piece>): string {
    if pieces == [] then ""
    else (if pieces[0].quoted then "\"" + (pieces[0].text + "\"") else pieces[0].text) + Written(pieces[1..])
  }

  /** The argument that is meant. */
  function Text(pieces: seq<Piece>): string {
    if pieces == [] then "" else pieces[0].text + Text(pieces[1..])
  }

  function Texts(arguments: seq<seq<Piece>>): seq<string> {
    if arguments == [] then [] else [Text(arguments[0])] + Texts(arguments[1..])
  }

  /** The arguments as they are written, with `gap` between two of them. */
  function Line(arguments: seq<seq<Piece>>, gap: string): string {
    if arguments == [] then ""
    else if |arguments| == 1 then Written(arguments[0])
    else Written(arguments[0]) + (gap + Line(arguments[1..], gap))
  }

  lemma {:induction false} ScanAppend(s: Scanner, a: string, b: string)
    ensures Scan(s, a + b) == Scan(Scan(s, a), b)
    decreases |a|
  {
    hide Next;
    if a == "" {
      assert a + b == b;
    } else {
      assert (a + b)[1..] == a[1..] + b;
      ScanAppend(Next(s, a[0]), a[1..], b);
    }
  }

  lemma {:induction false} ScanInside(s: Scanner, text: string)
    requires s.quoted && s.started && QuoteFree(text)
    ensures Scan(s, text) == s.(current := s.current + text)
    decreases |text|
  {
    hide IsWhitespace;
    if text == "" {
      assert s.current + text == s.current;
    } else {
      assert text[0] in text;
      var s' := Next(s, text[0]);
      assert s' == s.(current := s.current + [text[0]]);
      ScanInside(s', text[1..]);
      assert s.current + [text[0]] + text[1..] == s.current + text;
    }
  }

  lemma {:induction false} ScanGap(arguments: seq<string>, gap: string)
    requires Blank(gap)
    ensures Scan(Fresh(arguments), gap) == Fresh(arguments)
  {
    if gap != "" {
      assert Next(Fresh(arguments), gap[0]) == Fresh(arguments);
      assert forall i | 0 <= i < |gap[1..]| :: gap[1..][i] == gap[i + 1];
      ScanGap(arguments, gap[1..]);
    }
  }

  lemma {:induction false} ScanPlain(s: Scanner, text: string)
    requires !s.quoted && Plain(text)
    ensures Scan(s, text) == s.(current := s.current + text, started := s.started || text != "")
    decreases |text|
  {
    if text == "" {
      assert s.current + text == s.current;
    } else {
      var s' := Next(s, text[0]);
      assert s' == s.(current := s.current + [text[0]], started := true);
      assert forall i | 0 <= i < |text[1..]| :: text[1..][i] == text[i + 1];
      ScanPlain(s', text[1..]);
      assert s.current + [text[0]] + text[1..] == s.current + text;
    }
  }

  /** A quoted text is taken as it is, whatever white space it holds. */
  lemma ScanQuote(s: Scanner, text: string)
    requires !s.quoted && QuoteFree(text)
    ensures Scan(s, "\"" + (text + "\"")) == s.(current := s.current + text, started := true)
  {
    hide IsWhitespace;
    var inside := s.(quoted := true, started := true);
    ScanAppend(s, "\"", text + "\"");
    ScanOne(s, '"');
    ScanAppend(inside, text, "\"");
    ScanInside(inside, text);
    ScanOne(inside.(current := s.current + text), '"');
  }

  /** Pieces next to each other are one argument. */
  lemma {:induction false} ScanPieces(s: Scanner, pieces: seq<Piece>)
    requires !s.quoted && forall piece :: piece in pieces ==> Proper(piece)
    ensures Scan(s, Written(pieces)) == s.(current := s.current + Text(pieces), started := s.started || pieces != [])
    decreases |pieces|
  {
    if pieces == [] {
      assert s.current + "" == s.current;
    } else {
      var piece := pieces[0];
      assert piece in pieces;
      var written := if piece.quoted then "\"" + (piece.text + "\"") else piece.text;
      if piece.quoted { ScanQuote(s, piece.text); } else { ScanPlain(s, piece.text); }
      hide Plain, QuoteFree, Proper, Scan;
      ScanAppend(s, written, Written(pieces[1..]));
      ScanPieces(s.(current := s.current + piece.text, started := true), pieces[1..]);
      assert s.current + piece.text + Text(pieces[1..]) == s.current + (piece.text + Text(pieces[1..]));
    }
  }

  lemma ScanOne(s: Scanner, c: char)
    ensures Scan(s, [c]) == Next(s, c)
  {
    hide Next;
    assert [c][1..] == "";
  }

  lemma FirstOfLine(arguments: seq<seq<Piece>>, gap: string)
    requires arguments != []
    ensures |arguments| == 1 ==>
              Line(arguments, gap) == Written(arguments[0]) && Texts(arguments) == [Text(arguments[0])]
    ensures |arguments| > 1 ==>
              && Line(arguments, gap) == Written(arguments[0]) + (gap + Line(arguments[1..], gap))
              && Texts(arguments) == [Text(arguments[0])] + Texts(arguments[1..])
  {
    assert |arguments| == 1 ==> arguments[1..] == [];
  }

  lemma {:induction false} ScanLine(done: seq<string>, arguments: seq<seq<Piece>>, gap: string)
    requires arguments != [] && gap != "" && Blank(gap)
    requires forall pieces :: pieces in arguments ==> IsWritten(pieces)
    ensures Close(Scan(Fresh(done), Line(arguments, gap))) == Ok(done + Texts(arguments))
    decreases |arguments|
  {
    assert arguments[0] in arguments;
    FirstOfLine(arguments, gap);
    hide IsWhitespace, Proper, Scan, Blank, Written, Text, Line, Texts;
    ScanPieces(Fresh(done), arguments[0]);
    var text := Text(arguments[0]);
    assert "" + text == text;
    if |arguments| > 1 {
      var rest := Line(arguments[1..], gap);
      ScanAppend(Fresh(done), Written(arguments[0]), gap + rest);
      var s := Scanner(done, text, false, true);
      ScanAppend(s, gap, rest);
      GapEnds(s, gap);
      ScanLine(done + [text], arguments[1..], gap);
      assert done + [text] + Texts(arguments[1..]) == done + Texts(arguments);
    }
  }

  lemma GapEnds(s: Scanner, gap: string)
    requires gap != "" && Blank(gap) && !s.quoted && s.started
    ensures Scan(s, gap) == Fresh(s.arguments + [s.current])
  {
    assert IsWhitespace(gap[0]) && gap[0] != '"';
    assert forall i | 0 <= i < |gap[1..]| :: gap[1..][i] == gap[i + 1];
    hide IsWhitespace;
    ScanGap(s.arguments + [s.current], gap[1..]);
  }

  /** Any arguments come back from a line they are written on, each in pieces with quotes or without,
      empty ones and ones with white space included, with any white space between them. */
  lemma RoundTrip(arguments: seq<seq<Piece>>, gap: string)
    requires gap != "" && Blank(gap)
    requires forall pieces :: pieces in arguments ==> IsWritten(pieces)
    ensures Parse(Line(arguments, gap)) == Ok(Texts(arguments))
  {
    if arguments != [] {
      ScanLine([], arguments, gap);
      assert [] + Texts(arguments) == Texts(arguments);
    }
  }

  /** A word without white space or quotes is itself, with quotes around it or without. */
  lemma OneWord(word: string)
    requires word != "" && forall c :: c in word ==> c != '"' && !IsWhitespace(c)
    ensures Parse(word) == Ok([word]) == Parse("\"" + (word + "\""))
  {
    forall i | 0 <= i < |word| ensures word[i] in word {}
    assert IsWritten([Piece(word, false)]) && IsWritten([Piece(word, true)]);
    hide IsWhitespace, IsWritten;
    WrittenOnce(word, false);
    WrittenOnce(word, true);
    RoundTrip([[Piece(word, false)]], " ");
    RoundTrip([[Piece(word, true)]], " ");
  }

  lemma WrittenOnce(text: string, quoted: bool)
    ensures Written([Piece(text, quoted)]) == if quoted then "\"" + (text + "\"") else text
    ensures Text([Piece(text, quoted)]) == text && Texts([[Piece(text, quoted)]]) == [text]
    ensures IsWhitespace(' ')
  {
    assert [Piece(text, quoted)][1..] == [] && text + "" == text;
    assert ("\"" + (text + "\"")) + "" == "\"" + (text + "\"");
  }

  // ---- Printing what was parsed ----

  /** Every argument in quotes. */
  function Quoted(arguments: seq<string>): seq<seq<Piece>> {
    if arguments == [] then [] else [[Piece(arguments[0], true)]] + Quoted(arguments[1..])
  }

  lemma {:induction false} QuotedAgain(arguments: seq<string>)
    requires forall text :: text in arguments ==> QuoteFree(text)
    ensures Texts(Quoted(arguments)) == arguments && forall pieces :: pieces in Quoted(arguments) ==> IsWritten(pieces)
  {
    hide QuoteFree;
    if arguments != [] {
      assert arguments[0] in arguments;
      WrittenOnce(arguments[0], true);
      QuotedAgain(arguments[1..]);
      assert Texts(Quoted(arguments)) == [arguments[0]] + arguments[1..];
    }
  }

  lemma {:induction false} ScanIsQuoteFree(s: Scanner, input: string)
    requires QuoteFree(s.current) && forall text :: text in s.arguments ==> QuoteFree(text)
    ensures var s' := Scan(s, input); QuoteFree(s'.current) && forall text :: text in s'.arguments ==> QuoteFree(text)
    decreases |input|
  {
    hide IsWhitespace;
    if input != "" { ScanIsQuoteFree(Next(s, input[0]), input[1..]); }
  }

  /** Printing what was parsed, in quotes, and parsing it again changes nothing. */
  lemma ParseIsStable(input: string, gap: string)
    requires Parse(input).Ok? && gap != "" && Blank(gap)
    ensures Parse(Line(Quoted(Parse(input).value), gap)) == Parse(input)
  {
    ScanIsQuoteFree(Fresh([]), input);
    QuotedAgain(Parse(input).value);
    RoundTrip(Quoted(Parse(input).value), gap);
  }
}
