/** The shell-like tokenizer of the command prompt (src/config/cli.rs). */
module CommandLine {
  import opened Common

  datatype ScanError = DanglingBackslash | UnclosedQuote

  /** The tokenizer between two characters. */
  datatype Scan = Scan(args: seq<string>, token: string, single: bool, double: bool, escaped: bool) {
    predicate Open() { !single && !double && !escaped }
  }

  const START := Scan([], "", false, false, false)

  function EndToken(s: Scan): Scan {
    if s.token == "" then s else s.(args := s.args + [s.token], token := "")
  }

  function Eat(s: Scan, c: char): Scan {
    if s.escaped then s.(token := s.token + [c], escaped := false)
    else if c == '\\' && !s.single then s.(escaped := true)
    else if c == '\'' && !s.double then s.(single := !s.single)
    else if c == '"' && !s.single then s.(double := !s.double)
    else if IsWhitespace(c) && !s.single && !s.double then EndToken(s)
    else s.(token := s.token + [c])
  }

  function EatAll(s: Scan, text: string): Scan
    decreases |text|
  {
    if text == "" then s else EatAll(Eat(s, text[0]), text[1..])
  }

  function Finish(s: Scan): Result<seq<string>, ScanError> {
    if s.escaped then Err(DanglingBackslash)
    else if s.single || s.double then Err(UnclosedQuote)
    else Ok(EndToken(s).args)
  }

  function Split(text: string): Result<seq<string>, ScanError> { Finish(EatAll(START, text)) }

  lemma Assoc<T>(a: seq<T>, b: seq<T>, c: seq<T>)
    ensures a + (b + c) == (a + b) + c
  {
  }

  lemma {:induction false} EatPlus(s: Scan, a: string, b: string)
    ensures EatAll(s, a + b) == EatAll(EatAll(s, a), b)
    decreases |a|
  {
    if a == "" {
      assert a + b == b;
    } else {
      EatPlus(Eat(s, a[0]), a[1..], b);
      assert (a + b)[1..] == a[1..] + b;
    }
  }

  lemma EatOne(s: Scan, text: string, i: nat)
    requires i < |text|
    ensures EatAll(s, text[..i + 1]) == Eat(EatAll(s, text[..i]), text[i])
  {
    assert text[..i + 1] == text[..i] + [text[i]];
    EatPlus(s, text[..i], [text[i]]);
  }

  method SplitCommandLine(text: string) returns (r: Result<seq<string>, ScanError>)
    ensures r == Split(text)
  {
    var args: seq<string> := [];
    var token, inSingleQuote, inDoubleQuote, escaped := "", false, false, false;
    for i := 0 to |text|
      invariant Scan(args, token, inSingleQuote, inDoubleQuote, escaped) == EatAll(START, text[..i])
    {
      EatOne(START, text, i);
      var c := text[i];
      if escaped {
        token := token + [c];
        escaped := false;
        continue;
      }
      if c == '\\' && !inSingleQuote {
        escaped := true;
      } else if c == '\'' && !inDoubleQuote {
        inSingleQuote := !inSingleQuote;
      } else if c == '"' && !inSingleQuote {
        inDoubleQuote := !inDoubleQuote;
      } else if IsWhitespace(c) && !inSingleQuote && !inDoubleQuote {
        if token != "" {
          args, token := args + [token], "";
        }
      } else {
        token := token + [c];
      }
    }
    assert text[..|text|] == text;
    if escaped {
      return Err(DanglingBackslash);
    }
    if inSingleQuote || inDoubleQuote {
      return Err(UnclosedQuote);
    }
    if token != "" {
      args := args + [token];
    }
    return Ok(args);
  }

  // ---- quoting ----------------------------------------------------------------------------

  predicate Special(c: char) { c == '\\' || c == '\'' || c == '"' || IsWhitespace(c) }

  /** How a stretch of a word can be written. A quote inside single quotes is written as '\'' and inside
      double quotes the backslash protects. */
  datatype Style = Bare | Backslash | Single | Double

  datatype Piece = Piece(style: Style, text: string)
  type Word = seq<Piece>

  /** Only text without special characters can stand bare. */
  predicate Writable(p: Piece) {
    p.style.Bare? ==> forall i :: 0 <= i < |p.text| ==> !Special(p.text[i])
  }

  function QuoteChar(style: Style, c: char): string {
    match style
    case Bare => [c]
    case Backslash => ['\\', c]
    case Single => if c == '\'' then "'\\''" else [c]
    case Double => if c == '"' || c == '\\' then ['\\', c] else [c]
  }

  function QuoteChars(style: Style, text: string): string {
    if text == "" then "" else QuoteChar(style, text[0]) + QuoteChars(style, text[1..])
  }

  function Mark(style: Style): string {
    match style
    case Single => "'"
    case Double => "\""
    case _ => ""
  }

  function QuotePiece(p: Piece): string { Mark(p.style) + QuoteChars(p.style, p.text) + Mark(p.style) }

  function Quote(w: Word): string { if w == [] then "" else QuotePiece(w[0]) + Quote(w[1..]) }

  /** What the word means. */
  function Text(w: Word): string { if w == [] then "" else w[0].text + Text(w[1..]) }

  /** The scan inside a stretch of the given style. */
  function Inside(s: Scan, style: Style): Scan { s.(single := style.Single?, double := style.Double?) }

  lemma EatSingle(s: Scan, c: char)
    ensures EatAll(s, [c]) == Eat(s, c)
  {
  }

  lemma EatPair(s: Scan, a: char, b: char)
    ensures EatAll(s, [a, b]) == Eat(Eat(s, a), b)
  {
    assert [a] + [b] == [a, b];
    EatPlus(s, [a], [b]);
    EatSingle(s, a);
    EatSingle(Eat(s, a), b);
  }

  lemma EatQuoteChar(s: Scan, style: Style, c: char)
    requires s.Open() && (style.Bare? ==> !Special(c))
    ensures EatAll(Inside(s, style), QuoteChar(style, c)) == Inside(s.(token := s.token + [c]), style)
  {
    var t := Inside(s, style);
    if style.Single? && c == '\'' {
      EatPlus(t, ['\'', '\\'], ['\'', '\'']);
      assert ['\'', '\\'] + ['\'', '\''] == QuoteChar(style, c);
      EatPair(t, '\'', '\\');
      EatPair(Eat(Eat(t, '\''), '\\'), '\'', '\'');
    } else if style.Backslash? || (style.Double? && (c == '"' || c == '\\')) {
      EatPair(t, '\\', c);
    } else {
      EatSingle(t, c);
    }
  }

  lemma {:induction false} EatQuoteChars(s: Scan, style: Style, text: string)
    requires s.Open() && Writable(Piece(style, text))
    ensures EatAll(Inside(s, style), QuoteChars(style, text)) == Inside(s.(token := s.token + text), style)
    decreases |text|
  {
    if text == "" {
      assert s.token + text == s.token;
    } else {
      EatPlus(Inside(s, style), QuoteChar(style, text[0]), QuoteChars(style, text[1..]));
      EatQuoteChar(s, style, text[0]);
      EatQuoteChars(s.(token := s.token + [text[0]]), style, text[1..]);
      Assoc(s.token, [text[0]], text[1..]);
      assert [text[0]] + text[1..] == text;
    }
  }

  lemma EatMark(s: Scan, style: Style)
    requires s.Open()
    ensures EatAll(s, Mark(style)) == Inside(s, style) && EatAll(Inside(s, style), Mark(style)) == s
  {
  }

  lemma EatPiece(s: Scan, p: Piece)
    requires s.Open() && Writable(p)
    ensures EatAll(s, QuotePiece(p)) == s.(token := s.token + p.text)
  {
    var inner := QuoteChars(p.style, p.text);
    EatMark(s, p.style);
    EatQuoteChars(s, p.style, p.text);
    EatMark(s.(token := s.token + p.text), p.style);
    EatPlus(s, Mark(p.style), inner);
    EatPlus(s, Mark(p.style) + inner, Mark(p.style));
  }

  predicate AllWritable(w: Word) { forall i :: 0 <= i < |w| ==> Writable(w[i]) }

  lemma {:induction false} EatWord(s: Scan, w: Word)
    requires s.Open() && AllWritable(w)
    ensures EatAll(s, Quote(w)) == s.(token := s.token + Text(w))
    decreases |w|
  {
    if w == [] {
      assert s.token + "" == s.token;
    } else {
      EatPlus(s, QuotePiece(w[0]), Quote(w[1..]));
      EatPiece(s, w[0]);
      EatWord(s.(token := s.token + w[0].text), w[1..]);
      Assoc(s.token, w[0].text, Text(w[1..]));
    }
  }

  // ---- round trip -------------------------------------------------------------------------

  predicate Gap(gap: string) { gap != "" && forall i :: 0 <= i < |gap| ==> IsWhitespace(gap[i]) }

  lemma {:induction false} EatGap(s: Scan, gap: string)
    requires s.Open() && forall i :: 0 <= i < |gap| ==> IsWhitespace(gap[i])
    ensures EatAll(s, gap) == if gap == "" then s else EndToken(s)
    decreases |gap|
  {
    if gap != "" {
      assert Eat(s, gap[0]) == EndToken(s);
      EatGap(EndToken(s), gap[1..]);
    }
  }

  lemma EatWordAndGap(args: seq<string>, w: Word, gap: string, rest: string)
    requires Gap(gap) && AllWritable(w)
    ensures EatAll(START.(args := args), Quote(w) + (gap + rest))
         == EatAll(START.(args := if Text(w) == "" then args else args + [Text(w)]), rest)
  {
    var s := START.(args := args);
    EatPlus(s, Quote(w), gap + rest);
    EatWord(s, w);
    assert "" + Text(w) == Text(w);
    var t := s.(token := Text(w));
    EatPlus(t, gap, rest);
    EatGap(t, gap);
  }

  /** The words of a command line, quoted, with `gap` between each two. */
  function Joined(words: seq<Word>, gap: string): string {
    if words == [] then ""
    else if |words| == 1 then Quote(words[0])
    else Quote(words[0]) + (gap + Joined(words[1..], gap))
  }

  function Texts(words: seq<Word>): seq<string> {
    if words == [] then [] else [Text(words[0])] + Texts(words[1..])
  }

  function NonEmpty(texts: seq<string>): seq<string> {
    if texts == [] then []
    else if texts[0] == "" then NonEmpty(texts[1..])
    else [texts[0]] + NonEmpty(texts[1..])
  }

  /** The last word is only taken when the text ends. */
  lemma FinishWord(args: seq<string>, w: Word)
    requires AllWritable(w)
    ensures Finish(EatAll(START.(args := args), Quote(w))) == Ok(if Text(w) == "" then args else args + [Text(w)])
  {
    EatWord(START.(args := args), w);
    assert "" + Text(w) == Text(w);
  }

  lemma {:induction false} FinishJoined(args: seq<string>, words: seq<Word>, gap: string)
    requires Gap(gap) && forall i :: 0 <= i < |words| ==> AllWritable(words[i])
    ensures Finish(EatAll(START.(args := args), Joined(words, gap))) == Ok(args + NonEmpty(Texts(words)))
    decreases |words|
  {
    if words == [] {
      assert args + [] == args;
    } else {
      var text := Text(words[0]);
      var now := if text == "" then args else args + [text];
      Assoc(args, [text], NonEmpty(Texts(words[1..])));
      assert Texts(words)[1..] == Texts(words[1..]);
      if |words| == 1 {
        FinishWord(args, words[0]);
        assert words[1..] == [] && [text] + [] == [text] && args + [] == args;
      } else {
        EatWordAndGap(args, words[0], gap, Joined(words[1..], gap));
        FinishJoined(now, words[1..], gap);
      }
    }
  }

  /** Whatever mixture of quoting its words are written in, a line splits into them, but empty ones vanish. */
  lemma SplitOfJoined(words: seq<Word>, gap: string)
    requires Gap(gap) && forall i :: 0 <= i < |words| ==> AllWritable(words[i])
    ensures Split(Joined(words, gap)) == Ok(NonEmpty(Texts(words)))
  {
    FinishJoined([], words, gap);
    assert [] + NonEmpty(Texts(words)) == NonEmpty(Texts(words));
  }

  predicate NoneEmpty(tokens: seq<string>) { forall i :: 0 <= i < |tokens| ==> tokens[i] != "" }

  lemma {:induction false} NonEmptyLength(texts: seq<string>)
    ensures |NonEmpty(texts)| <= |texts|
    ensures |NonEmpty(texts)| == |texts| <==> NoneEmpty(texts)
    ensures |NonEmpty(texts)| == |texts| ==> NonEmpty(texts) == texts
  {
    if texts != [] {
      NonEmptyLength(texts[1..]);
      assert forall i :: 1 <= i < |texts| ==> texts[i] == texts[1..][i - 1];
    }
  }

  lemma {:induction false} TextsLength(words: seq<Word>)
    ensures |Texts(words)| == |words|
    ensures forall i :: 0 <= i < |words| ==> Texts(words)[i] == Text(words[i])
  {
    if words != [] {
      TextsLength(words[1..]);
    }
  }

  /** So the words come back exactly if and only if none of them is empty. */
  lemma RoundTripIff(words: seq<Word>, gap: string)
    requires Gap(gap) && forall i :: 0 <= i < |words| ==> AllWritable(words[i])
    ensures Split(Joined(words, gap)) == Ok(Texts(words))
       <==> forall i :: 0 <= i < |words| ==> Text(words[i]) != ""
  {
    SplitOfJoined(words, gap);
    NonEmptyLength(Texts(words));
    TextsLength(words);
  }

  // ---- splitting piecewise ----------------------------------------------------------------

  /** The tokens that were complete before never matter again. */
  lemma {:induction false} EarlierArgs(args: seq<string>, s: Scan, text: string)
    ensures EatAll(s.(args := args + s.args), text)
         == EatAll(s, text).(args := args + EatAll(s, text).args)
    decreases |text|
  {
    if text != "" {
      var t := Eat(s, text[0]);
      assert args + (s.args + [s.token]) == (args + s.args) + [s.token];
      assert Eat(s.(args := args + s.args), text[0]) == t.(args := args + t.args);
      EarlierArgs(args, t, text[1..]);
    }
  }

  /** The characters between words: Unicode's white space. */
  const BLANKS := {'\t', '\n', '\U{B}', '\U{C}', '\r', ' ', '\U{85}', '\U{A0}', '\U{1680}', '\U{2000}', '\U{2001}',
    '\U{2002}', '\U{2003}', '\U{2004}', '\U{2005}', '\U{2006}', '\U{2007}', '\U{2008}', '\U{2009}', '\U{200A}',
    '\U{2028}', '\U{2029}', '\U{202F}', '\U{205F}', '\U{3000}'}

  lemma BlankIff(c: char)
    ensures IsWhitespace(c) <==> c in BLANKS
  {
  }

  /** A complete command line followed by a blank and any other: the tokens of both, or its error. */
  lemma SplitPlus(a: string, c: char, b: string)
    requires Split(a).Ok? && c in BLANKS
    ensures Split(a + [c] + b)
         == if Split(b).Ok? then Ok(Split(a).value + Split(b).value) else Split(b)
  {
    var s := EatAll(START, a);
    var args := Split(a).value;
    BlankIff(c);
    EatPlus(START, a + [c], b);
    EatPlus(START, a, [c]);
    EatSingle(s, c);
    assert args + START.args == args;
    EarlierArgs(args, START, b);
    var e := EatAll(START, b);
    assert args + (e.args + [e.token]) == (args + e.args) + [e.token];
  }

  lemma {:induction false} EatenTokens(s: Scan, text: string)
    requires NoneEmpty(s.args)
    ensures NoneEmpty(EatAll(s, text).args)
    decreases |text|
  {
    if text != "" {
      assert NoneEmpty(EndToken(s).args);
      EatenTokens(Eat(s, text[0]), text[1..]);
    }
  }

  function Escaped(tokens: seq<string>): seq<Word> {
    if tokens == [] then [] else [[Piece(Backslash, tokens[0])]] + Escaped(tokens[1..])
  }

  lemma {:induction false} EscapedTexts(tokens: seq<string>)
    ensures Texts(Escaped(tokens)) == tokens
    ensures forall i :: 0 <= i < |Escaped(tokens)| ==> AllWritable(Escaped(tokens)[i])
  {
    if tokens != [] {
      EscapedTexts(tokens[1..]);
      assert Text([Piece(Backslash, tokens[0])]) == tokens[0] + "" == tokens[0];
    }
  }

  /** Normal form: whatever a line splits into, writing that with escapes splits into it again. */
  lemma SplitAgain(text: string)
    requires Split(text).Ok?
    ensures Split(Joined(Escaped(Split(text).value), " ")) == Split(text)
  {
    var tokens := Split(text).value;
    EatenTokens(START, text);
    assert NoneEmpty(tokens);
    EscapedTexts(tokens);
    SplitOfJoined(Escaped(tokens), " ");
    NonEmptyLength(tokens);
  }

  // ---- lines that are not complete --------------------------------------------------------

  /** The scan of a line of complete words is outside quotes. */
  lemma OpenAfter(words: seq<Word>, gap: string)
    requires Gap(gap) && forall i :: 0 <= i < |words| ==> AllWritable(words[i])
    ensures EatAll(START, Joined(words, gap)).Open()
  {
    SplitOfJoined(words, gap);
  }

  /** A backslash at the end of a line of complete words has nothing to escape. */
  lemma DanglingBackslashFails(words: seq<Word>, gap: string)
    requires Gap(gap) && forall i :: 0 <= i < |words| ==> AllWritable(words[i])
    ensures Split(Joined(words, gap) + "\\") == Err(DanglingBackslash)
  {
    var line := Joined(words, gap);
    OpenAfter(words, gap);
    EatPlus(START, line, "\\");
    EatSingle(EatAll(START, line), '\\');
  }

  lemma {:induction false} EatQuoted(s: Scan, quote: char, text: string)
    requires !s.escaped && s.single == (quote == '\'') && s.double == (quote == '"') && (s.single || s.double)
    requires forall i :: 0 <= i < |text| ==> text[i] != quote && text[i] != '\\'
    ensures EatAll(s, text) == s.(token := s.token + text)
    decreases |text|
  {
    if text == "" {
      assert s.token + text == s.token;
    } else {
      EatQuoted(s.(token := s.token + [text[0]]), quote, text[1..]);
      Assoc(s.token, [text[0]], text[1..]);
      assert [text[0]] + text[1..] == text;
    }
  }

  /** A quote that is opened behind complete words and not closed. */
  lemma UnclosedQuoteFails(words: seq<Word>, gap: string, quote: char, text: string)
    requires Gap(gap) && forall i :: 0 <= i < |words| ==> AllWritable(words[i])
    requires quote == '\'' || quote == '"'
    requires forall i :: 0 <= i < |text| ==> text[i] != quote && text[i] != '\\'
    ensures Split(Joined(words, gap) + ([quote] + text)) == Err(UnclosedQuote)
  {
    var line := Joined(words, gap);
    OpenAfter(words, gap);
    EatPlus(START, line, [quote] + text);
    EatPlus(EatAll(START, line), [quote], text);
    EatSingle(EatAll(START, line), quote);
    EatQuoted(Eat(EatAll(START, line), quote), quote, text);
  }
}
