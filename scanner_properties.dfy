/** Properties of the scanner specification in module Scanning: decimal numbers, what
    the token dispatch consumes, integers and file-descriptor redirections, and the
    quote/escape rules of the word automaton. */
module ScannerProperties {
  import opened Outcomes
  import opened Scanning

  // ---------------------------------------------------------------------------
  // Character classes.

  /** `is_digit` accepts exactly the ten ASCII digits. */
  lemma DigitCharacters(c: char)
    ensures IsDigit(c) <==> c in "0123456789"
  {
  }

  /** `is_whitespace` accepts exactly space, tab, CR and LF, and none of them is a digit
      or a character the scanner gives a meaning of its own. */
  lemma WhitespaceCharacters(c: char)
    ensures IsWhitespace(c) <==> c in " \t\r\n"
    ensures IsWhitespace(c) ==> !IsDigit(c) && c !in "|>\\'\""
  {
  }

  // ---------------------------------------------------------------------------
  // Decimal numbers.

  function Pow10(k: nat): (r: nat)
    ensures r >= 1
  {
    if k == 0 then 1 else 10 * Pow10(k - 1)
  }

  /** Formatting a number and reading it back gives the number. */
  lemma {:induction false} DecimalOfNat(n: nat)
    ensures DecimalValue(NatToDecimal(n)) == n
    decreases n
  {
    if n >= 10 {
      var s := NatToDecimal(n / 10);
      var t := s + [DigitChar(n % 10)];
      assert t[..|t| - 1] == s;
      DecimalOfNat(n / 10);
    }
  }

  /** `parse_u32` reads back the `{}` text of every u32. */
  lemma ParseU32OfDecimal(n: U32)
    ensures ParseU32(NatToDecimal(n)) == Ok(n)
  {
    DecimalOfNat(n);
  }

  /** A digit string without a leading zero that is not "0" has a value of at least 1. */
  lemma {:induction false} DecimalPositive(s: string)
    requires AllDigits(s) && s != [] && s[0] != '0'
    ensures DecimalValue(s) >= 1
    decreases |s|
  {
    if |s| > 1 {
      DecimalPositive(s[..|s| - 1]);
    }
  }

  /** Formatting the value of a digit string without leading zeros gives the string. */
  lemma {:induction false} DecimalRoundTrip(s: string)
    requires AllDigits(s) && s != [] && (|s| > 1 ==> s[0] != '0')
    ensures NatToDecimal(DecimalValue(s)) == s
    decreases |s|
  {
    var p := s[..|s| - 1];
    if |s| == 1 {
      assert p == [];
      assert DecimalValue(s) == s[0] as int - '0' as int;
      assert DigitChar(DecimalValue(s)) == s[0];
    } else {
      DecimalRoundTrip(p);
      DecimalPositive(p);
      var v := DecimalValue(s);
      assert v / 10 == DecimalValue(p) && v % 10 == s[|s| - 1] as int - '0' as int;
      assert DigitChar(v % 10) == s[|s| - 1];
      assert s == p + [s[|s| - 1]];
    }
  }

  /** A string of k digits has a value below 10^k. */
  lemma {:induction false} DecimalBelow(s: string, k: nat)
    requires AllDigits(s) && |s| <= k
    ensures DecimalValue(s) < Pow10(k)
    decreases |s|
  {
    if s != [] {
      DecimalBelow(s[..|s| - 1], k - 1);
    }
  }

  /** Nine digits or fewer always fit in a u32, so they never fail to parse. */
  lemma ShortDigitRunsParse(s: string)
    requires AllDigits(s) && 1 <= |s| <= 9
    ensures ParseU32(s) == Ok(DecimalValue(s))
  {
    DecimalBelow(s, 9);
    assert Pow10(9) == 1000000000;
  }

  // ---------------------------------------------------------------------------
  // End of command and the operator tokens.

  /** Only whitespace is left from pos on. */
  ghost predicate Blank(text: string, pos: nat) {
    forall i :: pos <= i < |text| ==> IsWhitespace(text[i])
  }

  /** The end-of-command token comes exactly when only whitespace is left; it has the
      empty lexeme and consumes the rest of the text. */
  lemma EndIffBlank(text: string, pos: nat)
    requires pos <= |text|
    ensures var r := ScanToken(text, pos);
      (r.result.Ok? && r.result.value.tag == EndOfCommand) <==> Blank(text, pos)
    ensures Blank(text, pos) ==> ScanToken(text, pos) == Scan(Ok(Token(EndOfCommand, "")), |text|)
  {
    WsEndSkipsWhitespace(text, pos);
  }

  /** Once the end-of-command token has been scanned, every further scan gives it again. */
  lemma EndRepeats(text: string, pos: nat)
    requires pos <= |text|
    requires ScanToken(text, pos).result.Ok? && ScanToken(text, pos).result.value.tag == EndOfCommand
    ensures var e := ScanToken(text, pos).end;
      ScanToken(text, e) == Scan(Ok(Token(EndOfCommand, "")), e)
  {
  }

  /** Whitespace skipping stops at the first non-whitespace character, so skipping again
      changes nothing and a scan from anywhere in a whitespace run is the same scan. */
  lemma SkipTwice(text: string, pos: nat)
    requires pos <= |text|
    ensures WsEnd(text, WsEnd(text, pos)) == WsEnd(text, pos)
    ensures ScanToken(text, WsEnd(text, pos)) == ScanToken(text, pos)
  {
  }

  /** `|`, `>>` and a `>` not followed by `>` are the operator tokens, and each consumes
      exactly its two or one characters. */
  lemma OperatorTokens(text: string, pos: nat)
    requires pos <= |text|
    ensures var p := WsEnd(text, pos);
      && (p < |text| && text[p] == '|' ==> ScanToken(text, pos) == Scan(Ok(Token(Pipe, "|")), p + 1))
      && (p + 1 < |text| && text[p] == '>' && text[p + 1] == '>' ==>
            ScanToken(text, pos) == Scan(Ok(Token(RedirectOutAppend, ">>")), p + 2))
      && (p < |text| && text[p] == '>' && (p + 1 == |text| || text[p + 1] != '>') ==>
            ScanToken(text, pos) == Scan(Ok(Token(RedirectOut, ">")), p + 1))
  {
  }

  /** The integer scanner's finish keeps the digits as the lexeme and adds the `>` or
      `>>` it consumes. */
  lemma FinishLexeme(digits: string, d: nat, c0: Option<char>, c1: Option<char>)
    ensures var r := IntegerFinish(digits, d, c0, c1);
      r.result.Ok? ==>
        || (c0 == Some('>') && c1 == Some('>') && r.end == d + 2 && r.result.value.lexeme == digits + ">>")
        || (c0 == Some('>') && r.end == d + 1 && r.result.value.lexeme == digits + ">")
        || (r.end == d && r.result.value.lexeme == digits)
  {
  }

  /** An integer token is spelled out by the characters it consumes. */
  lemma IntegerLexeme(text: string, pos: nat)
    requires pos <= |text|
    ensures var r := IntegerAt(text, pos);
      r.result.Ok? ==> text[pos..r.end] == r.result.value.lexeme
  {
    var d := DigitEnd(text, pos);
    var digits := text[pos..d];
    FinishLexeme(digits, d, CharAt(text, d), CharAt(text, d + 1));
    var r := IntegerAt(text, pos);
    if r.result.Ok? && r.end == d + 2 {
      assert text[pos..d + 2] == digits + text[d..d + 2];
    } else if r.result.Ok? && r.end == d + 1 {
      assert text[pos..d + 1] == digits + [text[d]];
    }
  }

  /** Every token but a Word is spelled out by the characters it consumes (after the
      skipped whitespace): its lexeme is exactly that text. */
  lemma LexemeIsConsumedText(text: string, pos: nat)
    requires pos <= |text|
    ensures var r := ScanToken(text, pos);
      r.result.Ok? && r.result.value.tag != Word ==> text[WsEnd(text, pos)..r.end] == r.result.value.lexeme
  {
    var p := WsEnd(text, pos);
    if p < |text| && text[p] != '|' && text[p] != '>' && IsDigit(text[p]) {
      IntegerLexeme(text, p);
    }
  }

  // ---------------------------------------------------------------------------
  // Integers and file-descriptor redirections.

  /** A maximal digit run scans, with nothing skipped after it, as an integer, an fd
      redirection `n>` or an fd append `n>>`, and is an error when its value does not
      fit in a u32. */
  lemma DigitRunTokens(text: string, pos: nat)
    requires pos <= |text|
    requires WsEnd(text, pos) < |text| && IsDigit(text[WsEnd(text, pos)])
    ensures var p := WsEnd(text, pos);
      var d := DigitEnd(text, p);
      var digits := text[p..d];
      var r := ScanToken(text, pos);
      && AllDigits(digits) && digits != []
      && var v := DecimalValue(digits);
      && (v > U32_MAX ==>
            r == Scan(Err("couldn't parse `" + digits + "` as an unsigned 32 bit integer"), d))
      && (v <= U32_MAX && d + 1 < |text| && text[d] == '>' && text[d + 1] == '>' ==>
            r == Scan(Ok(Token(RedirectOutAppendWithFileDescriptor(v), digits + ">>")), d + 2))
      && (v <= U32_MAX && d < |text| && text[d] == '>' && (d + 1 == |text| || text[d + 1] != '>') ==>
            r == Scan(Ok(Token(RedirectOutWithFileDescriptor(v), digits + ">")), d + 1))
      && (v <= U32_MAX && (d == |text| || text[d] != '>') ==>
            r == Scan(Ok(Token(Integer(v), digits)), d))
  {
    var p := WsEnd(text, pos);
    var d := DigitEnd(text, p);
    DigitEndSkipsDigits(text, p);
    assert text[p..d][0] == text[p];
  }

  /** `1 >` is an integer followed by a redirection: no whitespace is skipped between a
      digit run and a `>` that makes it an fd redirection. */
  lemma SpacedRedirection()
    ensures ScanToken("1 >", 0) == Scan(Ok(Token(Integer(1), "1")), 1)
    ensures ScanToken("1 >", 1) == Scan(Ok(Token(RedirectOut, ">")), 3)
  {
    DigitRunTokens("1 >", 0);
    assert "1 >"[0..1] == "1";
  }

  /** `2>> f` starts with one token: an append redirection of file descriptor 2. */
  lemma AppendWithDescriptor()
    ensures ScanToken("2>> f", 0) == Scan(Ok(Token(RedirectOutAppendWithFileDescriptor(2), "2>>")), 3)
  {
    DigitRunTokens("2>> f", 0);
    assert WsEnd("2>> f", 0) == 0;
    assert DigitEnd("2>> f", 0) == 1;
    assert "2>> f"[0..1] == "2";
    assert DecimalValue("2") == 2;
    assert "2" + ">>" == "2>>";
  }

  // ---------------------------------------------------------------------------
  // Words.

  /** A character with no quoting or escaping role. */
  predicate Plain(c: char) {
    c != '\'' && c != '"' && c != '\\'
  }

  /** Where the run of non-whitespace characters starting at pos ends. */
  function NonWsEnd(text: string, pos: nat): (e: nat)
    requires pos <= |text|
    ensures pos <= e <= |text|
    ensures forall i :: pos <= i < e ==> !IsWhitespace(text[i])
    ensures e == |text| || IsWhitespace(text[e])
    decreases |text| - pos
  {
    if pos < |text| && !IsWhitespace(text[pos]) then NonWsEnd(text, pos + 1) else pos
  }

  /** Over a run of characters without quotes, backslashes or whitespace that ends at
      whitespace or at the end of the text, the word automaton copies the run. */
  lemma {:induction false} PlainRun(text: string, pos: nat, e: nat)
    requires pos <= e <= |text|
    requires forall i :: pos <= i < e ==> Plain(text[i]) && !IsWhitespace(text[i])
    requires e == |text| || IsWhitespace(text[e])
    ensures WordAt(text, pos, Normal) == Scan(Ok(text[pos..e]), e)
    decreases e - pos
  {
    if pos < e {
      PlainRun(text, pos + 1, e);
      assert text[pos..e] == [text[pos]] + text[pos + 1..e];
    } else {
      assert text[pos..pos] == [];
    }
  }

  /** In a text without quotes or backslashes, a word is the maximal run of
      non-whitespace characters, and `|`, `>` and digits inside it are kept as they are. */
  lemma PlainWord(text: string, pos: nat)
    requires pos <= |text|
    requires var p := WsEnd(text, pos);
      p < |text| && text[p] != '|' && text[p] != '>' && !IsDigit(text[p])
    requires forall i :: pos <= i < |text| ==> Plain(text[i])
    ensures var p := WsEnd(text, pos);
      var e := NonWsEnd(text, p);
      ScanToken(text, pos) == Scan(Ok(Token(Word, text[p..e])), e)
  {
    var p := WsEnd(text, pos);
    PlainRun(text, p, NonWsEnd(text, p));
  }

  /** Inside single quotes every character up to the closing quote is copied as it is,
      backslashes and double quotes included. */
  lemma {:induction false} SingleQuoted(text: string, pos: nat, q: nat)
    requires pos <= q < |text| && text[q] == '\''
    requires forall i :: pos <= i < q ==> text[i] != '\''
    ensures WordAt(text, pos, InSingleQuote) == Prepend(text[pos..q], WordAt(text, q + 1, Normal))
    decreases q - pos
  {
    if pos == q {
      PrependNothing(WordAt(text, q + 1, Normal));
    } else {
      assert Transition(InSingleQuote, text[pos]) == Go(InSingleQuote, [text[pos]]);
      assert WordAt(text, pos, InSingleQuote) == Prepend([text[pos]], WordAt(text, pos + 1, InSingleQuote));
      SingleQuoted(text, pos + 1, q);
      PrependTwice([text[pos]], text[pos + 1..q], WordAt(text, q + 1, Normal));
      assert [text[pos]] + text[pos + 1..q] == text[pos..q];
    }
  }

  /** A single quote that is never closed is an error at the end of the text. */
  lemma {:induction false} UnclosedSingleQuote(text: string, pos: nat)
    requires pos <= |text|
    requires forall i :: pos <= i < |text| ==> text[i] != '\''
    ensures WordAt(text, pos, InSingleQuote) == Scan(Err("unclosed single quote"), |text|)
    decreases |text| - pos
  {
    if pos < |text| {
      UnclosedSingleQuote(text, pos + 1);
    }
  }

  /** Inside double quotes, characters other than `"` and `\` (single quotes and
      whitespace among them) are copied as they are up to the closing quote. */
  lemma {:induction false} DoubleQuoted(text: string, pos: nat, q: nat)
    requires pos <= q < |text| && text[q] == '"'
    requires forall i :: pos <= i < q ==> text[i] != '"' && text[i] != '\\'
    ensures WordAt(text, pos, InDoubleQuote) == Prepend(text[pos..q], WordAt(text, q + 1, Normal))
    decreases q - pos
  {
    if pos == q {
      PrependNothing(WordAt(text, q + 1, Normal));
    } else {
      assert Transition(InDoubleQuote, text[pos]) == Go(InDoubleQuote, [text[pos]]);
      assert WordAt(text, pos, InDoubleQuote) == Prepend([text[pos]], WordAt(text, pos + 1, InDoubleQuote));
      DoubleQuoted(text, pos + 1, q);
      PrependTwice([text[pos]], text[pos + 1..q], WordAt(text, q + 1, Normal));
      assert [text[pos]] + text[pos + 1..q] == text[pos..q];
    }
  }

  /** A backslash inside double quotes: `\"` and `\\` give only the second character,
      a backslash before anything else is kept along with that character. */
  lemma QuotedEscape(text: string, pos: nat)
    requires pos + 1 < |text| && text[pos] == '\\'
    ensures var c := text[pos + 1];
      WordAt(text, pos, InDoubleQuote)
        == Prepend(if c == '"' || c == '\\' then [c] else ['\\', c], WordAt(text, pos + 2, InDoubleQuote))
  {
    var c := text[pos + 1];
    var out := if c == '"' || c == '\\' then [c] else ['\\', c];
    assert WordAt(text, pos + 1, QuotedBackSpace) == Prepend(out, WordAt(text, pos + 2, InDoubleQuote));
    PrependTwice([], out, WordAt(text, pos + 2, InDoubleQuote));
    assert [] + out == out;
  }

  /** An unquoted backslash drops itself and copies the next character, whatever it is. */
  lemma Escape(text: string, pos: nat)
    requires pos + 1 < |text| && text[pos] == '\\'
    ensures WordAt(text, pos, Normal) == Prepend([text[pos + 1]], WordAt(text, pos + 2, Normal))
  {
    assert WordAt(text, pos + 1, BackSpace) == Prepend([text[pos + 1]], WordAt(text, pos + 2, Normal));
    PrependTwice([], [text[pos + 1]], WordAt(text, pos + 2, Normal));
    assert [] + [text[pos + 1]] == [text[pos + 1]];
  }

  /** Whitespace ends a word in the Normal state and only there; in every other state
      the automaton emits it. */
  lemma WhitespaceInWords(st: WordState, c: char)
    requires IsWhitespace(c)
    ensures Transition(st, c).Stop? <==> st == Normal
    ensures st != Normal ==> c in Transition(st, c).emit
  {
  }

  /** One pending character of output: after a backslash inside double quotes the next
      character may emit two characters. */
  function Credit(st: WordState): nat {
    if st == QuotedBackSpace then 1 else 0
  }

  /** The automaton emits no more characters than it consumes, up to the credit of a
      pending quoted backslash. */
  lemma {:induction false} WordOutputBound(text: string, pos: nat, st: WordState)
    requires pos <= |text|
    ensures var r := WordAt(text, pos, st);
      r.result.Ok? ==> |r.result.value| <= r.end - pos + Credit(st)
    decreases |text| - pos
  {
    if pos < |text| && Transition(st, text[pos]).Go? {
      WordOutputBound(text, pos + 1, Transition(st, text[pos]).next);
    }
  }

  /** A word's lexeme is never longer than the text it was scanned from. */
  lemma WordLexemeBound(text: string, pos: nat)
    requires pos <= |text|
    ensures var r := ScanToken(text, pos);
      r.result.Ok? && r.result.value.tag == Word ==> |r.result.value.lexeme| <= r.end - WsEnd(text, pos)
  {
    WordOutputBound(text, WsEnd(text, pos), Normal);
  }

  /** The state the automaton is in when the input runs out, or None when unquoted
      whitespace ends the word first. */
  function FinalState(text: string, pos: nat, st: WordState): Option<WordState>
    requires pos <= |text|
    decreases |text| - pos
  {
    if pos == |text| then Some(st)
    else match Transition(st, text[pos])
      case Stop => None
      case Go(next, _) => FinalState(text, pos + 1, next)
  }

  /** A word ends at unquoted whitespace or at the end of the text; it fails exactly when
      the text ends inside quotes or after a backslash, with the message for that state. */
  lemma {:induction false} WordOutcome(text: string, pos: nat, st: WordState)
    requires pos <= |text|
    ensures var r := WordAt(text, pos, st);
      var f := FinalState(text, pos, st);
      && (f.Some? <==> r.end == |text|)
      && (r.result.Err? <==> f.Some? && f.value != Normal)
      && (r.result.Err? ==> r.result == EndOfInput(f.value))
    decreases |text| - pos
  {
    if pos < |text| && Transition(st, text[pos]).Go? {
      WordOutcome(text, pos + 1, Transition(st, text[pos]).next);
    }
  }

  /** The three end-of-input errors of a word. */
  lemma WordErrors(text: string, pos: nat)
    requires pos <= |text|
    ensures var r := WordAt(text, pos, Normal);
      var f := FinalState(text, pos, Normal);
      && (r.result == Err("unclosed single quote") <==> f == Some(InSingleQuote))
      && (r.result == Err("unclosed double quote") <==> f == Some(InDoubleQuote) || f == Some(QuotedBackSpace))
      && (r.result == Err("dangling back space") <==> f == Some(BackSpace))
  {
    WordOutcome(text, pos, Normal);
  }
}
