/** The scanner of src/scanner.rs: a character cursor with one character of
    lookahead that turns a command line into tokens.

    The first half of the module is the scanner's specification as pure functions over
    the command text and a position in it (`WsEnd`, `IntegerAt`, `WordAt`, `ScanToken`);
    the second half is the `Scanner` class, whose methods follow the Rust code step by
    step and are proved to agree with those functions. Every scanning function returns
    a `Scan`: the outcome together with the position the scanner stopped at. */
module Scanning {
  import opened Outcomes

  /** u32::MAX: the largest value `str::parse::<u32>` accepts. */
  const U32_MAX: nat := 0xFFFF_FFFF

  type U32 = n: nat | n <= U32_MAX

  /** The kinds of tokens. */
  datatype TokenTag =
    | EndOfCommand
    | Integer(n: U32)
    | Pipe
    | RedirectOut
    | RedirectOutAppend
    | RedirectOutWithFileDescriptor(fd: U32)
    | RedirectOutAppendWithFileDescriptor(fd: U32)
    | Word

  /** A token: its tag and its text (for a Word, the unquoted, unescaped text). */
  datatype Token = Token(tag: TokenTag, lexeme: string)

  /** The states of the quote-aware word automaton. */
  datatype WordState = Normal | InSingleQuote | InDoubleQuote | BackSpace | QuotedBackSpace

  /** The outcome of a scanning step and the position just past what it consumed. */
  datatype Scan<T> = Scan(result: Result<T, string>, end: nat)

  /** `is_digit`: an ASCII decimal digit. */
  predicate IsDigit(c: char)
  {
    '0' <= c <= '9'
  }

  /** `is_whitespace`: a space, tab, carriage return or line feed, none of which is a
      digit or a character the scanner gives a meaning of its own. */
  predicate IsWhitespace(c: char)
  {
    c == ' ' || c == '\t' || c == '\r' || c == '\n'
  }

  predicate AllDigits(s: string) {
    forall i :: 0 <= i < |s| ==> IsDigit(s[i])
  }

  // ---------------------------------------------------------------------------
  // Decimal numbers: parse_u32 and the `{}` formatting of a u32.

  /** The value of a string of decimal digits, most significant digit first. */
  function DecimalValue(s: string): nat
    requires AllDigits(s)
    decreases |s|
  {
    if s == [] then 0 else 10 * DecimalValue(s[..|s| - 1]) + (s[|s| - 1] as int - '0' as int)
  }

  function DigitChar(d: nat): (c: char)
    requires d < 10
    ensures IsDigit(c)
  {
    ('0' as int + d) as char
  }

  /** The decimal text of n, without leading zeros. */
  function NatToDecimal(n: nat): (s: string)
    ensures s != [] && AllDigits(s)
    ensures |s| > 1 ==> s[0] != '0'
  {
    if n < 10 then [DigitChar(n)] else NatToDecimal(n / 10) + [DigitChar(n % 10)]
  }

  /** `str::parse::<u32>`: an optional `+`, then one or more decimal digits whose value
      fits in 32 bits; anything else is an error. */
  function ParseU32(s: string): (r: Result<U32, string>)
    ensures AllDigits(s) ==> (r.Ok? <==> s != [] && DecimalValue(s) <= U32_MAX)
    ensures AllDigits(s) && r.Ok? ==> r.value == DecimalValue(s)
    ensures r.Err? ==> r.error == "couldn't parse `" + s + "` as an unsigned 32 bit integer"
  {
    var digits := if s != [] && s[0] == '+' then s[1..] else s;
    if digits != [] && AllDigits(digits) && DecimalValue(digits) <= U32_MAX then
      Ok(DecimalValue(digits))
    else
      Err("couldn't parse `" + s + "` as an unsigned 32 bit integer")
  }

  /** The `Display` text of a tag. */
  function TagDisplay(tag: TokenTag): (r: string)
    ensures r != []
    ensures IsDigit(r[0]) <==> tag.Integer? || tag.RedirectOutWithFileDescriptor? || tag.RedirectOutAppendWithFileDescriptor?
  {
    match tag
    case EndOfCommand => "End of Command"
    case Integer(i) => NatToDecimal(i)
    case Pipe => "|"
    case RedirectOut => ">"
    case RedirectOutAppend => ">>"
    case RedirectOutWithFileDescriptor(i) => NatToDecimal(i) + ">"
    case RedirectOutAppendWithFileDescriptor(i) => NatToDecimal(i) + ">>"
    case Word => "Word"
  }

  /** The derived `Debug` text of a tag. */
  function TagDebug(tag: TokenTag): (r: string)
    ensures r != []
    ensures tag.Integer? ==> r == "Integer(" + TagDisplay(tag) + ")"
    ensures tag.RedirectOutWithFileDescriptor? ==> r == "RedirectOutWithFileDescriptor(" + TagDisplay(Integer(tag.fd)) + ")"
    ensures tag.RedirectOutAppendWithFileDescriptor? ==> r == "RedirectOutAppendWithFileDescriptor(" + TagDisplay(Integer(tag.fd)) + ")"
    ensures tag.EndOfCommand? || tag.Pipe? || tag.RedirectOut? || tag.RedirectOutAppend? || tag.Word? ==> '(' !in r
  {
    match tag
    case EndOfCommand => "EndOfCommand"
    case Integer(i) => "Integer(" + NatToDecimal(i) + ")"
    case Pipe => "Pipe"
    case RedirectOut => "RedirectOut"
    case RedirectOutAppend => "RedirectOutAppend"
    case RedirectOutWithFileDescriptor(i) => "RedirectOutWithFileDescriptor(" + NatToDecimal(i) + ")"
    case RedirectOutAppendWithFileDescriptor(i) => "RedirectOutAppendWithFileDescriptor(" + NatToDecimal(i) + ")"
    case Word => "Word"
  }

  // ---------------------------------------------------------------------------
  // Specification of the scanner over the command text, from a position in it.

  /** Where the whitespace run starting at pos ends. */
  function WsEnd(text: string, pos: nat): (e: nat)
    requires pos <= |text|
    ensures pos <= e <= |text|
    ensures e == |text| || !IsWhitespace(text[e])
    decreases |text| - pos
  {
    if pos < |text| && IsWhitespace(text[pos]) then WsEnd(text, pos + 1) else pos
  }

  /** Everything the whitespace run from pos covers is whitespace. */
  lemma {:induction false} WsEndSkipsWhitespace(text: string, pos: nat)
    requires pos <= |text|
    ensures forall i :: pos <= i < WsEnd(text, pos) ==> IsWhitespace(text[i])
    decreases |text| - pos
  {
    if pos < |text| && IsWhitespace(text[pos]) {
      WsEndSkipsWhitespace(text, pos + 1);
    }
  }

  /** Where the digit run starting at pos ends. */
  function DigitEnd(text: string, pos: nat): (e: nat)
    requires pos <= |text|
    ensures pos <= e <= |text|
    ensures e == |text| || !IsDigit(text[e])
    decreases |text| - pos
  {
    if pos < |text| && IsDigit(text[pos]) then DigitEnd(text, pos + 1) else pos
  }

  /** Everything the digit run from pos covers is a digit. */
  lemma {:induction false} DigitEndSkipsDigits(text: string, pos: nat)
    requires pos <= |text|
    ensures forall i :: pos <= i < DigitEnd(text, pos) ==> IsDigit(text[i])
    decreases |text| - pos
  {
    if pos < |text| && IsDigit(text[pos]) {
      DigitEndSkipsDigits(text, pos + 1);
    }
  }

  /** The end of the integer scanner, once the digit run digits has been read and the
      scanner stands at d in front of c0 and c1: a `>` or `>>` directly after the digits
      turns them into a file-descriptor redirection. */
  function IntegerFinish(digits: string, d: nat, c0: Option<char>, c1: Option<char>): (r: Scan<Token>)
    ensures r.result.Ok? <==> ParseU32(digits).Ok?
    ensures r.result.Err? ==> r == Scan(Err(ParseU32(digits).error), d)
    ensures r.result.Ok? ==> d <= r.end <= d + 2 && |r.result.value.lexeme| == |digits| + (r.end - d)
    ensures r.result.Ok? ==> (r.end == d <==> r.result.value.tag == Integer(ParseU32(digits).value))
  {
    var p := ParseU32(digits);
    if p.Err? then Scan(Err(p.error), d)
    else if c0 == Some('>') && c1 == Some('>') then
      Scan(Ok(Token(RedirectOutAppendWithFileDescriptor(p.value), digits + ">>")), d + 2)
    else if c0 == Some('>') then
      Scan(Ok(Token(RedirectOutWithFileDescriptor(p.value), digits + ">")), d + 1)
    else
      Scan(Ok(Token(Integer(p.value), digits)), d)
  }

  /** The integer scanner run from pos: the digit run there, then its finish. */
  function IntegerAt(text: string, pos: nat): (r: Scan<Token>)
    requires pos <= |text|
    ensures DigitEnd(text, pos) <= r.end <= |text|
    ensures r.result.Ok? ==> r.result.value.tag.Integer? || r.result.value.tag.RedirectOutWithFileDescriptor?
                             || r.result.value.tag.RedirectOutAppendWithFileDescriptor?
  {
    var d := DigitEnd(text, pos);
    IntegerFinish(text[pos..d], d, CharAt(text, d), CharAt(text, d + 1))
  }

  /** One move of the word automaton. */
  datatype Move = Stop | Go(next: WordState, emit: string)

  /** The word automaton's transition table: from state st on character c, either the
      word ends (unquoted whitespace) or the automaton moves to a state and emits text. */
  function Transition(st: WordState, c: char): (r: Move)
    ensures r.Stop? <==> st == Normal && IsWhitespace(c)
    ensures r.Go? && r.emit != [] ==> |r.emit| <= 2 && r.emit[|r.emit| - 1] == c
    ensures r.Go? && |r.emit| == 2 ==> st == QuotedBackSpace && r.emit[0] == '\\'
    ensures r.Go? && r.emit == [] ==> (c == '\\' || c == '\'' || c == '"') && st != BackSpace && st != QuotedBackSpace
  {
    match st
    case Normal =>
      if c == '\\' then Go(BackSpace, [])
      else if c == '\'' then Go(InSingleQuote, [])
      else if c == '"' then Go(InDoubleQuote, [])
      else if IsWhitespace(c) then Stop
      else Go(Normal, [c])
    case InSingleQuote =>
      if c == '\'' then Go(Normal, []) else Go(InSingleQuote, [c])
    case InDoubleQuote =>
      if c == '\\' then Go(QuotedBackSpace, [])
      else if c == '"' then Go(Normal, [])
      else Go(InDoubleQuote, [c])
    case BackSpace =>
      Go(Normal, [c])
    case QuotedBackSpace =>
      if c == '"' || c == '\\' then Go(InDoubleQuote, [c]) else Go(InDoubleQuote, ['\\', c])
  }

  /** What the word automaton yields when the input runs out in state st. */
  function EndOfInput(st: WordState): (r: Result<string, string>)
    ensures r.Ok? <==> st == Normal
    ensures r.Ok? ==> r.value == []
    ensures r.Err? ==> r.error in {"unclosed single quote", "unclosed double quote", "dangling back space"}
  {
    match st
    case Normal => Ok([])
    case InSingleQuote => Err("unclosed single quote")
    case InDoubleQuote => Err("unclosed double quote")
    case QuotedBackSpace => Err("unclosed double quote")
    case BackSpace => Err("dangling back space")
  }

  /** Puts `out` in front of the word of a later scan. */
  function Prepend(out: string, r: Scan<string>): Scan<string> {
    Scan(if r.result.Ok? then Ok(out + r.result.value) else r.result, r.end)
  }

  lemma PrependNothing(r: Scan<string>)
    ensures Prepend([], r) == r
  {
    if r.result.Ok? {
      assert [] + r.result.value == r.result.value;
    }
  }

  lemma PrependTwice(s: string, out: string, r: Scan<string>)
    ensures Prepend(s, Prepend(out, r)) == Prepend(s + out, r)
  {
    if r.result.Ok? {
      assert s + (out + r.result.value) == (s + out) + r.result.value;
    }
  }

  /** The word automaton run from pos in state st. */
  function WordAt(text: string, pos: nat, st: WordState): (r: Scan<string>)
    requires pos <= |text|
    ensures pos <= r.end <= |text|
    ensures pos < |text| && Transition(st, text[pos]).Go? ==> pos < r.end
    decreases |text| - pos
  {
    if pos == |text| then Scan(EndOfInput(st), pos)
    else match Transition(st, text[pos])
      case Stop => Scan(Ok([]), pos)
      case Go(next, out) => Prepend(out, WordAt(text, pos + 1, next))
  }

  /** A Word token scanned from pos. */
  function WordToken(text: string, pos: nat): (r: Scan<Token>)
    requires pos <= |text|
    ensures pos <= r.end <= |text|
    ensures r.result.Ok? ==> r.result.value.tag == Word
    ensures pos < |text| && !IsWhitespace(text[pos]) ==> pos < r.end
  {
    var w := WordAt(text, pos, Normal);
    Scan(if w.result.Ok? then Ok(Token(Word, w.result.value)) else Err(w.result.error), w.end)
  }

  /** The token that starts right at pos, which is not whitespace. */
  function TokenAt(text: string, pos: nat): (r: Scan<Token>)
    requires pos <= |text|
    requires pos == |text| || !IsWhitespace(text[pos])
    ensures pos <= r.end <= |text|
    ensures r.result.Ok? && r.result.value.tag == EndOfCommand ==> pos == |text|
    ensures r.result.Ok? && r.result.value.tag != EndOfCommand ==> pos < r.end
  {
    if pos == |text| then Scan(Ok(Token(EndOfCommand, "")), pos)
    else if text[pos] == '|' then Scan(Ok(Token(Pipe, "|")), pos + 1)
    else if text[pos] == '>' && pos + 1 < |text| && text[pos + 1] == '>' then
      Scan(Ok(Token(RedirectOutAppend, ">>")), pos + 2)
    else if text[pos] == '>' then Scan(Ok(Token(RedirectOut, ">")), pos + 1)
    else if IsDigit(text[pos]) then IntegerAt(text, pos)
    else WordToken(text, pos)
  }

  /** The next token from pos, with the whitespace before it skipped. An end-of-command
      token consumes the rest of the text (only whitespace); any other token consumes at
      least one character beyond that whitespace. */
  function ScanToken(text: string, pos: nat): (r: Scan<Token>)
    requires pos <= |text|
    ensures WsEnd(text, pos) <= r.end <= |text|
    ensures r.result.Ok? && r.result.value.tag == EndOfCommand ==> r.end == |text|
    ensures r.result.Ok? && r.result.value.tag != EndOfCommand ==> WsEnd(text, pos) < r.end
  {
    TokenAt(text, WsEnd(text, pos))
  }

  // ---------------------------------------------------------------------------
  // The scanner itself.

  /** The character at index i of text, if there is one. */
  function CharAt(text: string, i: nat): Option<char> {
    if i < |text| then Some(text[i]) else None
  }

  class Scanner {
    /** The command text the underlying `Chars` iterator walks over. */
    const text: string
    /** How many characters the `Chars` iterator has produced so far. */
    var chars: nat
    /** Current value from the command text being considered. */
    var current: Option<char>
    /** The character after current. */
    var next: Option<char>
    /** The index of `current` in text. */
    ghost var pos: nat

    /** current and next are the two characters at pos, and the iterator has produced
        everything up to them. */
    ghost predicate Valid()
      reads this
    {
      && pos <= |text|
      && current == CharAt(text, pos)
      && next == CharAt(text, pos + 1)
      && chars == if pos + 2 <= |text| then pos + 2 else |text|
    }

    constructor (commandText: string)
      ensures Valid() && text == commandText && pos == 0
    {
      text := commandText;
      chars := 0;
      current := None;
      next := None;
      pos := 0;
      new;
      Advance();
      Advance();
      pos := 0;
    }

    /** Shifts the lookahead by one character. */
    method Advance()
      requires chars <= |text|
      modifies this
      ensures current == old(next)
      ensures next == CharAt(text, old(chars))
      ensures chars == if old(chars) < |text| then old(chars) + 1 else old(chars)
      ensures pos == if old(pos) < |text| then old(pos) + 1 else old(pos)
      ensures old(Valid()) ==> Valid()
    {
      current := next;
      if chars < |text| {
        next := Some(text[chars]);
        chars := chars + 1;
      } else {
        next := None;
      }
      if pos < |text| {
        pos := pos + 1;
      }
    }

    /** Advances past any whitespace. */
    method SkipWhitespace()
      requires Valid()
      modifies this
      ensures Valid() && pos == WsEnd(text, old(pos))
    {
      ghost var start := pos;
      while current.Some? && IsWhitespace(current.value)
        invariant Valid() && start <= pos
        invariant WsEnd(text, start) == WsEnd(text, pos)
        decreases |text| - pos
      {
        Advance();
      }
    }

    /** Returns the next token in the command text. */
    method NextToken() returns (r: Result<Token, string>)
      requires Valid()
      modifies this
      ensures Valid()
      ensures var t := ScanToken(text, old(pos)); r == t.result && pos == t.end
    {
      SkipWhitespace();
      if current.None? {
        r := Ok(Token(EndOfCommand, ""));
      } else if current == Some('|') {
        Advance();
        r := Ok(Token(Pipe, "|"));
      } else if current == Some('>') && next == Some('>') {
        Advance();
        Advance();
        r := Ok(Token(RedirectOutAppend, ">>"));
      } else if current == Some('>') {
        Advance();
        r := Ok(Token(RedirectOut, ">"));
      } else if IsDigit(current.value) {
        r := Integer();
      } else {
        var w := Word();
        r := if w.Ok? then Ok(Token(TokenTag.Word, w.value)) else Err(w.error);
      }
    }

    /** Scans a word through the quote/escape automaton. */
    method Word() returns (r: Result<string, string>)
      requires Valid()
      modifies this
      ensures Valid()
      ensures var w := WordAt(text, old(pos), Normal); r == w.result && pos == w.end
    {
      ghost var start := pos;
      var state := Normal;
      var s := "";
      PrependNothing(WordAt(text, start, Normal));
      while true
        invariant Valid() && start <= pos
        invariant WordAt(text, start, Normal) == Prepend(s, WordAt(text, pos, state))
        decreases |text| - pos
      {
        if current.None? {
          assert s + [] == s;
          match state {
            case Normal => break;
            case InSingleQuote => r := Err("unclosed single quote");
            case InDoubleQuote => r := Err("unclosed double quote");
            case QuotedBackSpace => r := Err("unclosed double quote");
            case BackSpace => r := Err("dangling back space");
          }
          return;
        }
        var c := current.value;
        ghost var before, from := s, state;
        if c == '\\' && state == Normal {
          state := BackSpace;
        } else if c == '\\' && state == InSingleQuote {
          s := s + ['\\'];
        } else if c == '\\' && state == InDoubleQuote {
          state := QuotedBackSpace;
        } else if c == '\'' && state == Normal {
          state := InSingleQuote;
        } else if c == '\'' && state == InSingleQuote {
          state := Normal;
        } else if c == '\'' && state == InDoubleQuote {
          s := s + ['\''];
        } else if c == '"' && state == Normal {
          state := InDoubleQuote;
        } else if c == '"' && state == InSingleQuote {
          s := s + ['"'];
        } else if c == '"' && state == InDoubleQuote {
          state := Normal;
        } else if IsWhitespace(c) && state == Normal {
          assert s + [] == s;
          break;
        } else if IsWhitespace(c) && state == InSingleQuote {
          s := s + [c];
        } else if IsWhitespace(c) && state == InDoubleQuote {
          s := s + [c];
        } else if state == QuotedBackSpace && (c == '"' || c == '\\') {
          state := InDoubleQuote;
          s := s + [c];
        } else if state == QuotedBackSpace {
          state := InDoubleQuote;
          s := s + ['\\', c];
        } else if state == BackSpace {
          state := Normal;
          s := s + [c];
        } else {
          s := s + [c];
        }
        assert Transition(from, c) == Go(state, s[|before|..]) && s == before + s[|before|..];
        PrependTwice(before, s[|before|..], WordAt(text, pos + 1, state));
        Advance();
      }
      r := Ok(s);
    }

    /** Scans an integer token. */
    method Integer() returns (r: Result<Token, string>)
      requires Valid()
      modifies this
      ensures Valid()
      ensures var t := IntegerAt(text, old(pos)); r == t.result && pos == t.end
    {
      var lexeme := Digits();
      var parsed := ParseU32(lexeme);
      if parsed.Err? {
        return Err(parsed.error);
      }
      var tag;
      if current == Some('>') && next == Some('>') {
        lexeme := lexeme + ">>";
        Advance();
        Advance();
        tag := RedirectOutAppendWithFileDescriptor(parsed.value);
      } else if current == Some('>') {
        lexeme := lexeme + ">";
        Advance();
        tag := RedirectOutWithFileDescriptor(parsed.value);
      } else {
        tag := TokenTag.Integer(parsed.value);
      }
      r := Ok(Token(tag, lexeme));
    }

    /** Reads the run of digits at the current character. */
    method Digits() returns (lexeme: string)
      requires Valid()
      modifies this
      ensures Valid() && pos == DigitEnd(text, old(pos)) && lexeme == text[old(pos)..pos]
    {
      ghost var start := pos;
      lexeme := "";
      while current.Some? && IsDigit(current.value)
        invariant Valid() && start <= pos
        invariant lexeme == text[start..pos]
        invariant DigitEnd(text, start) == DigitEnd(text, pos)
        decreases |text| - pos
      {
        assert text[start..pos + 1] == lexeme + [current.value];
        lexeme := lexeme + [current.value];
        Advance();
      }
    }
  }
}
