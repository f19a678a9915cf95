/** The token-stream state the parser drives: the `ParserState` of the `parser_state`
    crate, which holds a lexer and the current token (one token of lookahead).

    That crate's code is not part of this model. Its four operations are modelled with
    the semantics the parser relies on: `new` loads the first token, `advance` replaces
    the current token with the lexer's next one, `matches(tag)` advances and answers
    true exactly when the current token has that tag, and `expect_lexeme(tag)` returns
    the current lexeme and advances when the tag matches and fails otherwise.

    As in the scanner, there is a pure view and a class. The pure view is a `Cursor`:
    the current token and the scanner position just past it. The class methods are
    proved to agree with the pure functions on that view. */
module TokenStream {
  import opened Outcomes
  import opened Scanning

  /** Why parsing stopped: an `anyhow` error, or a failed `assert!` (a Rust panic). */
  datatype Failure = Error(message: string) | Panic(message: string)

  /** The parser's view of the input: the current token and where the scanner stands. */
  datatype Cursor = Cursor(current: Token, pos: nat)

  /** A parsed value and the cursor after it. */
  datatype Step<+T> = Step(value: T, cursor: Cursor)

  /** A cursor that a scan of text can produce: the end-of-command token only ever
      appears once the whole text is consumed. */
  ghost predicate Fits(text: string, c: Cursor) {
    c.pos <= |text| && (c.current.tag == EndOfCommand ==> c.pos == |text|)
  }

  /** What is left to read: the unscanned characters, plus one for a current token that
      is not the end of the command. Every advance past such a token makes it smaller. */
  function Measure(text: string, c: Cursor): nat
    requires c.pos <= |text|
  {
    |text| - c.pos + (if c.current.tag == EndOfCommand then 0 else 1)
  }

  /** The cursor after scanning one token from pos; a scan error becomes a Failure. */
  function LoadCursor(text: string, pos: nat): (r: Result<Cursor, Failure>)
    requires pos <= |text|
    ensures r.Ok? ==> Fits(text, r.value) && pos <= r.value.pos
    ensures r.Ok? && r.value.current.tag != EndOfCommand ==> pos < r.value.pos
  {
    var t := ScanToken(text, pos);
    if t.result.Err? then Err(Error(t.result.error)) else Ok(Cursor(t.result.value, t.end))
  }

  /** `ParserState::new`: the cursor on the first token of text. */
  function StartCursor(text: string): (r: Result<Cursor, Failure>)
    ensures r.Ok? ==> Fits(text, r.value)
  {
    LoadCursor(text, 0)
  }

  /** `ParserState::advance`: the cursor on the token after the current one. Advancing
      never makes the measure grow, and past a token other than end-of-command it makes
      it shrink. */
  function AdvanceCursor(text: string, c: Cursor): (r: Result<Cursor, Failure>)
    requires Fits(text, c)
    ensures r.Ok? ==> Fits(text, r.value) && Measure(text, r.value) <= Measure(text, c)
    ensures r.Ok? && c.current.tag != EndOfCommand ==> Measure(text, r.value) < Measure(text, c)
  {
    LoadCursor(text, c.pos)
  }

  /** `ParserState::matches`: advances and answers true when the current tag is tag,
      answers false and stays put otherwise. */
  function MatchCursor(text: string, c: Cursor, tag: TokenTag): (r: Result<Step<bool>, Failure>)
    requires Fits(text, c)
    ensures r.Ok? ==> Fits(text, r.value.cursor) && Measure(text, r.value.cursor) <= Measure(text, c)
    ensures r.Ok? ==> (r.value.value <==> c.current.tag == tag)
    ensures r.Ok? && !r.value.value ==> r.value.cursor == c
  {
    if c.current.tag == tag then
      var next :- AdvanceCursor(text, c);
      Ok(Step(true, next))
    else
      Ok(Step(false, c))
  }

  /** The error `expect_lexeme` reports when the current token does not have the
      expected tag. */
  function ExpectedMessage(tag: TokenTag): string {
    "expected " + TagDisplay(tag)
  }

  /** `ParserState::expect_lexeme`: the current lexeme, and the cursor advanced past it,
      when the current tag is tag; an error otherwise. */
  function ExpectCursor(text: string, c: Cursor, tag: TokenTag): (r: Result<Step<string>, Failure>)
    requires Fits(text, c)
    ensures r.Ok? ==> c.current.tag == tag && r.value.value == c.current.lexeme
    ensures r.Ok? ==> Fits(text, r.value.cursor) && Measure(text, r.value.cursor) <= Measure(text, c)
    ensures r.Ok? && tag != EndOfCommand ==> Measure(text, r.value.cursor) < Measure(text, c)
    ensures c.current.tag != tag ==> r == Err(Error(ExpectedMessage(tag)))
  {
    if c.current.tag == tag then
      var next :- AdvanceCursor(text, c);
      Ok(Step(c.current.lexeme, next))
    else
      Err(Error(ExpectedMessage(tag)))
  }

  class ParserState {
    /** The scanner the tokens come from. */
    const lexer: Scanner
    /** The current token. */
    var current: Token

    ghost predicate Valid()
      reads this, lexer
    {
      lexer.Valid() && Fits(lexer.text, View())
    }

    /** The state as a cursor over the scanner's text. */
    ghost function View(): Cursor
      reads this, lexer
    {
      Cursor(current, lexer.pos)
    }

    constructor (lexer: Scanner, first: Token)
      ensures this.lexer == lexer && current == first
    {
      this.lexer := lexer;
      current := first;
    }

    /** `ParserState::new`: reads the first token from lexer. */
    static method New(lexer: Scanner) returns (r: Result<ParserState, Failure>)
      requires lexer.Valid()
      modifies lexer
      ensures var c := LoadCursor(lexer.text, old(lexer.pos));
        && (c.Err? ==> r == Err(c.error))
        && (c.Ok? ==> r.Ok? && fresh(r.value) && r.value.lexer == lexer && r.value.Valid() && r.value.View() == c.value)
    {
      var first := lexer.NextToken();
      if first.Err? {
        return Err(Error(first.error));
      }
      var state := new ParserState(lexer, first.value);
      r := Ok(state);
    }

    /** `ParserState::advance`. */
    method Advance() returns (r: Result<(), Failure>)
      requires Valid()
      modifies lexer, this
      ensures var c := AdvanceCursor(lexer.text, old(View()));
        && (c.Err? ==> r == Err(c.error))
        && (c.Ok? ==> r.Ok? && Valid() && View() == c.value)
    {
      var token := lexer.NextToken();
      if token.Err? {
        return Err(Error(token.error));
      }
      current := token.value;
      r := Ok(());
    }

    /** `ParserState::matches`. */
    method Matches(tag: TokenTag) returns (r: Result<bool, Failure>)
      requires Valid()
      modifies lexer, this
      ensures var m := MatchCursor(lexer.text, old(View()), tag);
        && (m.Err? ==> r == Err(m.error))
        && (m.Ok? ==> r == Ok(m.value.value) && Valid() && View() == m.value.cursor)
    {
      if current.tag == tag {
        var _ :- Advance();
        r := Ok(true);
      } else {
        r := Ok(false);
      }
    }

    /** `ParserState::expect_lexeme`. */
    method ExpectLexeme(tag: TokenTag) returns (r: Result<string, Failure>)
      requires Valid()
      modifies lexer, this
      ensures var e := ExpectCursor(lexer.text, old(View()), tag);
        && (e.Err? ==> r == Err(e.error))
        && (e.Ok? ==> r == Ok(e.value.value) && Valid() && View() == e.value.cursor)
    {
      if current.tag != tag {
        return Err(Error(ExpectedMessage(tag)));
      }
      var lexeme := current.lexeme;
      var _ :- Advance();
      r := Ok(lexeme);
    }
  }
}
