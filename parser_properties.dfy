/** Properties of the grammar functions in module Parsing: what a whole command line
    parses to, built-in dispatch and argument grammar, the redirection table, and how
    a pipeline ends. */
module ParserProperties {
  import opened Outcomes
  import opened Scanning
  import opened TokenStream
  import opened Ast
  import opened Parsing
  import opened ScannerProperties

  // ---------------------------------------------------------------------------
  // The token sequence of a text, as an independent reference.

  /** The tokens the scanner yields from some position on, and the error that stopped it,
      if one did. */
  datatype TokenRun = TokenRun(tokens: seq<Token>, error: Option<string>)

  /** The tokens the scanner yields from pos on: up to and including end-of-command, or,
      when a token fails to scan, the tokens before it and the scan error. */
  function TokensFrom(text: string, pos: nat): (r: TokenRun)
    requires pos <= |text|
    ensures r.error.None? ==> r.tokens != [] && r.tokens[|r.tokens| - 1].tag == EndOfCommand
    decreases |text| - pos
  {
    var t := ScanToken(text, pos);
    if t.result.Err? then TokenRun([], Some(t.result.error))
    else if t.result.value.tag == EndOfCommand then TokenRun([t.result.value], None)
    else
      var rest := TokensFrom(text, t.end);
      TokenRun([t.result.value] + rest.tokens, rest.error)
  }

  /** The lexemes of the Word and Integer tokens at the head of ts. */
  function WordRun(ts: seq<Token>): seq<string> {
    if ts == [] || !(ts[0].tag.Word? || ts[0].tag.Integer?) then []
    else [ts[0].lexeme] + WordRun(ts[1..])
  }

  /** `collect_integer_word` yields the lexemes of the consecutive Word and Integer
      tokens from the current one on, in order. It succeeds exactly when some token that
      is neither ends the run before the scan stops, and otherwise fails with the scan
      error that stopped it. */
  lemma {:induction false} IntegerWordsAreWordRun(text: string, c: Cursor)
    requires Fits(text, c)
    ensures var s := TokensFrom(text, c.pos);
      var all := [c.current] + s.tokens;
      var r := IntegerWordsOf(text, c);
      && (r.Ok? <==> |WordRun(all)| < |all|)
      && (r.Ok? ==> r.value.value == WordRun(all))
      && (r.Err? ==> s.error.Some? && r.error == Error(s.error.value))
    decreases Measure(text, c)
  {
    var s := TokensFrom(text, c.pos);
    var all := [c.current] + s.tokens;
    assert all[1..] == s.tokens;
    if c.current.tag.Word? || c.current.tag.Integer? {
      var n := AdvanceCursor(text, c);
      if n.Err? {
        assert all == [c.current];
      } else if n.value.current.tag == EndOfCommand {
        assert s.tokens == [n.value.current];
      } else {
        var next := n.value;
        IntegerWordsAreWordRun(text, next);
        assert s.tokens == [next.current] + TokensFrom(text, next.pos).tokens;
      }
    }
  }

  // ---------------------------------------------------------------------------
  // A whole command line.

  /** A command line parses to the empty pipeline exactly when it is blank. */
  lemma EmptyPipelineIffBlank(text: string)
    ensures ParseOf(text) == Ok([]) <==> Blank(text, 0)
  {
    EndIffBlank(text, 0);
  }

  /** A command line that starts with a token other than a Word or the end of the
      command is an "unexpected token" error. */
  lemma UnexpectedFirstToken(text: string)
    ensures var c := StartCursor(text);
      c.Ok? && !c.value.current.tag.Word? && !c.value.current.tag.EndOfCommand? ==>
        ParseOf(text) == Err(Error("unexpected token `" + TagDebug(c.value.current.tag) + "`"))
  {
  }

  // ---------------------------------------------------------------------------
  // Commands.

  /** A command is a built-in exactly when its first word is the name of one; otherwise
      it is external and its arguments are that word and the lexemes of the Word and
      Integer tokens right after it. */
  lemma CommandKind(text: string, c: Cursor)
    requires Fits(text, c) && c.current.tag == Word
    ensures var r := CommandOf(text, c);
      && (r.Ok? ==> (r.value.value.BuiltIn? <==> IsBuiltInName(c.current.lexeme)))
      && (r.Ok? && r.value.value.External? ==>
            r.value.value.externalCommand.args == WordRun([c.current] + TokensFrom(text, c.pos).tokens)
            && r.value.value.externalCommand.args[0] == c.current.lexeme)
  {
    IntegerWordsAreWordRun(text, c);
  }

  /** A parsed built-in, as `built_in` returns it: the same outcome with Some around the
      value. */
  function Chosen(r: Result<Step<BuiltIn>, Failure>): Result<Step<Option<BuiltIn>>, Failure> {
    if r.Ok? then Ok(Step(Some(r.value.value), r.value.cursor)) else Err(r.error)
  }

  /** `built_in` hands each of the six names to its own parser, whose outcome it returns,
      errors included; any other word is no built-in and is not consumed. */
  lemma BuiltInDispatch(text: string, c: Cursor)
    requires Fits(text, c) && c.current.tag == Word
    ensures var r := BuiltInOf(text, c);
      && (c.current.lexeme == "cd" ==> r == Chosen(CdOf(text, c)))
      && (c.current.lexeme == "echo" ==> r == Chosen(EchoOf(text, c)))
      && (c.current.lexeme == "exit" ==> r == Chosen(ExitOf(text, c)))
      && (c.current.lexeme == "history" ==> r == Chosen(HistoryOf(text, c)))
      && (c.current.lexeme == "pwd" ==> r == Chosen(PwdOf(text, c)))
      && (c.current.lexeme == "type" ==> r == Chosen(TypeOf(text, c)))
      && (!IsBuiltInName(c.current.lexeme) ==> r == Ok(Step(None, c)))
  {
  }

  /** `history` and `pwd` take no arguments: each is its built-in, and the token after
      its word is left for the rest of the parse. */
  lemma NoArguments(text: string, c: Cursor)
    requires Fits(text, c) && c.current.tag == Word
    ensures var n := AdvanceCursor(text, c);
      && (n.Ok? ==> HistoryOf(text, c) == Ok(Step(History, n.value)))
      && (n.Err? ==> HistoryOf(text, c) == Err(n.error))
      && (c.current.lexeme == "pwd" && n.Ok? ==> PwdOf(text, c) == Ok(Step(Pwd, n.value)))
      && (c.current.lexeme == "pwd" && n.Err? ==> PwdOf(text, c) == Err(n.error))
  {
  }

  /** A parsed command is made of its parts: a built-in is what `built_in` returned,
      with the redirection read right after it; an external command is the collected
      words, with the redirection read right after them. The command ends where that
      redirection ends, and a command is parsed whenever its parts are. */
  lemma CommandParts(text: string, c: Cursor)
    requires Fits(text, c) && c.current.tag == Word
    ensures var r := CommandOf(text, c);
      var b := BuiltInOf(text, c);
      var w := IntegerWordsOf(text, c);
      && (r.Ok? && r.value.value.BuiltIn? ==>
            && b.Ok? && b.value.value == Some(r.value.value.builtInCommand.builtIn)
            && RedirectionOf(text, b.value.cursor) == Ok(Step(r.value.value.builtInCommand.redirection, r.value.cursor)))
      && (r.Ok? && r.value.value.External? ==>
            && b == Ok(Step(None, c)) && w.Ok? && w.value.value == r.value.value.externalCommand.args
            && RedirectionOf(text, w.value.cursor) == Ok(Step(r.value.value.externalCommand.redirection, r.value.cursor)))
      && (b.Ok? && b.value.value.Some? && RedirectionOf(text, b.value.cursor).Ok? ==>
            var d := RedirectionOf(text, b.value.cursor).value;
            r == Ok(Step(BuiltIn(BuiltInCommand(b.value.value.value, d.value)), d.cursor)))
      && (b.Ok? && b.value.value.None? && w.Ok? && RedirectionOf(text, w.value.cursor).Ok? ==>
            var d := RedirectionOf(text, w.value.cursor).value;
            r == Ok(Step(External(ExternalCommand(w.value.value, d.value)), d.cursor)))
  {
  }

  /** `cd` and `type` take the lexeme of the one Word after them and stop on the token
      after that Word, and fail with "expected Word" when the next token is not a Word. */
  lemma CdAndTypeNeedAWord(text: string, c: Cursor)
    requires Fits(text, c) && c.current.tag == Word
    ensures var n := AdvanceCursor(text, c);
      && (c.current.lexeme == "cd" && n.Ok? && n.value.current.tag != Word ==> CdOf(text, c) == Err(Error("expected Word")))
      && (c.current.lexeme == "cd" && n.Ok? && n.value.current.tag == Word && AdvanceCursor(text, n.value).Ok? ==>
            CdOf(text, c) == Ok(Step(Cd(n.value.current.lexeme), AdvanceCursor(text, n.value).value)))
      && (c.current.lexeme == "cd" && CdOf(text, c).Ok? ==>
            n.Ok? && CdOf(text, c).value.value == Cd(n.value.current.lexeme))
      && (c.current.lexeme == "type" && n.Ok? && n.value.current.tag != Word ==> TypeOf(text, c) == Err(Error("expected Word")))
      && (c.current.lexeme == "type" && n.Ok? && n.value.current.tag == Word && AdvanceCursor(text, n.value).Ok? ==>
            TypeOf(text, c) == Ok(Step(Type(n.value.current.lexeme), AdvanceCursor(text, n.value).value)))
      && (c.current.lexeme == "type" && TypeOf(text, c).Ok? ==>
            n.Ok? && TypeOf(text, c).value.value == Type(n.value.current.lexeme))
  {
    assert ExpectedMessage(Word) == "expected Word";
  }

  /** `echo` takes the lexemes of all the Word and Integer tokens after it, possibly
      none; it succeeds exactly when a token that is neither ends them before the scan
      stops. */
  lemma EchoArguments(text: string, c: Cursor)
    requires Fits(text, c) && c.current == Token(Word, "echo")
    ensures var ts := TokensFrom(text, c.pos).tokens;
      && (EchoOf(text, c).Ok? <==> |WordRun(ts)| < |ts|)
      && (EchoOf(text, c).Ok? ==> EchoOf(text, c).value.value == Echo(WordRun(ts)))
  {
    var ts := TokensFrom(text, c.pos).tokens;
    var n := AdvanceCursor(text, c);
    if n.Ok? {
      var next := n.value;
      if next.current.tag == EndOfCommand {
        assert ts == [next.current];
      } else {
        IntegerWordsAreWordRun(text, next);
        assert ts == [next.current] + TokensFrom(text, next.pos).tokens;
      }
    }
  }

  /** `exit` takes an Integer after it as its status and stops on the token after it;
      when the next token is anything else the status is 0 and that token is left for
      the rest of the parse. */
  lemma ExitStatus(text: string, c: Cursor)
    requires Fits(text, c) && c.current == Token(Word, "exit")
    ensures var n := AdvanceCursor(text, c);
      && (n.Ok? && !n.value.current.tag.Integer? ==> ExitOf(text, c) == Ok(Step(Exit(0), n.value)))
      && (n.Ok? && n.value.current.tag.Integer? && AdvanceCursor(text, n.value).Ok? ==>
            ExitOf(text, c) == Ok(Step(Exit(n.value.current.tag.n), AdvanceCursor(text, n.value).value)))
      && (n.Ok? && n.value.current.tag.Integer? && ExitOf(text, c).Ok? ==>
            ExitOf(text, c).value.value == Exit(n.value.current.tag.n))
  {
  }

  // ---------------------------------------------------------------------------
  // Redirections.

  /** The tokens that start a redirection. */
  predicate IsRedirect(tag: TokenTag) {
    tag.RedirectOut? || tag.RedirectOutAppend? || tag.RedirectOutWithFileDescriptor? || tag.RedirectOutAppendWithFileDescriptor?
  }

  /** The redirection an operator token stands for, with file name f: standard output
      for `>`, `>>` and the descriptor 1, standard error for the descriptor 2, appending
      for the `>>` forms. */
  function Target(tag: TokenTag, f: string): Option<Redirection> {
    var append := tag.RedirectOutAppend? || tag.RedirectOutAppendWithFileDescriptor?;
    if tag.RedirectOut? || tag.RedirectOutAppend? then Some(StdOut(f, append))
    else if (tag.RedirectOutWithFileDescriptor? || tag.RedirectOutAppendWithFileDescriptor?) && tag.fd == 1 then Some(StdOut(f, append))
    else if (tag.RedirectOutWithFileDescriptor? || tag.RedirectOutAppendWithFileDescriptor?) && tag.fd == 2 then Some(StdErr(f, append))
    else None
  }

  /** The redirection table: an operator with an accepted descriptor redirects to the
      Word after it, stopping on the token after that Word, and fails without one; any other descriptor is an error; a token that
      is no operator is no redirection and is not consumed. */
  lemma RedirectionTable(text: string, c: Cursor)
    requires Fits(text, c)
    ensures var tag := c.current.tag;
      var r := RedirectionOf(text, c);
      var n := AdvanceCursor(text, c);
      && (!IsRedirect(tag) ==> r == Ok(Step(NoRedirection, c)))
      && (IsRedirect(tag) && Target(tag, "").Some? && n.Ok? && n.value.current.tag != Word ==>
            r == Err(Error("expected Word")))
      && (IsRedirect(tag) && r.Ok? ==>
            n.Ok? && n.value.current.tag == Word && Target(tag, n.value.current.lexeme) == Some(r.value.value))
      && (IsRedirect(tag) && Target(tag, "").Some? && n.Ok? && n.value.current.tag == Word && AdvanceCursor(text, n.value).Ok? ==>
            r == Ok(Step(Target(tag, n.value.current.lexeme).value, AdvanceCursor(text, n.value).value)))
      && (IsRedirect(tag) && Target(tag, "").None? ==>
            r == Err(Error("unrecognized file descriptor " + NatToDecimal(tag.fd))))
  {
    assert ExpectedMessage(Word) == "expected Word";
  }

  /** `1>` and `1>>` redirect exactly as `>` and `>>` do. */
  lemma DescriptorOneIsStdOut(text: string, pos: nat, lexeme: string, other: string)
    requires pos <= |text|
    ensures RedirectionOf(text, Cursor(Token(RedirectOutWithFileDescriptor(1), lexeme), pos))
         == RedirectionOf(text, Cursor(Token(RedirectOut, other), pos))
    ensures RedirectionOf(text, Cursor(Token(RedirectOutAppendWithFileDescriptor(1), lexeme), pos))
         == RedirectionOf(text, Cursor(Token(RedirectOutAppend, other), pos))
  {
  }

  // ---------------------------------------------------------------------------
  // How a pipeline ends.

  /** After a command, a token other than `|` ends the pipeline and is left unread, so
      trailing tokens are ignored; after a `|`, a token other than a Word is a panic. */
  lemma PipelineEnd(text: string, c: Cursor)
    requires Fits(text, c)
    ensures var r := CommandOf(text, c);
      r.Ok? ==>
        && (r.value.cursor.current.tag != Pipe ==> PipelineOf(text, c) == Ok(Step([r.value.value], r.value.cursor)))
        && (r.value.cursor.current.tag == Pipe ==>
              var n := AdvanceCursor(text, r.value.cursor);
              n.Ok? && n.value.current.tag != Word ==> PipelineOf(text, c) == Err(Panic(NOT_A_WORD)))
  {
    var r := CommandOf(text, c);
    if r.Ok? && r.value.cursor.current.tag == Pipe {
      var n := AdvanceCursor(text, r.value.cursor);
      if n.Ok? {
        assert MatchCursor(text, r.value.cursor, Pipe) == Ok(Step(true, n.value));
      }
    }
  }

  /** A line that is `history` or `pwd` followed by any token that scans and is neither a
      `|` nor a redirection operator is just that built-in: the token and everything
      after it are ignored. */
  lemma NoArgumentLine(text: string)
    ensures var s := StartCursor(text);
      s.Ok? && s.value.current.tag == Word && (s.value.current.lexeme == "history" || s.value.current.lexeme == "pwd") ==>
        var n := AdvanceCursor(text, s.value);
        n.Ok? && n.value.current.tag != Pipe && !IsRedirect(n.value.current.tag) ==>
          ParseOf(text) == Ok([BuiltIn(BuiltInCommand(if s.value.current.lexeme == "history" then History else Pwd, NoRedirection))])
  {
    var s := StartCursor(text);
    if s.Ok? && s.value.current.tag == Word {
      NoArgumentCommand(text, s.value);
      PipelineEnd(text, s.value);
    }
  }

  /** The command `history` or `pwd`, followed by a token that is neither a `|` nor a
      redirection operator, ends in front of that token. */
  lemma NoArgumentCommand(text: string, c: Cursor)
    requires Fits(text, c) && c.current.tag == Word
    ensures var n := AdvanceCursor(text, c);
      (c.current.lexeme == "history" || c.current.lexeme == "pwd") && n.Ok? && !IsRedirect(n.value.current.tag) ==>
        CommandOf(text, c) == Ok(Step(BuiltIn(BuiltInCommand(if c.current.lexeme == "history" then History else Pwd, NoRedirection)), n.value))
  {
    var n := AdvanceCursor(text, c);
    if (c.current.lexeme == "history" || c.current.lexeme == "pwd") && n.Ok? && !IsRedirect(n.value.current.tag) {
      BuiltInDispatch(text, c);
      NoArguments(text, c);
      RedirectionTable(text, n.value);
    }
  }

  /** `pwd |` panics: nothing follows the `|`. */
  lemma PipeAtEndPanics()
    ensures ParseOf("pwd |") == Err(Panic(NOT_A_WORD))
  {
    PwdThenPipe();
    PipelineEnd("pwd |", Cursor(Token(Word, "pwd"), 3));
  }

  /** The tokens of `pwd |`: a word and a `|`. */
  lemma PwdThenPipe()
    ensures StartCursor("pwd |") == Ok(Cursor(Token(Word, "pwd"), 3))
    ensures AdvanceCursor("pwd |", Cursor(Token(Word, "pwd"), 3)) == Ok(Cursor(Token(Pipe, "|"), 5))
  {
    var text := "pwd |";
    PlainWord(text, 0);
    assert NonWsEnd(text, 0) == 3;
    assert text[0..3] == "pwd";
    OperatorTokens(text, 3);
    assert WsEnd(text, 3) == 4;
  }

  /** `pwd foo` is `pwd`: the word after it is never read. */
  lemma TrailingWordIgnored()
    ensures ParseOf("pwd foo") == Ok([BuiltIn(BuiltInCommand(Pwd, NoRedirection))])
  {
    PwdThenFoo();
    PipelineEnd("pwd foo", Cursor(Token(Word, "pwd"), 3));
  }

  /** The tokens of `pwd foo`: two words. */
  lemma PwdThenFoo()
    ensures StartCursor("pwd foo") == Ok(Cursor(Token(Word, "pwd"), 3))
    ensures AdvanceCursor("pwd foo", Cursor(Token(Word, "pwd"), 3)) == Ok(Cursor(Token(Word, "foo"), 7))
  {
    var text := "pwd foo";
    PlainWord(text, 0);
    assert NonWsEnd(text, 0) == 3;
    assert text[0..3] == "pwd";
    PlainWord(text, 3);
    assert WsEnd(text, 3) == 4;
    assert NonWsEnd(text, 4) == 7;
    assert text[4..7] == "foo";
  }
}
