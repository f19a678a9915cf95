/** The recursive-descent parser of src/parser.rs: it turns a command line into a
    pipeline of commands, each a built-in or an external command with an optional
    output redirection.

    The grammar is first written as pure functions over a `Cursor` (`ParseOf`,
    `PipelineOf`, `CommandOf`, ...), each returning the parsed value together with the
    cursor after it. The methods below them (`Parse`, `ParsePipeline`, `ParseCommand`, ...) follow
    the Rust functions statement by statement on a `ParserState` and are proved to
    agree with those functions. */
module Parsing {
  import opened Outcomes
  import opened Scanning
  import opened TokenStream
  import opened Ast

  /** The message of the `assert!` in `command`, which panics when a command does not
      start with a word. */
  const NOT_A_WORD := "assertion failed: state.current.tag == TokenTag::Word"

  /** The names that select a built-in. */
  predicate IsBuiltInName(name: string) {
    name == "cd" || name == "echo" || name == "exit" || name == "history" || name == "pwd" || name == "type"
  }

  /** Parsing that ends with c: the measure never grows, and shrinks when asked. */
  ghost predicate Moves<T>(text: string, c: Cursor, r: Result<Step<T>, Failure>, strict: bool)
    requires Fits(text, c)
  {
    r.Ok? ==>
      && Fits(text, r.value.cursor)
      && Measure(text, r.value.cursor) <= Measure(text, c)
      && (strict ==> Measure(text, r.value.cursor) < Measure(text, c))
  }

  // ---------------------------------------------------------------------------
  // The grammar as functions over a cursor.

  /** `collect_integer_word`: the lexemes of the Word and Integer tokens from c on. */
  function IntegerWordsOf(text: string, c: Cursor): (r: Result<Step<seq<string>>, Failure>)
    requires Fits(text, c)
    ensures Moves(text, c, r, false)
    ensures r.Ok? ==> !r.value.cursor.current.tag.Word? && !r.value.cursor.current.tag.Integer?
    decreases Measure(text, c)
  {
    if c.current.tag.Word? || c.current.tag.Integer? then
      var next :- AdvanceCursor(text, c);
      var rest :- IntegerWordsOf(text, next);
      Ok(Step([c.current.lexeme] + rest.value, rest.cursor))
    else
      Ok(Step([], c))
  }

  /** `redirection_filename`: skips the operator and expects a Word. */
  function RedirectionFilenameOf(text: string, c: Cursor): (r: Result<Step<string>, Failure>)
    requires Fits(text, c)
    ensures Moves(text, c, r, false)
  {
    var next :- AdvanceCursor(text, c);
    ExpectCursor(text, next, Word)
  }

  /** `redirection`: an optional output redirection. Only the file descriptors 1 and 2
      are accepted; any other token is no redirection and is not consumed. */
  function RedirectionOf(text: string, c: Cursor): (r: Result<Step<Redirection>, Failure>)
    requires Fits(text, c)
    ensures Moves(text, c, r, false)
  {
    match c.current.tag
    case RedirectOut =>
      var f :- RedirectionFilenameOf(text, c); Ok(Step(StdOut(f.value, false), f.cursor))
    case RedirectOutWithFileDescriptor(fd) =>
      if fd == 1 then
        var f :- RedirectionFilenameOf(text, c); Ok(Step(StdOut(f.value, false), f.cursor))
      else if fd == 2 then
        var f :- RedirectionFilenameOf(text, c); Ok(Step(StdErr(f.value, false), f.cursor))
      else
        Err(Error("unrecognized file descriptor " + NatToDecimal(fd)))
    case RedirectOutAppend =>
      var f :- RedirectionFilenameOf(text, c); Ok(Step(StdOut(f.value, true), f.cursor))
    case RedirectOutAppendWithFileDescriptor(fd) =>
      if fd == 1 then
        var f :- RedirectionFilenameOf(text, c); Ok(Step(StdOut(f.value, true), f.cursor))
      else if fd == 2 then
        var f :- RedirectionFilenameOf(text, c); Ok(Step(StdErr(f.value, true), f.cursor))
      else
        Err(Error("unrecognized file descriptor " + NatToDecimal(fd)))
    case _ => Ok(Step(NoRedirection, c))
  }

  /** `cd`: the one Word after `cd` is the path. */
  function CdOf(text: string, c: Cursor): (r: Result<Step<BuiltIn>, Failure>)
    requires Fits(text, c) && c.current == Token(Word, "cd")
    ensures Moves(text, c, r, true)
  {
    var next :- AdvanceCursor(text, c);
    var path :- ExpectCursor(text, next, Word);
    Ok(Step(Cd(path.value), path.cursor))
  }

  /** `echo`: every Word and Integer after `echo` is an argument. */
  function EchoOf(text: string, c: Cursor): (r: Result<Step<BuiltIn>, Failure>)
    requires Fits(text, c) && c.current == Token(Word, "echo")
    ensures Moves(text, c, r, true)
  {
    var next :- AdvanceCursor(text, c);
    var args :- IntegerWordsOf(text, next);
    Ok(Step(Echo(args.value), args.cursor))
  }

  /** `exit`: an optional Integer status, 0 when there is none (the token after `exit`
      is then not consumed). */
  function ExitOf(text: string, c: Cursor): (r: Result<Step<BuiltIn>, Failure>)
    requires Fits(text, c) && c.current == Token(Word, "exit")
    ensures Moves(text, c, r, true)
  {
    var next :- AdvanceCursor(text, c);
    match next.current.tag
    case Integer(status) =>
      var after :- AdvanceCursor(text, next);
      Ok(Step(Exit(status), after))
    case _ => Ok(Step(Exit(0), next))
  }

  /** `history`: takes no arguments. */
  function HistoryOf(text: string, c: Cursor): (r: Result<Step<BuiltIn>, Failure>)
    requires Fits(text, c)
    ensures Moves(text, c, r, c.current.tag != EndOfCommand)
  {
    var next :- AdvanceCursor(text, c);
    Ok(Step(History, next))
  }

  /** `pwd`: takes no arguments. */
  function PwdOf(text: string, c: Cursor): (r: Result<Step<BuiltIn>, Failure>)
    requires Fits(text, c) && c.current == Token(Word, "pwd")
    ensures Moves(text, c, r, true)
  {
    var next :- AdvanceCursor(text, c);
    Ok(Step(Pwd, next))
  }

  /** `type_builtin`: the one Word after `type` is the command to describe. */
  function TypeOf(text: string, c: Cursor): (r: Result<Step<BuiltIn>, Failure>)
    requires Fits(text, c) && c.current == Token(Word, "type")
    ensures Moves(text, c, r, true)
  {
    var next :- AdvanceCursor(text, c);
    var command :- ExpectCursor(text, next, Word);
    Ok(Step(Type(command.value), command.cursor))
  }

  /** `built_in`: dispatch on the exact lexeme of the current Word; no built-in (and no
      token consumed) for any other lexeme. */
  function BuiltInOf(text: string, c: Cursor): (r: Result<Step<Option<BuiltIn>>, Failure>)
    requires Fits(text, c) && c.current.tag == Word
    ensures Moves(text, c, r, r.Ok? && r.value.value.Some?)
    ensures r.Ok? && r.value.value.None? ==> r.value.cursor == c
    ensures r.Ok? ==> (r.value.value.Some? <==> IsBuiltInName(c.current.lexeme))
  {
    var name := c.current.lexeme;
    if name == "cd" then
      var b :- CdOf(text, c); Ok(Step(Some(b.value), b.cursor))
    else if name == "echo" then
      var b :- EchoOf(text, c); Ok(Step(Some(b.value), b.cursor))
    else if name == "exit" then
      var b :- ExitOf(text, c); Ok(Step(Some(b.value), b.cursor))
    else if name == "history" then
      var b :- HistoryOf(text, c); Ok(Step(Some(b.value), b.cursor))
    else if name == "pwd" then
      var b :- PwdOf(text, c); Ok(Step(Some(b.value), b.cursor))
    else if name == "type" then
      var b :- TypeOf(text, c); Ok(Step(Some(b.value), b.cursor))
    else
      Ok(Step(None, c))
  }

  /** `command`: a built-in or an external command, then an optional redirection. A
      command that does not start with a Word is a panic. */
  function CommandOf(text: string, c: Cursor): (r: Result<Step<Command>, Failure>)
    requires Fits(text, c)
    ensures Moves(text, c, r, true)
    ensures c.current.tag != Word ==> r == Err(Panic(NOT_A_WORD))
  {
    if c.current.tag != Word then Err(Panic(NOT_A_WORD))
    else
      var b :- BuiltInOf(text, c);
      match b.value
      case Some(builtIn) =>
        var redirection :- RedirectionOf(text, b.cursor);
        Ok(Step(BuiltIn(BuiltInCommand(builtIn, redirection.value)), redirection.cursor))
      case None =>
        var args :- IntegerWordsOf(text, c);
        var redirection :- RedirectionOf(text, args.cursor);
        Ok(Step(External(ExternalCommand(args.value, redirection.value)), redirection.cursor))
  }

  /** `pipeline`: commands separated by `|`, in order. */
  function PipelineOf(text: string, c: Cursor): (r: Result<Step<seq<Command>>, Failure>)
    requires Fits(text, c)
    ensures Moves(text, c, r, true)
    ensures r.Ok? ==> |r.value.value| >= 1
    decreases Measure(text, c)
  {
    var command :- CommandOf(text, c);
    var another :- MatchCursor(text, command.cursor, Pipe);
    if another.value then
      var rest :- PipelineOf(text, another.cursor);
      Ok(Step([command.value] + rest.value, rest.cursor))
    else
      Ok(Step([command.value], another.cursor))
  }

  /** `parse`: the pipeline of a whole command line. A blank line is the empty pipeline;
      a line that starts with anything but a Word is an error. */
  function ParseOf(text: string): (r: Result<seq<Command>, Failure>)
    ensures StartCursor(text).Err? ==> r == Err(StartCursor(text).error)
    ensures r.Ok? ==> StartCursor(text).Ok?
    ensures r.Ok? ==> (r.value == [] <==> StartCursor(text).value.current.tag == EndOfCommand)
    ensures r.Ok? && r.value != [] ==> StartCursor(text).value.current.tag == Word
  {
    var c :- StartCursor(text);
    match c.current.tag
    case Word =>
      var p :- PipelineOf(text, c);
      Ok(p.value)
    case EndOfCommand => Ok([])
    case _ => Err(Error("unexpected token `" + TagDebug(c.current.tag) + "`"))
  }

  // ---------------------------------------------------------------------------
  // The parser itself, on a ParserState.

  /** The method result r and the new state are what spec says. */
  ghost predicate Agrees<T>(r: Result<T, Failure>, spec: Result<Step<T>, Failure>, state: ParserState)
    reads state, state.lexer
  {
    match spec
    case Err(f) => r == Err(f)
    case Ok(s) => r == Ok(s.value) && state.Valid() && state.View() == s.cursor
  }

  /** Parses a command text into a pipeline of commands. */
  method Parse(commandText: string) returns (r: Result<seq<Command>, Failure>)
    ensures r == ParseOf(commandText)
  {
    var scanner := new Scanner(commandText);
    var state :- ParserState.New(scanner);
    match state.current.tag
    case Word =>
      var pipeline :- ParsePipeline(state);
      r := Ok(pipeline);
    case EndOfCommand =>
      r := Ok([]);
    case _ =>
      r := Err(Error("unexpected token `" + TagDebug(state.current.tag) + "`"));
  }

  /** The pipeline still to come, with the commands parsed so far in front. */
  function PrependCommands(done: seq<Command>, r: Result<Step<seq<Command>>, Failure>): Result<Step<seq<Command>>, Failure> {
    if r.Ok? then Ok(Step(done + r.value.value, r.value.cursor)) else r
  }

  lemma PrependCommandsTwice(a: seq<Command>, b: seq<Command>, r: Result<Step<seq<Command>>, Failure>)
    ensures PrependCommands(a, PrependCommands(b, r)) == PrependCommands(a + b, r)
  {
    if r.Ok? {
      assert a + (b + r.value.value) == (a + b) + r.value.value;
    }
  }

  /** One round of the pipeline loop: a command, then a `|` or the end of the pipeline. */
  lemma PipelineUnfold(text: string, c: Cursor)
    requires Fits(text, c)
    ensures var command := CommandOf(text, c);
      PipelineOf(text, c) ==
        if command.Err? then Err(command.error)
        else
          var another := MatchCursor(text, command.value.cursor, Pipe);
          if another.Err? then Err(another.error)
          else if another.value.value then PrependCommands([command.value.value], PipelineOf(text, another.value.cursor))
          else Ok(Step([command.value.value], another.value.cursor))
  {
  }

  /** Parses a pipeline of commands. */
  method ParsePipeline(state: ParserState) returns (r: Result<seq<Command>, Failure>)
    requires state.Valid()
    modifies state, state.lexer
    ensures Agrees(r, PipelineOf(state.lexer.text, old(state.View())), state)
  {
    ghost var text := state.lexer.text;
    ghost var spec := PipelineOf(text, state.View());
    var commands := [];
    var parseAnotherCommand := true;
    assert PrependCommands([], spec) == spec by {
      if spec.Ok? {
        assert [] + spec.value.value == spec.value.value;
      }
    }
    while parseAnotherCommand
      invariant state.Valid()
      invariant parseAnotherCommand ==> spec == PrependCommands(commands, PipelineOf(text, state.View()))
      invariant !parseAnotherCommand ==> spec == Ok(Step(commands, state.View()))
      decreases Measure(text, state.View()) + (if parseAnotherCommand then 1 else 0)
    {
      PipelineUnfold(text, state.View());
      ghost var before := commands;
      var command :- ParseCommand(state);
      commands := commands + [command];
      parseAnotherCommand :- state.Matches(Pipe);
      PrependCommandsTwice(before, [command], PipelineOf(text, state.View()));
    }
    r := Ok(commands);
  }

  /** Parses one command. */
  method ParseCommand(state: ParserState) returns (r: Result<Command, Failure>)
    requires state.Valid()
    modifies state, state.lexer
    ensures Agrees(r, CommandOf(state.lexer.text, old(state.View())), state)
  {
    if state.current.tag != Word {
      return Err(Panic(NOT_A_WORD));
    }
    var builtIn :- ParseBuiltIn(state);
    if builtIn.Some? {
      var redirection :- ParseRedirection(state);
      r := Ok(BuiltIn(BuiltInCommand(builtIn.value, redirection)));
    } else {
      var args :- CollectIntegerWord(state);
      var redirection :- ParseRedirection(state);
      r := Ok(External(ExternalCommand(args, redirection)));
    }
  }

  /** Parses an optional output redirection. */
  method ParseRedirection(state: ParserState) returns (r: Result<Redirection, Failure>)
    requires state.Valid()
    modifies state, state.lexer
    ensures Agrees(r, RedirectionOf(state.lexer.text, old(state.View())), state)
  {
    match state.current.tag {
      case RedirectOut =>
        var filename :- ParseRedirectionFilename(state);
        r := Ok(StdOut(filename, false));
      case RedirectOutWithFileDescriptor(fd) =>
        if fd == 1 {
          var filename :- ParseRedirectionFilename(state);
          r := Ok(StdOut(filename, false));
        } else if fd == 2 {
          var filename :- ParseRedirectionFilename(state);
          r := Ok(StdErr(filename, false));
        } else {
          r := Err(Error("unrecognized file descriptor " + NatToDecimal(fd)));
        }
      case RedirectOutAppend =>
        var filename :- ParseRedirectionFilename(state);
        r := Ok(StdOut(filename, true));
      case RedirectOutAppendWithFileDescriptor(fd) =>
        if fd == 1 {
          var filename :- ParseRedirectionFilename(state);
          r := Ok(StdOut(filename, true));
        } else if fd == 2 {
          var filename :- ParseRedirectionFilename(state);
          r := Ok(StdErr(filename, true));
        } else {
          r := Err(Error("unrecognized file descriptor " + NatToDecimal(fd)));
        }
      case _ =>
        r := Ok(NoRedirection);
    }
  }

  /** Skips a redirection operator and reads the file name after it. */
  method ParseRedirectionFilename(state: ParserState) returns (r: Result<string, Failure>)
    requires state.Valid()
    modifies state, state.lexer
    ensures Agrees(r, RedirectionFilenameOf(state.lexer.text, old(state.View())), state)
  {
    var _ :- state.Advance();
    r := state.ExpectLexeme(Word);
  }

  /** Parses a built-in command, if the current word names one. */
  method ParseBuiltIn(state: ParserState) returns (r: Result<Option<BuiltIn>, Failure>)
    requires state.Valid() && state.current.tag == Word
    modifies state, state.lexer
    ensures Agrees(r, BuiltInOf(state.lexer.text, old(state.View())), state)
  {
    var name := state.current.lexeme;
    var builtIn;
    if name == "cd" {
      builtIn :- ParseCd(state);
    } else if name == "echo" {
      builtIn :- ParseEcho(state);
    } else if name == "exit" {
      builtIn :- ParseExit(state);
    } else if name == "history" {
      builtIn :- ParseHistory(state);
    } else if name == "pwd" {
      builtIn :- ParsePwd(state);
    } else if name == "type" {
      builtIn :- ParseType(state);
    } else {
      return Ok(None);
    }
    r := Ok(Some(builtIn));
  }

  /** Parses a cd command. */
  method ParseCd(state: ParserState) returns (r: Result<BuiltIn, Failure>)
    requires state.Valid() && state.current == Token(Word, "cd")
    modifies state, state.lexer
    ensures Agrees(r, CdOf(state.lexer.text, old(state.View())), state)
  {
    var _ :- state.Advance();
    var path :- state.ExpectLexeme(Word);
    r := Ok(Cd(path));
  }

  /** Parses an echo command. */
  method ParseEcho(state: ParserState) returns (r: Result<BuiltIn, Failure>)
    requires state.Valid() && state.current == Token(Word, "echo")
    modifies state, state.lexer
    ensures Agrees(r, EchoOf(state.lexer.text, old(state.View())), state)
  {
    var _ :- state.Advance();
    var args :- CollectIntegerWord(state);
    r := Ok(Echo(args));
  }

  /** Parses an exit command. */
  method ParseExit(state: ParserState) returns (r: Result<BuiltIn, Failure>)
    requires state.Valid() && state.current == Token(Word, "exit")
    modifies state, state.lexer
    ensures Agrees(r, ExitOf(state.lexer.text, old(state.View())), state)
  {
    var _ :- state.Advance();
    var status: U32;
    match state.current.tag {
      case Integer(n) =>
        var _ :- state.Advance();
        status := n;
      case _ =>
        status := 0;
    }
    r := Ok(Exit(status));
  }

  /** Parses a history command. */
  method ParseHistory(state: ParserState) returns (r: Result<BuiltIn, Failure>)
    requires state.Valid()
    modifies state, state.lexer
    ensures Agrees(r, HistoryOf(state.lexer.text, old(state.View())), state)
  {
    var _ :- state.Advance();
    r := Ok(History);
  }

  /** Parses a pwd command. */
  method ParsePwd(state: ParserState) returns (r: Result<BuiltIn, Failure>)
    requires state.Valid() && state.current == Token(Word, "pwd")
    modifies state, state.lexer
    ensures Agrees(r, PwdOf(state.lexer.text, old(state.View())), state)
  {
    var _ :- state.Advance();
    r := Ok(Pwd);
  }

  /** Parses the `type` built-in. */
  method ParseType(state: ParserState) returns (r: Result<BuiltIn, Failure>)
    requires state.Valid() && state.current == Token(Word, "type")
    modifies state, state.lexer
    ensures Agrees(r, TypeOf(state.lexer.text, old(state.View())), state)
  {
    var _ :- state.Advance();
    var command :- state.ExpectLexeme(Word);
    r := Ok(Type(command));
  }

  /** The lexemes collected so far in front of those still to come. */
  function PrependWords(done: seq<string>, r: Result<Step<seq<string>>, Failure>): Result<Step<seq<string>>, Failure> {
    if r.Ok? then Ok(Step(done + r.value.value, r.value.cursor)) else r
  }

  lemma PrependWordsTwice(a: seq<string>, b: seq<string>, r: Result<Step<seq<string>>, Failure>)
    ensures PrependWords(a, PrependWords(b, r)) == PrependWords(a + b, r)
  {
    if r.Ok? {
      assert a + (b + r.value.value) == (a + b) + r.value.value;
    }
  }

  /** One round of the collecting loop: a Word or Integer lexeme, then the rest. */
  lemma IntegerWordsUnfold(text: string, c: Cursor)
    requires Fits(text, c) && (c.current.tag.Word? || c.current.tag.Integer?)
    ensures var next := AdvanceCursor(text, c);
      IntegerWordsOf(text, c) ==
        if next.Err? then Err(next.error) else PrependWords([c.current.lexeme], IntegerWordsOf(text, next.value))
  {
  }

  /** Collects the lexemes of consecutive Word and Integer tokens. */
  method CollectIntegerWord(state: ParserState) returns (r: Result<seq<string>, Failure>)
    requires state.Valid()
    modifies state, state.lexer
    ensures Agrees(r, IntegerWordsOf(state.lexer.text, old(state.View())), state)
  {
    ghost var text := state.lexer.text;
    ghost var spec := IntegerWordsOf(text, state.View());
    var items := [];
    assert PrependWords([], spec) == spec by {
      if spec.Ok? {
        assert [] + spec.value.value == spec.value.value;
      }
    }
    while state.current.tag.Word? || state.current.tag.Integer?
      invariant state.Valid()
      invariant spec == PrependWords(items, IntegerWordsOf(text, state.View()))
      decreases Measure(text, state.View())
    {
      IntegerWordsUnfold(text, state.View());
      ghost var before := items;
      items := items + [state.current.lexeme];
      var _ :- state.Advance();
      PrependWordsTwice(before, items[|before|..], IntegerWordsOf(text, state.View()));
    }
    assert items + [] == items;
    r := Ok(items);
  }
}
