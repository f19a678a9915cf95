/** Named facts about one step of the pipeline grammar (`parse_pipeline`): a command read
    from a cursor, the `|` after it, and what the rest of the pipeline parses to. The
    round-trip proof chains these facts from one command to the next. */
module PipelineSteps {
  import opened Outcomes
  import opened Scanning
  import opened TokenStream
  import opened Ast
  import opened Parsing

  // The predicates below only name equalities between a grammar function and a value.
  // Stated through them, the lemmas of this module and of the round trip keep each
  // grammar function folded inside a named fact, which keeps every proof obligation
  // small enough for the verifier.

  /** The command read from c is command, and reading stops at next. */
  ghost predicate CommandReads(text: string, c: Cursor, command: Command, next: Cursor)
    requires Fits(text, c)
  {
    CommandOf(text, c) == Ok(Step(command, next))
  }

  /** The words collected from c are args, and collecting stops at last. */
  ghost predicate WordsRead(text: string, c: Cursor, args: seq<string>, last: Cursor)
    requires Fits(text, c)
  {
    IntegerWordsOf(text, c) == Ok(Step(args, last))
  }

  /** The current token at pipe is a `|`, and the token after it is read into next. */
  ghost predicate PipeReads(text: string, pipe: Cursor, next: Cursor)
    requires Fits(text, pipe)
  {
    MatchCursor(text, pipe, Pipe) == Ok(Step(true, next))
  }

  /** The pipeline parsed from c is r. */
  ghost predicate PipelineParses(text: string, c: Cursor, r: Result<Step<seq<Command>>, Failure>)
    requires Fits(text, c)
  {
    PipelineOf(text, c) == r
  }

  /** After the command read from c and the `|` after it, the pipeline goes on at next:
      what is parsed from c is that command in front of what is parsed from next. */
  ghost predicate PipedTo(text: string, c: Cursor, command: Command, next: Cursor)
    requires Fits(text, c) && Fits(text, next)
  {
    PipelineOf(text, c) == PrependCommands([command], PipelineOf(text, next))
  }

  /** One round of the pipeline: a command, then a `|` and the rest of the pipeline. */
  lemma {:induction false} PipelineStep(text: string, c: Cursor, command: Command, pipe: Cursor, next: Cursor)
    requires Fits(text, c) && Fits(text, pipe) && Fits(text, next)
    ensures CommandReads(text, c, command, pipe) && PipeReads(text, pipe, next) ==> PipedTo(text, c, command, next)
  {
    PipelineUnfold(text, c);
  }

  /** A command that reads up to the end of the command line is a pipeline of its own. */
  lemma {:induction false} PipelineEnds(text: string, c: Cursor, command: Command, end: Cursor)
    requires Fits(text, c) && Fits(text, end)
    ensures CommandReads(text, c, command, end) && end.current.tag == EndOfCommand ==>
      PipelineParses(text, c, Ok(Step([command], end)))
  {
    PipelineUnfold(text, c);
  }

  /** A piped command in front of a pipeline that parses. */
  lemma {:induction false} PipedThen(text: string, c: Cursor, command: Command, next: Cursor, rest: Step<seq<Command>>)
    requires Fits(text, c) && Fits(text, next)
    ensures PipedTo(text, c, command, next) && PipelineParses(text, next, Ok(rest)) ==>
      PipelineParses(text, c, Ok(Step([command] + rest.value, rest.cursor)))
  {
  }

  /** A cursor on a token of the matched tag moves on to the token the scan reads next. */
  lemma {:induction false} MatchLoads(text: string, c: Cursor, tag: TokenTag, next: Cursor)
    requires Fits(text, c)
    ensures c.current.tag == tag && LoadCursor(text, c.pos) == Ok(next) ==> MatchCursor(text, c, tag) == Ok(Step(true, next))
  {
  }
}
