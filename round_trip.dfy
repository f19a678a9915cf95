/** Parsing inverts printing for simple pipelines: commands whose arguments are plain
    words, written with single spaces between the words and ` | ` between the
    commands, parse back to the same external commands, in the same order. */
module RoundTrip {
  import opened Outcomes
  import opened Scanning
  import opened TokenStream
  import opened Ast
  import opened Parsing
  import opened ScannerProperties
  import opened PipelineSteps
  import opened Printing

  /** The scan from pos skips the whitespace up to q and reads the simple word w there. */
  lemma {:induction false} LoadSimpleWord(text: string, pos: nat, q: nat, w: string)
    requires pos <= q && q + |w| <= |text| && text[q..q + |w|] == w && SimpleWord(w)
    requires forall i :: pos <= i < q ==> IsWhitespace(text[i])
    requires q + |w| == |text| || IsWhitespace(text[q + |w|])
    ensures LoadCursor(text, pos) == Ok(Cursor(Token(Word, w), q + |w|))
  {
    SimpleWordIn(text, q, w);
    WsEndAt(text, pos, q);
    PlainRun(text, q, q + |w|);
  }

  /** The characters of the simple word w, copied into text at q. */
  lemma {:induction false} SimpleWordIn(text: string, q: nat, w: string)
    requires q + |w| <= |text| && text[q..q + |w|] == w && SimpleWord(w)
    ensures text[q] != '|' && text[q] != '>' && !IsDigit(text[q])
    ensures forall i :: q <= i < q + |w| ==> Plain(text[i]) && !IsWhitespace(text[i])
  {
    assert text[q] == w[0];
    forall i | q <= i < q + |w|
      ensures Plain(text[i]) && !IsWhitespace(text[i])
    {
      assert text[i] == w[i - q];
    }
  }

  /** The whitespace run from pos ends at q when everything before q is whitespace and
      the character at q is not. */
  lemma {:induction false} WsEndAt(text: string, pos: nat, q: nat)
    requires pos <= q < |text| && !IsWhitespace(text[q])
    requires forall i :: pos <= i < q ==> IsWhitespace(text[i])
    ensures WsEnd(text, pos) == q
  {
    WsEndSkipsWhitespace(text, pos);
  }

  /** The token after the last word of a command: the end of the command, or a `|`. */
  lemma {:induction false} AfterWords(text: string, after: nat)
    requires Follows(text, after)
    ensures after == |text| ==> LoadCursor(text, after) == Ok(Cursor(Token(EndOfCommand, ""), |text|))
    ensures after < |text| ==> LoadCursor(text, after) == Ok(Cursor(Token(Pipe, "|"), after + 2))
  {
    if after < |text| {
      assert WsEnd(text, after + 1) == after + 1;
    }
  }

  /** The printed words, copied into text at pos, are laid out there. */
  lemma {:induction false} LaidOfJoin(text: string, pos: nat, args: seq<string>)
    requires args != [] && pos + |JoinWords(args)| <= |text| && text[pos..pos + |JoinWords(args)|] == JoinWords(args)
    ensures Laid(text, pos, args)
    decreases |args|
  {
    var J := JoinWords(args);
    assert text[pos..pos + |args[0]|] == J[..|args[0]|];
    if |args| > 1 {
      var rest := JoinWords(args[1..]);
      var q := pos + |args[0]| + 1;
      assert J == args[0] + " " + rest;
      assert text[pos + |args[0]|] == J[|args[0]|];
      assert text[q..q + |rest|] == J[|args[0]| + 1..];
      LaidOfJoin(text, q, args[1..]);
    }
  }

  /** The first of the laid-out words ends at whitespace or at the end of the text. */
  lemma {:induction false} FirstWordEnds(text: string, pos: nat, args: seq<string>, after: nat)
    requires Laid(text, pos, args) && after == pos + Width(args) && Follows(text, after)
    ensures pos + |args[0]| == |text| || IsWhitespace(text[pos + |args[0]|])
  {
  }

  /** One step of collecting words: a Word, then the words after it. */
  lemma {:induction false} WordsStep(text: string, c: Cursor, next: Cursor, args: seq<string>, last: Cursor)
    requires Fits(text, c) && c.current.tag == Word && args != [] && c.current.lexeme == args[0]
    requires AdvanceCursor(text, c) == Ok(next) && WordsRead(text, next, args[1..], last)
    ensures WordsRead(text, c, args, last)
  {
    IntegerWordsUnfold(text, c);
    assert [args[0]] + args[1..] == args;
  }

  /** The simple words args sit in text from pos on, separated by single spaces, and
      the last of them ends at after, where the command ends or ` | ` follows. This is
      `Printing.Laid` with the simple-word condition and the end position folded into one
      recursion (`WordsAtOfLaid` connects the two); the word-collection proof below goes
      through this form because it costs the verifier far less than Laid, Width and
      Follows together. */
  ghost predicate WordsAt(text: string, pos: nat, args: seq<string>, after: nat)
    decreases |args|
  {
    && args != [] && SimpleWord(args[0])
    && pos + |args[0]| <= |text| && text[pos..pos + |args[0]|] == args[0]
    && if |args| == 1 then after == pos + |args[0]| && Follows(text, after)
       else pos + |args[0]| < |text| && text[pos + |args[0]|] == ' ' && WordsAt(text, pos + |args[0]| + 1, args[1..], after)
  }

  /** Laid-out simple words followed by the end of the command or ` | `. */
  lemma {:induction false} WordsAtOfLaid(text: string, pos: nat, args: seq<string>, after: nat)
    requires forall j :: 0 <= j < |args| ==> SimpleWord(args[j])
    requires Laid(text, pos, args) && after == pos + Width(args) && Follows(text, after)
    ensures WordsAt(text, pos, args, after)
    decreases |args|
  {
    if |args| > 1 {
      NextWord(text, pos, args, after);
      WordsAtOfLaid(text, pos + |args[0]| + 1, args[1..], after);
    }
  }

  /** The first of the words ends at whitespace or at the end of the text. */
  lemma {:induction false} WordEnds(text: string, pos: nat, args: seq<string>, after: nat)
    requires WordsAt(text, pos, args, after)
    ensures pos + |args[0]| == |text| || IsWhitespace(text[pos + |args[0]|])
  {
  }

  /** The words of a command, once the first has been read, are collected up to the
      token after them, which the scan from after (where the words end) reads. */
  lemma {:induction false} WordsFrom(text: string, pos: nat, args: seq<string>, after: nat, last: Cursor)
    requires WordsAt(text, pos, args, after) && after <= |text|
    requires LoadCursor(text, after) == Ok(last) && (last.current.tag == EndOfCommand || last.current.tag == Pipe)
    ensures pos + |args[0]| <= after <= |text|
    ensures WordsRead(text, Cursor(Token(Word, args[0]), pos + |args[0]|), args, last)
    decreases |args|
  {
    if |args| == 1 {
      LastWord(text, pos, args, after, last);
    } else {
      var q := pos + |args[0]| + 1;
      WordsFrom(text, q, args[1..], after, last);
      WordEnds(text, q, args[1..], after);
      SpacedWords(text, Cursor(Token(Word, args[0]), pos + |args[0]|), args, last);
    }
  }

  /** The last word of a command is followed by the token that ends the words. */
  lemma {:induction false} LastWord(text: string, pos: nat, args: seq<string>, after: nat, last: Cursor)
    requires |args| == 1 && WordsAt(text, pos, args, after) && after <= |text|
    requires LoadCursor(text, after) == Ok(last) && (last.current.tag == EndOfCommand || last.current.tag == Pipe)
    ensures pos + |args[0]| == after <= |text|
    ensures WordsRead(text, Cursor(Token(Word, args[0]), pos + |args[0]|), args, last)
  {
    assert args[1..] == [] && IntegerWordsOf(text, last) == Ok(Step([], last));
    WordsStep(text, Cursor(Token(Word, args[0]), pos + |args[0]|), last, args, last);
  }

  /** A Word, a single space, then a simple word and the words read from there on. */
  lemma {:induction false} SpacedWords(text: string, c: Cursor, args: seq<string>, last: Cursor)
    requires |args| > 1 && c.current == Token(Word, args[0]) && c.pos < |text|
    requires var w, q := args[1..][0], c.pos + 1;
      && q + |w| <= |text| && text[c.pos] == ' ' && text[q..q + |w|] == w && SimpleWord(w)
      && (q + |w| == |text| || IsWhitespace(text[q + |w|]))
      && WordsRead(text, Cursor(Token(Word, w), q + |w|), args[1..], last)
    ensures WordsRead(text, c, args, last)
  {
    var w, q := args[1..][0], c.pos + 1;
    LoadSimpleWord(text, c.pos, q, w);
    WordsStep(text, c, Cursor(Token(Word, w), q + |w|), args, last);
  }

  /** After the first of several laid-out words comes a single space, then the second
      word, which ends at whitespace or at the end of the text, and the remaining words
      are laid out after that space. */
  lemma {:induction false} NextWord(text: string, pos: nat, args: seq<string>, after: nat)
    requires |args| > 1 && forall j :: 0 <= j < |args| ==> SimpleWord(args[j])
    requires Laid(text, pos, args) && after == pos + Width(args) && Follows(text, after)
    ensures var q := pos + |args[0]| + 1;
      && (forall j :: 0 <= j < |args[1..]| ==> SimpleWord(args[1..][j]))
      && Laid(text, q, args[1..]) && after == q + Width(args[1..]) && Follows(text, after)
      && q + |args[1..][0]| <= |text| && text[q - 1] == ' ' && text[q..q + |args[1..][0]|] == args[1..][0]
      && (q + |args[1..][0]| == |text| || IsWhitespace(text[q + |args[1..][0]|]))
  {
    var q := pos + |args[0]| + 1;
    var tail := args[1..];
    assert tail[0] == args[1];
    assert JoinWords(args) == args[0] + " " + JoinWords(tail);
    FirstWordEnds(text, q, tail, after);
  }

  /** The first command of a laid-out pipeline and what follows it. */
  lemma {:induction false} LaidHead(text: string, pos: nat, p: seq<seq<string>>)
    requires PipelineLaid(text, pos, p)
    ensures var after := pos + Width(p[0]);
      && SimpleArgs(p[0]) && Laid(text, pos, p[0]) && Follows(text, after)
      && (|p| == 1 ==> after == |text|)
      && (|p| > 1 ==> after + 3 <= |text| && PipelineLaid(text, after + 3, p[1..]))
  {
  }

  /** A printed pipeline of several commands, copied into the end of text: the first
      command, then ` | `, then the printed rest of the pipeline. */
  lemma {:induction false} RenderSplit(text: string, pos: nat, p: seq<seq<string>>)
    requires RenderedAt(text, pos, p) && |p| > 1
    ensures var after := pos + Width(p[0]);
      && SimpleArgs(p[0]) && RenderedAt(text, after + 3, p[1..])
      && after + 3 <= |text| && text[pos..after] == JoinWords(p[0])
      && text[after] == ' ' && text[after + 1] == '|' && text[after + 2] == ' '
  {
    var J := JoinWords(p[0]);
    var after := pos + |J|;
    var tail := p[1..];
    assert SimplePipeline(tail) by {
      forall i | 0 <= i < |tail|
        ensures SimpleArgs(tail[i])
      {
        assert tail[i] == p[i + 1];
      }
    }
    var whole := Render(p);
    assert whole == J + " | " + Render(tail);
    assert text[pos..after] == whole[..|J|];
    assert text[after] == whole[|J|] && text[after + 1] == whole[|J| + 1] && text[after + 2] == whole[|J| + 2];
    assert text[after + 3..] == whole[|J| + 3..];
  }

  // The render lemmas below state their hypothesis as the left side of an implication
  // rather than as a requires clause: at a call site a requires clause is a goal that
  // makes the verifier unfold RenderedAt, and that unfolding costs more than the whole
  // proof otherwise does.

  /** A printed pipeline, copied into the end of text, is laid out there. */
  lemma {:induction false} PipelineLaidOfRender(text: string, pos: nat, p: seq<seq<string>>)
    ensures RenderedAt(text, pos, p) ==> PipelineLaid(text, pos, p)
    decreases |p|
  {
    if |p| > 1 && p[0] != [] {
      RenderTail(text, pos, p);
      PipelineLaidOfRender(text, pos + Width(p[0]) + 3, p[1..]);
      RenderCons(text, pos, p);
    } else {
      RenderOne(text, pos, p);
    }
  }

  /** A printed pipeline of one command is laid out. */
  lemma {:induction false} RenderOne(text: string, pos: nat, p: seq<seq<string>>)
    ensures RenderedAt(text, pos, p) && |p| == 1 ==> PipelineLaid(text, pos, p)
  {
    if RenderedAt(text, pos, p) && |p| == 1 {
      assert SimpleArgs(p[0]);
      LaidOfJoin(text, pos, p[0]);
    }
  }

  /** What follows the first command and its ` | ` is the printed rest of the pipeline. */
  lemma {:induction false} RenderTail(text: string, pos: nat, p: seq<seq<string>>)
    ensures RenderedAt(text, pos, p) && |p| > 1 ==> RenderedAt(text, pos + Width(p[0]) + 3, p[1..])
  {
    if RenderedAt(text, pos, p) && |p| > 1 {
      RenderSplit(text, pos, p);
    }
  }

  /** The first command of a printed pipeline, in front of the laid-out rest. */
  lemma {:induction false} RenderCons(text: string, pos: nat, p: seq<seq<string>>)
    requires |p| > 1
    ensures RenderedAt(text, pos, p) && PipelineLaid(text, pos + Width(p[0]) + 3, p[1..]) ==> PipelineLaid(text, pos, p)
  {
    if RenderedAt(text, pos, p) && PipelineLaid(text, pos + Width(p[0]) + 3, p[1..]) {
      RenderSplit(text, pos, p);
      LaidOfJoin(text, pos, p[0]);
      LaidCons(text, pos, p);
    }
  }

  /** A command laid out at pos, then ` | `, then a laid-out pipeline is a laid-out
      pipeline. */
  lemma {:induction false} LaidCons(text: string, pos: nat, p: seq<seq<string>>)
    requires |p| > 1 && SimpleArgs(p[0]) && Laid(text, pos, p[0])
    requires var after := pos + Width(p[0]);
      && after + 3 <= |text| && text[after] == ' ' && text[after + 1] == '|' && text[after + 2] == ' '
      && PipelineLaid(text, after + 3, p[1..])
    ensures PipelineLaid(text, pos, p)
  {
  }

  /** An external command of simple words without a redirection, once its first word
      has been read. */
  lemma {:induction false} CommandAt(text: string, pos: nat, args: seq<string>, after: nat, last: Cursor)
    requires SimpleArgs(args) && Laid(text, pos, args) && after == pos + Width(args) && Follows(text, after)
    requires LoadCursor(text, after) == Ok(last)
    ensures pos + |args[0]| <= after <= |text|
    ensures CommandOf(text, Cursor(Token(Word, args[0]), pos + |args[0]|)) == Ok(Step(External(ExternalCommand(args, NoRedirection)), last))
  {
    var c := Cursor(Token(Word, args[0]), pos + |args[0]|);
    AfterWords(text, after);
    WordsAtOfLaid(text, pos, args, after);
    WordsFrom(text, pos, args, after, last);
    assert BuiltInOf(text, c) == Ok(Step(None, c));
    assert RedirectionOf(text, last) == Ok(Step(NoRedirection, last));
  }

  /** After ` | `, the `|` token is matched and the simple word w that starts right after
      the space is read. */
  lemma {:induction false} PipeThenWord(text: string, after: nat, w: string)
    requires var q := after + 3;
      && q + |w| <= |text| && text[after + 1] == '|' && text[after + 2] == ' '
      && text[q..q + |w|] == w && SimpleWord(w) && (q + |w| == |text| || IsWhitespace(text[q + |w|]))
    ensures MatchCursor(text, Cursor(Token(Pipe, "|"), after + 2), Pipe) == Ok(Step(true, Cursor(Token(Word, w), after + 3 + |w|)))
  {
    LoadSimpleWord(text, after + 2, after + 3, w);
    MatchLoads(text, Cursor(Token(Pipe, "|"), after + 2), Pipe, Cursor(Token(Word, w), after + 3 + |w|));
  }

  /** The last command of a printed pipeline is read up to the end of the command. */
  lemma {:induction false} LastCommand(text: string, pos: nat, args: seq<string>)
    requires SimpleArgs(args) && Laid(text, pos, args) && pos + Width(args) == |text|
    ensures pos + |args[0]| <= |text|
    ensures CommandOf(text, Cursor(Token(Word, args[0]), pos + |args[0]|)) ==
      Ok(Step(External(ExternalCommand(args, NoRedirection)), Cursor(Token(EndOfCommand, ""), |text|)))
  {
    AfterWords(text, |text|);
    CommandAt(text, pos, args, |text|, Cursor(Token(EndOfCommand, ""), |text|));
  }

  /** A command followed by ` | ` is read up to the `|`. */
  lemma {:induction false} CommandToPipe(text: string, pos: nat, args: seq<string>, after: nat)
    requires SimpleArgs(args) && Laid(text, pos, args) && after == pos + Width(args)
    requires after + 3 <= |text| && text[after] == ' ' && text[after + 1] == '|' && text[after + 2] == ' '
    ensures pos + |args[0]| <= |text|
    ensures CommandOf(text, Cursor(Token(Word, args[0]), pos + |args[0]|)) ==
      Ok(Step(External(ExternalCommand(args, NoRedirection)), Cursor(Token(Pipe, "|"), after + 2)))
  {
    AfterWords(text, after);
    CommandAt(text, pos, args, after, Cursor(Token(Pipe, "|"), after + 2));
  }

  /** A command followed by ` | ` is read up to the `|`, which is matched before the
      first word of the next command. */
  lemma {:induction false} PipedCommand(text: string, pos: nat, args: seq<string>, after: nat, w: string)
    requires SimpleArgs(args) && Laid(text, pos, args) && after == pos + Width(args)
    requires var q := after + 3;
      && q + |w| <= |text| && text[after] == ' ' && text[after + 1] == '|' && text[after + 2] == ' '
      && text[q..q + |w|] == w && SimpleWord(w) && (q + |w| == |text| || IsWhitespace(text[q + |w|]))
    ensures pos + |args[0]| <= |text|
    ensures CommandOf(text, Cursor(Token(Word, args[0]), pos + |args[0]|)) ==
      Ok(Step(External(ExternalCommand(args, NoRedirection)), Cursor(Token(Pipe, "|"), after + 2)))
    ensures MatchCursor(text, Cursor(Token(Pipe, "|"), after + 2), Pipe) == Ok(Step(true, Cursor(Token(Word, w), after + 3 + |w|)))
  {
    CommandToPipe(text, pos, args, after);
    PipeThenWord(text, after, w);
  }

  /** The last command of a printed pipeline, once its first word has been read, is a
      pipeline of that one command ending at the end of the text. */
  lemma {:induction false} PipelineLast(text: string, pos: nat, args: seq<string>)
    requires SimpleArgs(args) && Laid(text, pos, args) && pos + Width(args) == |text|
    ensures pos + |args[0]| <= |text|
    ensures PipelineOf(text, Cursor(Token(Word, args[0]), pos + |args[0]|)) ==
      Ok(Step([External(ExternalCommand(args, NoRedirection))], Cursor(Token(EndOfCommand, ""), |text|)))
  {
    LastCommand(text, pos, args);
    PipelineEnds(text, Cursor(Token(Word, args[0]), pos + |args[0]|), External(ExternalCommand(args, NoRedirection)),
      Cursor(Token(EndOfCommand, ""), |text|));
  }

  /** A laid-out pipeline of one command. */
  lemma {:induction false} PipelineOne(text: string, pos: nat, p: seq<seq<string>>)
    requires PipelineLaid(text, pos, p) && |p| == 1
    ensures pos + |p[0][0]| <= |text|
    ensures PipelineParses(text, Opening(pos, p), Ok(Step(Commands(p), Cursor(Token(EndOfCommand, ""), |text|))))
  {
    LaidOne(text, pos, p);
    CommandsOne(pos, p);
    PipelineLast(text, pos, p[0]);
  }

  /** A pipeline of one command: its only command, read from its first word. */
  lemma {:induction false} CommandsOne(pos: nat, p: seq<seq<string>>)
    requires |p| == 1 && p[0] != []
    ensures Commands(p) == [External(ExternalCommand(p[0], NoRedirection))]
    ensures Opening(pos, p) == Cursor(Token(Word, p[0][0]), pos + |p[0][0]|)
  {
    assert Commands(p[1..]) == [];
  }

  /** The only command of a laid-out pipeline of one command reaches the end of the text. */
  lemma {:induction false} LaidOne(text: string, pos: nat, p: seq<seq<string>>)
    requires PipelineLaid(text, pos, p) && |p| == 1
    ensures SimpleArgs(p[0]) && Laid(text, pos, p[0]) && pos + Width(p[0]) == |text|
  {
  }

  /** The rest of a laid-out pipeline of several commands, after the first command and
      its ` | `, is laid out. */
  lemma {:induction false} LaidTail(text: string, pos: nat, p: seq<seq<string>>)
    requires PipelineLaid(text, pos, p) && |p| > 1
    ensures PipelineLaid(text, pos + Width(p[0]) + 3, p[1..])
  {
  }

  /** The first two commands of a laid-out pipeline of several commands, and the ` | `
      between them. */
  lemma {:induction false} LaidPair(text: string, pos: nat, p: seq<seq<string>>)
    requires PipelineLaid(text, pos, p) && |p| > 1
    ensures var after := pos + Width(p[0]);
      && SimpleArgs(p[0]) && Laid(text, pos, p[0])
      && after + 3 <= |text| && text[after] == ' ' && text[after + 1] == '|' && text[after + 2] == ' '
      && p[1..][0] != [] && var w, q := p[1..][0][0], after + 3;
      && q + |w| <= |text| && text[q..q + |w|] == w && SimpleWord(w) && (q + |w| == |text| || IsWhitespace(text[q + |w|]))
  {
    var q := pos + Width(p[0]) + 3;
    var next := p[1..][0];
    LaidHead(text, pos, p);
    LaidHead(text, q, p[1..]);
    FirstWordEnds(text, q, next, q + Width(next));
  }

  /** The first command of a laid-out pipeline of several commands is read up to the
      `|`, which is matched before the first word of the second command. */
  lemma {:induction false} PipeFacts(text: string, pos: nat, p: seq<seq<string>>)
    requires PipelineLaid(text, pos, p) && |p| > 1
    ensures var after := pos + Width(p[0]);
      && p[1..][0] != []
      && pos + |p[0][0]| <= |text| && after + 3 + |p[1..][0][0]| <= |text|
      && CommandOf(text, Cursor(Token(Word, p[0][0]), pos + |p[0][0]|)) ==
           Ok(Step(External(ExternalCommand(p[0], NoRedirection)), Cursor(Token(Pipe, "|"), after + 2)))
      && MatchCursor(text, Cursor(Token(Pipe, "|"), after + 2), Pipe) ==
           Ok(Step(true, Cursor(Token(Word, p[1..][0][0]), after + 3 + |p[1..][0][0]|)))
  {
    var after := pos + Width(p[0]);
    var next := p[1..][0];
    LaidPair(text, pos, p);
    PipedCommand(text, pos, p[0], after, next[0]);
  }

  /** A laid-out pipeline of several commands parses to its first command in front of
      the commands the rest of it parses to. */
  lemma {:induction false} PipelineCons(text: string, pos: nat, p: seq<seq<string>>, end: Cursor)
    requires PipelineLaid(text, pos, p) && |p| > 1
    requires var d := Opening(pos + Width(p[0]) + 3, p[1..]);
      && d.pos <= |text| && PipelineOf(text, d) == Ok(Step(Commands(p[1..]), end))
    ensures pos + |p[0][0]| <= |text|
    ensures PipelineOf(text, Opening(pos, p)) == Ok(Step(Commands(p), end))
  {
    var after := pos + Width(p[0]);
    var command := External(ExternalCommand(p[0], NoRedirection));
    var c, d := Opening(pos, p), Opening(after + 3, p[1..]);
    assert Commands(p) == [command] + Commands(p[1..]);
    PipeFacts(text, pos, p);
    assert c == Cursor(Token(Word, p[0][0]), pos + |p[0][0]|);
    assert d == Cursor(Token(Word, p[1..][0][0]), after + 3 + |p[1..][0][0]|);
    PipelineStep(text, c, command, Cursor(Token(Pipe, "|"), after + 2), d);
    PipedThen(text, c, command, d, Step(Commands(p[1..]), end));
  }

  /** A laid-out pipeline of simple commands, once its first word has been read, parses
      to its commands and ends at the end of the text. */
  lemma {:induction false} PipelineFrom(text: string, pos: nat, p: seq<seq<string>>)
    requires PipelineLaid(text, pos, p)
    ensures pos + |p[0][0]| <= |text|
    ensures PipelineOf(text, Opening(pos, p)) == Ok(Step(Commands(p), Cursor(Token(EndOfCommand, ""), |text|)))
    decreases |p|
  {
    if |p| == 1 {
      PipelineOne(text, pos, p);
    } else {
      LaidTail(text, pos, p);
      PipelineFrom(text, pos + Width(p[0]) + 3, p[1..]);
      PipelineCons(text, pos, p, Cursor(Token(EndOfCommand, ""), |text|));
    }
  }

  /** A command line whose first token is a Word parses to the pipeline parsed from there. */
  lemma {:induction false} ParseFromStart(text: string, c: Cursor, commands: seq<Command>, end: Cursor)
    requires StartCursor(text) == Ok(c) && c.current.tag == Word
    requires PipelineParses(text, c, Ok(Step(commands, end)))
    ensures ParseOf(text) == Ok(commands)
  {
  }

  /** Printing a simple pipeline and parsing it back gives its commands, one per
      `|`-separated part and in order. */
  lemma {:induction false} ParsePrinted(p: seq<seq<string>>)
    requires SimplePipeline(p)
    ensures ParseOf(Render(p)) == Ok(Commands(p))
    ensures |ParseOf(Render(p)).value| == |p|
  {
    var text := Render(p);
    assert text[0..] == text;
    assert RenderedAt(text, 0, p);
    PipelineLaidOfRender(text, 0, p);
    FirstWordEnds(text, 0, p[0], Width(p[0]));
    LoadSimpleWord(text, 0, 0, p[0][0]);
    PipelineFrom(text, 0, p);
    ParseFromStart(text, Opening(0, p), Commands(p), Cursor(Token(EndOfCommand, ""), |text|));
  }
}
