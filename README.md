# Command-line front end of a small shell, in Dafny

This project models the front end of a small Unix-like shell: the **scanner** that
turns a command line into tokens and the **recursive-descent parser** that turns those
tokens into a pipeline of commands. It also proves properties of both.

- **Scanner** (`src/scanner.rs`). It handles:
  - whitespace skipping;
  - the operators `|`, `>` and `>>`;
  - integers and the file-descriptor redirections `n>` and `n>>`;
  - words read through a five-state quote/escape automaton (Normal, InSingleQuote,
    InDoubleQuote, BackSpace, QuotedBackSpace).
- **Parser** (`src/parser.rs`). It handles:
  - built-in dispatch on the exact names `cd`, `echo`, `exit`, `history`, `pwd` and
    `type`, each with its own argument grammar;
  - external commands, whose arguments are the run of Word and Integer lexemes;
  - one optional redirection per command, accepting only file descriptors 1 and 2;
  - `|`-separated pipelines of any length.

Each file is modelled twice:

1. **Pure functions.** The scanner is specified over the command text and a position
   in it (`WsEnd`, `IntegerAt`, `WordAt`, `ScanToken`). The parser's grammar is
   specified over a `Cursor`, the current token plus the scanner position
   (`PipelineOf`, `CommandOf`, `RedirectionOf`, …).
2. **Imperative code.** The Rust code is followed statement by statement:
   - the `Scanner` class has the `current`/`next` lookahead fields that `Advance`
     shifts;
   - the `ParserState` class carries the current token;
   - each parser function becomes a method on that state.

   Every method is proved to return what the function returns and to leave the state
   where the function says.

The properties are proved on the pure functions. The centerpiece is a round trip:

- take any pipeline of external commands whose arguments are plain words;
- print it with single spaces between words and ` | ` between commands;
- parsing that text gives back the same commands, in the same order
  (`RoundTrip.ParsePrinted`).

Files:

| file | module | contents |
|---|---|---|
| `outcomes.dfy` | `Outcomes` | `Option` and `Result` (`:-` plays Rust's `?`) |
| `scanner.dfy` | `Scanning` | tokens, `parse_u32`, the scanner specification, the `Scanner` class |
| `token_stream.dfy` | `TokenStream` | the `parser_state` crate's `ParserState`, as a cursor and as a class |
| `ast.dfy` | `Ast` | `Command`, `BuiltIn`, `Redirection`, as `src/parser.rs` builds them |
| `parser.dfy` | `Parsing` | the grammar as functions, and the parser methods |
| `scanner_properties.dfy` | `ScannerProperties` | numbers, operators, integers, quoting and escapes, word errors |
| `parser_properties.dfy` | `ParserProperties` | empty input, dispatch, argument grammars, redirections, how a pipeline ends |
| `printing.dfy` | `Printing` | printing a simple pipeline, and where its words sit in the text |
| `pipeline_steps.dfy` | `PipelineSteps` | one round of the pipeline loop, as named facts |
| `round_trip.dfy` | `RoundTrip` | parsing a printed simple pipeline gives it back |

Three behaviours of the code a reader might not expect:

- **Trailing tokens.** Tokens after a complete command (`pwd foo`, `history 5`) are not
  a parse error. The pipeline loop stops at any token other than `|` and leaves it
  unread (`ParserProperties.TrailingWordIgnored`, `ParserProperties.NoArgumentLine`).
- **Error message.** The message for a word that ends in an unquoted backslash is
  "dangling back space".
- **`history`.** It takes no argument.

## Model

| member | source | states |
|---|---|---|
| ScannerProperties.DigitCharacters | src/scanner.rs:315-317 | a digit is one of the ten characters `0` to `9` |
| ScannerProperties.WhitespaceCharacters | src/scanner.rs:320-322 | whitespace is exactly space, tab, CR and LF, none of which is a digit, a pipe character, `>`, a quote or a backslash |
| Scanning.ParseU32 | src/scanner.rs:305-312 | on a digit string, `parse_u32` succeeds exactly when the string is non-empty and its value fits in a u32, and then returns that value; every failure carries the "couldn't parse" message with the string in it |
| Scanning.TagDisplay | src/scanner.rs:37-50 | the `Display` text of a tag is never empty, and starts with a digit exactly for the tags that carry a number |
| Scanning.TagDebug | src/scanner.rs:9 | the derived `Debug` text is never empty; a tag with a number shows its variant name and the number's `Display` text in parentheses; the other tags show no parentheses |
| Scanning.NatToDecimal | src/scanner.rs:41-46 | the `{}` text of a number is non-empty, all digits, and has no leading zero |
| Scanning.WsEnd | src/scanner.rs:288-295 | skipping whitespace stops at the end or at the first character that is not whitespace, never before pos |
| Scanning.WsEndSkipsWhitespace | src/scanner.rs:288-295 | every character skipped is whitespace (space, tab, CR, LF) |
| Scanning.DigitEnd | src/scanner.rs:257-265 | the digit loop stops at the end or at the first non-digit |
| Scanning.DigitEndSkipsDigits | src/scanner.rs:257-265 | every character the digit loop reads is a digit |
| Scanning.IntegerFinish | src/scanner.rs:267-284 | after the digit run, the integer scanner succeeds exactly when `parse_u32` does and then passes its error through unchanged; it consumes at most the two `>` after the digits, its lexeme is longer than the digits by exactly what it consumes after them, and it yields a plain Integer of the parsed value exactly when it consumes neither |
| Scanning.IntegerAt | src/scanner.rs:255-285 | the integer scanner consumes at least the digit run; its tokens are Integer, `n>` or `n>>` |
| Scanning.Transition | src/scanner.rs:168-236 | one step of the word automaton: the word ends exactly on whitespace in the Normal state; each step emits at most two characters and the last is always the character read; two are emitted only after a backslash inside double quotes, and the first of them is that backslash; a step that emits nothing reads a quote or backslash outside an escape |
| Scanning.EndOfInput | src/scanner.rs:237-246 | at the end of the text the word is complete exactly in the Normal state; every other state is one of the three errors |
| Scanning.WordAt | src/scanner.rs:161-252 | the word automaton stays within the text and consumes every character it moves over |
| Scanning.WordToken | src/scanner.rs:137-140 | a word token is tagged Word and consumes at least its first character |
| Scanning.TokenAt | src/scanner.rs:118-141 | the token dispatch: end of command only at the end of the text, every other token consumes a character |
| Scanning.ScanToken | src/scanner.rs:115-144 | `next_token`: whitespace skipped first; EndOfCommand consumes the rest of the text; any other token consumes past the whitespace |
| Scanning.Scanner.constructor | src/scanner.rs:149-158 | `new` primes current and next with the first two characters |
| Scanning.Scanner.Advance | src/scanner.rs:298-301 | current takes next's value, and next takes the iterator's next character or None |
| Scanning.Scanner.SkipWhitespace | src/scanner.rs:288-295 | the loop leaves the scanner at WsEnd of where it started |
| Scanning.Scanner.NextToken | src/scanner.rs:115-144 | returns ScanToken's token or error and stops where ScanToken stops |
| Scanning.Scanner.Word | src/scanner.rs:161-252 | the quote/escape loop returns what WordAt from Normal yields and stops where it stops |
| Scanning.Scanner.Integer | src/scanner.rs:255-285 | returns IntegerAt's token or error and stops where it stops |
| Scanning.Scanner.Digits | src/scanner.rs:256-265 | the digit loop collects exactly the digit run and stops at DigitEnd |
| TokenStream.LoadCursor | src/scanner.rs:115-144 | a token that scans becomes a cursor that fits the text and does not move back; a token other than end of command moves strictly forward |
| TokenStream.StartCursor | src/parser.rs:14-15 | `ParserState::new` loads the first token into a cursor that fits the text |
| TokenStream.AdvanceCursor | src/parser.rs:96 | `advance` loads the next token; past a token other than end of command, the work left shrinks |
| TokenStream.MatchCursor | src/parser.rs:35 | `matches(tag)` answers true exactly when the current tag is tag; on false the cursor does not move |
| TokenStream.ExpectCursor | src/parser.rs:98 | `expect_lexeme(tag)` returns the current lexeme when the tag matches, and fails with "expected " + the tag otherwise |
| TokenStream.ParserState.New | src/parser.rs:15 | the state's first token is StartCursor's, or its scan error |
| TokenStream.ParserState.Advance | src/parser.rs:120 | the new state is AdvanceCursor of the old one, or its error |
| TokenStream.ParserState.Matches | src/parser.rs:35 | result and new state are MatchCursor's |
| TokenStream.ParserState.ExpectLexeme | src/parser.rs:98 | result and new state are ExpectCursor's |
| Parsing.IntegerWordsOf | src/parser.rs:176-183 | collecting stops at the first token that is neither Word nor Integer |
| Parsing.RedirectionFilenameOf | src/parser.rs:94-100 | reading a redirection's file name never moves the cursor backwards |
| Parsing.RedirectionOf | src/parser.rs:61-92 | a redirection never moves the cursor backwards |
| Parsing.CdOf | src/parser.rs:117-123 | `cd` consumes at least its own word |
| Parsing.EchoOf | src/parser.rs:126-132 | `echo` consumes at least its own word |
| Parsing.ExitOf | src/parser.rs:135-150 | `exit` consumes at least its own word |
| Parsing.HistoryOf | src/parser.rs:152-156 | `history` consumes the current token (what it yields: `ParserProperties.NoArguments`) |
| Parsing.PwdOf | src/parser.rs:159-164 | `pwd` consumes at least its own word (what it yields: `ParserProperties.NoArguments`) |
| Parsing.TypeOf | src/parser.rs:167-173 | `type` consumes at least its own word |
| Parsing.BuiltInOf | src/parser.rs:102-114 | a built-in exactly when the lexeme is one of the six names; otherwise nothing is consumed (which built-in: `ParserProperties.BuiltInDispatch`) |
| Parsing.CommandOf | src/parser.rs:41-59 | a command not starting with a Word is the `assert!` panic; a parsed command consumes its first word (its built-in or words and its redirection: `ParserProperties.CommandParts`) |
| Parsing.PipelineOf | src/parser.rs:28-39 | a parsed pipeline has at least one command, and parsing consumes input |
| Parsing.ParseOf | src/parser.rs:13-24 | `parse` passes a scan error of the first token through; a successful parse is the empty pipeline exactly when the first token is the end of command, and any other successful parse starts with a Word |
| Parsing.Parse | src/parser.rs:13-24 | `parse` returns exactly ParseOf of the text |
| Parsing.ParsePipeline | src/parser.rs:28-39 | the loop that pushes commands returns PipelineOf's commands and stops where it stops |
| Parsing.ParseCommand | src/parser.rs:41-59 | agrees with CommandOf, the panic included |
| Parsing.ParseRedirection | src/parser.rs:61-92 | agrees with RedirectionOf |
| Parsing.ParseRedirectionFilename | src/parser.rs:94-100 | agrees with RedirectionFilenameOf |
| Parsing.ParseBuiltIn | src/parser.rs:102-114 | agrees with BuiltInOf |
| Parsing.ParseCd | src/parser.rs:117-123 | agrees with CdOf |
| Parsing.ParseEcho | src/parser.rs:126-132 | agrees with EchoOf |
| Parsing.ParseExit | src/parser.rs:135-150 | agrees with ExitOf |
| Parsing.ParseHistory | src/parser.rs:152-156 | agrees with HistoryOf |
| Parsing.ParsePwd | src/parser.rs:159-164 | agrees with PwdOf |
| Parsing.ParseType | src/parser.rs:167-173 | agrees with TypeOf |
| Parsing.CollectIntegerWord | src/parser.rs:176-183 | the loop that pushes lexemes returns IntegerWordsOf's words and stops where it stops |
| ScannerProperties.DecimalOfNat | src/scanner.rs:305-312 | reading the decimal text of n gives n |
| ScannerProperties.ParseU32OfDecimal | src/scanner.rs:305-312 | `parse_u32` reads back the `{}` text of every u32 |
| ScannerProperties.DecimalRoundTrip | src/scanner.rs:305-312 | formatting the value of a digit string without leading zeros gives the string back |
| ScannerProperties.ShortDigitRunsParse | src/scanner.rs:267 | a run of one to nine digits always parses as a u32 |
| ScannerProperties.EndIffBlank | src/scanner.rs:115-119 | the end-of-command token comes exactly when only whitespace is left; its lexeme is empty and it consumes the rest |
| ScannerProperties.EndRepeats | src/scanner.rs:115-119 | once the input is exhausted, every further scan gives EndOfCommand with lexeme "" again |
| ScannerProperties.SkipTwice | src/scanner.rs:288-295 | skipping whitespace twice is skipping it once, and a scan from inside a whitespace run is the same scan |
| ScannerProperties.OperatorTokens | src/scanner.rs:120-135 | a pipe character gives Pipe, `>>` gives RedirectOutAppend, a lone `>` gives RedirectOut, and each consumes exactly its characters |
| ScannerProperties.IntegerLexeme | src/scanner.rs:269-284 | an integer or fd-redirection token's lexeme is exactly the text it consumes |
| ScannerProperties.LexemeIsConsumedText | src/scanner.rs:115-141 | every token but a Word has exactly the consumed text as its lexeme |
| ScannerProperties.DigitRunTokens | src/scanner.rs:255-285 | a maximal digit run becomes `n>>`, `n>` or Integer(n), with n its value and nothing skipped before the `>`; a value above u32::MAX is the parse error |
| ScannerProperties.SpacedRedirection | src/scanner.rs:269-282 | `1 >` scans as Integer(1) and then RedirectOut |
| ScannerProperties.AppendWithDescriptor | src/scanner.rs:270-274 | `2>>` is one token, RedirectOutAppendWithFileDescriptor(2), with lexeme `2>>` |
| ScannerProperties.PlainRun | src/scanner.rs:233-234 | over a run without quotes, backslashes or whitespace, the word automaton copies the run |
| ScannerProperties.PlainWord | src/scanner.rs:205-206 | without quotes or backslashes, a word is the maximal non-whitespace run, and pipe characters, `>` and digits inside it are kept |
| ScannerProperties.SingleQuoted | src/scanner.rs:173-198 | inside single quotes everything up to the closing quote is copied verbatim, `\` and `"` included |
| ScannerProperties.UnclosedSingleQuote | src/scanner.rs:239 | a single quote that is never closed is the error "unclosed single quote" |
| ScannerProperties.DoubleQuoted | src/scanner.rs:189-215 | inside double quotes, `'` and whitespace are copied up to the closing quote |
| ScannerProperties.QuotedEscape | src/scanner.rs:217-226 | inside double quotes `\"` and `\\` give only the second character, and `\x` gives both |
| ScannerProperties.Escape | src/scanner.rs:169-171 | an unquoted backslash drops itself and copies the next character verbatim |
| ScannerProperties.WhitespaceInWords | src/scanner.rs:205-215 | whitespace ends a word exactly in the Normal state, and is emitted in every other state |
| ScannerProperties.WordOutputBound | src/scanner.rs:167-249 | the automaton emits no more characters than it consumes, plus one pending for a quoted backslash |
| ScannerProperties.WordLexemeBound | src/scanner.rs:137-140 | a Word's lexeme is never longer than the text it was scanned from |
| ScannerProperties.WordOutcome | src/scanner.rs:237-245 | a word ends at unquoted whitespace or at the end; it fails exactly when the text ends in a state other than Normal |
| ScannerProperties.WordErrors | src/scanner.rs:239-245 | the three end-of-input errors are exactly the single-quote, double-quote (or quoted backslash) and trailing-backslash states |
| ParserProperties.TokensFrom | src/scanner.rs:115-144 | the tokens the scanner yields from a position, up to and including end of command, or up to the first token that fails to scan together with that scan error; without an error the last token is the end of command |
| ParserProperties.IntegerWordsAreWordRun | src/parser.rs:176-183 | from any cursor, `collect_integer_word` succeeds exactly when a token that is neither Word nor Integer ends the run before the scan stops; it then yields the lexemes of the consecutive Word and Integer tokens, in order, and otherwise fails with the scan error; nothing after the run needs to scan |
| ParserProperties.EmptyPipelineIffBlank | src/parser.rs:21 | a line parses to the empty pipeline exactly when it is blank |
| ParserProperties.UnexpectedFirstToken | src/parser.rs:22 | a first token that is neither Word nor EndOfCommand is the "unexpected token" error |
| ParserProperties.CommandKind | src/parser.rs:44-56 | for any command that parses, it is a built-in exactly for the six names, and an external command's args are its word then the following Word/Integer lexemes, whatever comes after them |
| ParserProperties.BuiltInDispatch | src/parser.rs:102-114 | `built_in` returns, errors included, the outcome of `cd`, `echo`, `exit`, `history`, `pwd` or `type` for the word of that name, wrapped in Some; any other word is None and is not consumed |
| ParserProperties.NoArguments | src/parser.rs:152-164 | `history` and `pwd` yield History and Pwd and stop on the very next token, whatever it is, or fail with that token's scan error |
| ParserProperties.CommandParts | src/parser.rs:41-59 | a parsed built-in command holds the built-in `built_in` returned and the redirection parsed right after it; a parsed external command holds the collected words and the redirection parsed right after them; the command ends where the redirection ends; and whenever those parts parse, the command parses to them |
| ParserProperties.CdAndTypeNeedAWord | src/parser.rs:117-123 | `cd` and `type` followed by a Word parse to that Word's lexeme and stop on the token after it (so `cd a b` leaves `b` unread); any success has that form; without a Word they fail with "expected Word" |
| ParserProperties.EchoArguments | src/parser.rs:126-132 | `echo` succeeds exactly when its arguments are ended by a token that scans and is neither Word nor Integer, and then takes the lexemes of all following Word and Integer tokens, possibly none |
| ParserProperties.ExitStatus | src/parser.rs:135-150 | `exit` followed by an Integer parses to that status and stops on the token after it, and any success then has that status; otherwise the status is 0 and the token is left unread |
| ParserProperties.RedirectionTable | src/parser.rs:61-100 | `>`/`1>` and `>>`/`1>>` followed by a Word parse to StdOut, and `2>`/`2>>` to StdErr, appending for `>>`, with that Word as file name and the cursor on the token after it; every successful redirection has that form; any other fd is an error; a missing Word file name is an error; a non-operator is no redirection and is not consumed |
| ParserProperties.DescriptorOneIsStdOut | src/parser.rs:66-74 | `1>` and `1>>` redirect exactly as `>` and `>>` |
| ParserProperties.PipelineEnd | src/parser.rs:28-42 | after a command, a token other than Pipe ends the pipeline unread; after a Pipe, a non-Word is the panic |
| ParserProperties.PipeAtEndPanics | src/parser.rs:42 | `pwd` followed by a trailing pipe panics |
| ParserProperties.TrailingWordIgnored | src/parser.rs:159-164 | `pwd foo` parses to just `pwd` |
| ParserProperties.NoArgumentLine | src/parser.rs:13-59 | a line whose first word is `history` or `pwd`, followed by any token that scans and is neither a pipe nor a redirection operator, parses to just that built-in without redirection (`history 5` is `history`) |
| PipelineSteps.PipelineStep | src/parser.rs:32-35 | a step of the pipeline loop, used by the round trip: after a command and a Pipe token, the pipeline is that command in front of the rest |
| PipelineSteps.PipelineEnds | src/parser.rs:32-38 | the last step of the pipeline loop, used by the round trip: a command that reads to the end of the line is a pipeline of its own |
| RoundTrip.LoadSimpleWord | src/scanner.rs:136-140 | after whitespace, a simple word scans as one Word token with itself as lexeme |
| RoundTrip.WordsFrom | src/parser.rs:176-183 | a command's words, laid out with single spaces, are all collected up to the token after them |
| RoundTrip.CommandAt | src/parser.rs:51-56 | a command of simple words with no redirection parses to the external command with those arguments |
| RoundTrip.PipelineFrom | src/parser.rs:28-39 | a laid-out pipeline of simple commands parses to its commands and ends at the end of the text |
| RoundTrip.ParsePrinted | src/parser.rs:13-39 | printing a simple pipeline and parsing it gives back its commands, one per pipe-separated part, in order |

## Left out

- **Other files.** The rest of the repository is not part of this model:
  - the evaluator (built-in execution, redirection files, process spawning and piping);
  - `src/system.rs`, `src/editing.rs`, `src/main.rs`, `src/eval_result.rs` and
    `src/error.rs`;
  - `src/ast.rs`, an older snapshot that does not match what `src/parser.rs` builds.

  The AST types are rebuilt from the parser's own uses. `Redirection::None` is named
  `NoRedirection` because `None` is taken by `Option`.
- **The `parser_state` crate.** Its code is not part of this model.
  - `ParserState` is modelled with the semantics the parser relies on: `new` loads the
    first token, `advance` loads the next, `matches(tag)` advances exactly when the tag
    matches, and `expect_lexeme(tag)` returns the lexeme and advances, or fails.
  - The text of `expect_lexeme`'s error ("expected " followed by the tag's `Display`
    text) is an assumption.
- **Errors.** `anyhow` errors are modelled as strings. The `assert!` in `command` is
  modelled as a `Panic` outcome. The asserts in `built_in`, `cd`, `echo`, `exit`,
  `pwd` and `type` are modelled as preconditions, since `built_in` only calls them
  when they hold.
- **`Chars` iterator.** It is modelled by the text and a count of characters produced.
  The scanner's ghost position says where `current` is.
- **`str::parse::<u32>`.** It is modelled as decimal digits with an optional `+` and the
  u32 bound. The scanner only ever passes it digits.
- **Unicode.** Character classes are the ASCII ones the code tests (`is_ascii_digit`
  and the four whitespace characters). There is no other Unicode handling.
- RoundTrip.ParsePrinted: the round trip covers external commands of plain words without quotes, redirections, built-in names or leading digits, because quoted words, built-ins and redirections do not print back to themselves one to one.
