/** How a simple pipeline is printed: external commands whose arguments are plain words,
    with single spaces between the words and ` | ` between the commands, and where each
    word and each command then sits in the text. */
module Printing {
  import opened Scanning
  import opened TokenStream
  import opened Ast
  import opened Parsing
  import opened ScannerProperties

  /** A word that scans as itself: no quotes, backslashes, whitespace, `|` or `>`, and
      not starting with a digit (which would make it an integer). */
  predicate SimpleWord(w: string) {
    && w != []
    && !IsDigit(w[0])
    && forall i :: 0 <= i < |w| ==> Plain(w[i]) && !IsWhitespace(w[i]) && w[i] != '|' && w[i] != '>'
  }

  /** The arguments of an external command that is printed and parsed back. */
  predicate SimpleArgs(args: seq<string>) {
    args != [] && !IsBuiltInName(args[0]) && forall j :: 0 <= j < |args| ==> SimpleWord(args[j])
  }

  predicate SimplePipeline(p: seq<seq<string>>) {
    p != [] && forall i :: 0 <= i < |p| ==> SimpleArgs(p[i])
  }

  /** The words separated by single spaces. */
  function JoinWords(args: seq<string>): string
    requires args != []
  {
    if |args| == 1 then args[0] else args[0] + " " + JoinWords(args[1..])
  }

  /** The length of the printed words. */
  function Width(args: seq<string>): nat
    requires args != []
  {
    |JoinWords(args)|
  }

  /** The commands separated by ` | `. */
  function Render(p: seq<seq<string>>): string
    requires SimplePipeline(p)
  {
    if |p| == 1 then JoinWords(p[0]) else JoinWords(p[0]) + " | " + Render(p[1..])
  }

  /** The printed pipeline p sits at the end of text, from pos on. */
  ghost predicate RenderedAt(text: string, pos: nat, p: seq<seq<string>>) {
    SimplePipeline(p) && pos <= |text| && text[pos..] == Render(p)
  }

  /** The external commands with the given arguments and no redirections. */
  function Commands(p: seq<seq<string>>): (r: seq<Command>)
    ensures |r| == |p|
  {
    if p == [] then [] else [External(ExternalCommand(p[0], NoRedirection))] + Commands(p[1..])
  }

  /** What may follow the last word of a command: the end of the text or ` | `. */
  predicate Follows(text: string, after: nat) {
    after == |text| || (after + 3 <= |text| && text[after] == ' ' && text[after + 1] == '|' && text[after + 2] == ' ')
  }

  /** The words args are laid out from pos on, separated by single spaces. */
  ghost predicate Laid(text: string, pos: nat, args: seq<string>)
    decreases |args|
  {
    && args != []
    && pos + |args[0]| <= |text|
    && text[pos..pos + |args[0]|] == args[0]
    && (|args| > 1 ==>
          && pos + |args[0]| < |text|
          && text[pos + |args[0]|] == ' '
          && Laid(text, pos + |args[0]| + 1, args[1..]))
  }

  /** The commands p, each of simple arguments, are printed from pos to the end of text. */
  ghost predicate PipelineLaid(text: string, pos: nat, p: seq<seq<string>>)
    decreases |p|
  {
    && p != [] && SimpleArgs(p[0])
    && Laid(text, pos, p[0])
    && var after := pos + Width(p[0]);
    && (|p| == 1 ==> after == |text|)
    && (|p| > 1 ==>
          && after + 3 <= |text|
          && text[after] == ' ' && text[after + 1] == '|' && text[after + 2] == ' '
          && PipelineLaid(text, after + 3, p[1..]))
  }

  /** The cursor of a pipeline laid out at pos once the first word of its first command
      has been read. The round trip uses it only on pipelines whose first command has a
      word; the value for any other p is an arbitrary default, kept so that the function
      needs no precondition (one would have to be re-proved at every call in the round
      trip, which costs the verifier far more than it is worth). */
  function Opening(pos: nat, p: seq<seq<string>>): Cursor {
    if p != [] && p[0] != [] then Cursor(Token(Word, p[0][0]), pos + |p[0][0]|) else Cursor(Token(Word, ""), pos)
  }
}
