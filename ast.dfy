/** The syntax tree the parser builds: a pipeline is a sequence of commands. */
module Ast {
  import opened Scanning

  /** Where a command's output goes. (`Redirection::None` in the Rust code.) */
  datatype Redirection =
    | NoRedirection
    | StdOut(filename: string, isAppend: bool)
    | StdErr(filename: string, isAppend: bool)

  /** The built-in commands and their arguments. */
  datatype BuiltIn =
    | Cd(path: string)
    | Echo(args: seq<string>)
    | Exit(status: U32)
    | History
    | Pwd
    | Type(command: string)

  datatype BuiltInCommand = BuiltInCommand(builtIn: BuiltIn, redirection: Redirection)

  datatype ExternalCommand = ExternalCommand(args: seq<string>, redirection: Redirection)

  datatype Command = BuiltIn(builtInCommand: BuiltInCommand) | External(externalCommand: ExternalCommand)
}
