/**
  The argument validation that run performs up to its arity check
  (cmd/ethatomicswap/main.go, run). Its input is the argument list left
  after the global flags have been parsed.
 */
module Run {
  import opened Wrappers
  import opened CmdArgs
  import opened Commands

  /** The errors run reports up to its arity check. */
  datatype RunError =
    | UnknownCommand(name: string)
    | TooFewArguments(name: string)

  /** The text of each error as the user sees it; both name the command word that was given. */
  function ErrorText(e: RunError): (t: string)
    ensures |t| > |e.name|
    ensures e.UnknownCommand? ==> t[|t| - |e.name|..] == e.name
    ensures e.TooFewArguments? ==> t[..|e.name|] == e.name
  {
    match e
    case UnknownCommand(name) => "unknown command " + name
    case TooFewArguments(name) => name + ": too few arguments"
  }

  /**
    The outcome of validation up to the arity check: either run returns
    (an optional error and whether to show usage), or the arguments passed
    the arity check, with the selected command, its positional arguments,
    and the remaining arguments that are handed on to the flag parser.
    Passing the arity check does not mean the command runs: the
    unexpected-argument check that follows can still reject the rest.
   */
  datatype Validation =
    | Stop(err: Option<RunError>, showUsage: bool)
    | PassedArityCheck(cmd: Command, cmdArgs: seq<string>, rest: seq<string>)

  /**
    The checks run makes up to its arity check: no arguments shows usage
    without an error; an unknown command word, or fewer usable positional
    arguments than the command's arity, shows usage with an error naming
    the word; otherwise the arguments after the word are split into the
    command's positional arguments and the rest.
   */
  function Validate(args: seq<string>): (v: Validation)
    ensures v == Stop(None, true) <==> |args| == 0
    ensures v.Stop? ==> v.showUsage
    ensures v.Stop? && v.err.Some? && v.err.value.UnknownCommand?
        <==> |args| > 0 && CommandArity(args[0]).None?
    ensures v.Stop? && v.err.Some? && v.err.value.TooFewArguments?
        <==> && |args| > 0
             && CommandArity(args[0]).Some?
             && CheckCmdArgLength(args[1..], CommandArity(args[0]).value) < CommandArity(args[0]).value
    ensures v.Stop? && v.err.Some? ==> |args| > 0 && v.err.value.name == args[0]
    ensures v.PassedArityCheck? ==> |args| > 0 && ParseCommand(args[0]) == Some(v.cmd)
    ensures v.PassedArityCheck? ==> |v.cmdArgs| == Arity(v.cmd) && args == [args[0]] + v.cmdArgs + v.rest
  {
    if |args| == 0 then Stop(None, true)
    else
      match ParseCommand(args[0])
      case None => Stop(Some(UnknownCommand(args[0])), true)
      case Some(c) =>
        var n := CheckCmdArgLength(args[1..], Arity(c));
        if n < Arity(c) then Stop(Some(TooFewArguments(args[0])), true)
        else PassedArityCheck(c, args[1..1 + n], args[1 + n..])
  }

  /**
    The arguments pass the arity check exactly when the command word is
    known, enough arguments follow it, and none of the first Arity of them
    looks like a flag. The unexpected-argument check after it is not
    modelled and can still reject them.
   */
  lemma PassesArityCheckIff(args: seq<string>)
    ensures Validate(args).PassedArityCheck?
        <==> && |args| > 0
             && ParseCommand(args[0]).Some?
             && |args| - 1 >= Arity(ParseCommand(args[0]).value)
             && NoFlagBefore(args[1..], Arity(ParseCommand(args[0]).value))
  {
  }

  /** The positional arguments that passed the arity check are never flag-like. */
  lemma CheckedArgumentsArePositional(args: seq<string>)
    requires Validate(args).PassedArityCheck?
    ensures forall j :: 0 <= j < |Validate(args).cmdArgs| ==> !IsFlagLike(Validate(args).cmdArgs[j])
  {
  }

  /**
    A surplus non-flag argument is not caught by the arity check: it is
    handed on in the rest, which the flag parser leaves as a positional
    argument and the unexpected-argument check then rejects.
   */
  lemma SurplusArgumentPassesArityCheck(extra: string)
    requires !IsFlagLike(extra)
    ensures Validate(["initiate", "addr", "1", extra]) == PassedArityCheck(Initiate, ["addr", "1"], [extra])
  {
  }
}
