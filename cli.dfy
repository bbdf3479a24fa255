/**
 * The command-line front end of bin/index.js, from the point where the
 * argument parser has produced its record: the `unknown` callback that
 * collects unrecognised options, and the decision between help, version,
 * an argument error, and starting a watcher.
 */
module Cli {
  import opened Maybe
  import Text
  import Watching

  /** What the parser hands over (bin/index.js:14-26). */
  datatype ParsedArgs = ParsedArgs(
    help: bool,               // `--help` / `-h`
    version: bool,            // `--version` / `-v`
    positional: seq<string>,  // `args._`: the glob patterns
    rest: seq<string>,        // `args["--"]`: the command and its arguments
    initial: bool,            // `--initial` / `--no-initial`, default true
    debounce: Option<int>)    // `--debounce`, as a number

  datatype Outcome =
    | ShowHelp
    | ShowVersion
    | Fail(message: string, exitCode: int)
    | Watch(patterns: seq<string>, command: string, commandArgs: seq<string>, options: Watching.WatchOptions)

  const NoPatternsMessage: string := "It requires one or more glob patterns to watch files."
  const NoCommandMessage: string := "It requires a command to run it."
  const UnknownPrefix: string := "Unknown option(s): "

  /** The message of bin/index.js:45. */
  function UnknownMessage(unknowns: seq<string>): string
  {
    UnknownPrefix + Text.Join(unknowns, ", ")
  }

  /**
   * The module-level `unknowns` array (bin/index.js:13) together with the
   * parser's `unknown` callback (bin/index.js:21-25) that appends to it.
   */
  class UnknownCollector {
    var unknowns: seq<string>

    constructor ()
      ensures unknowns == []
    {
      unknowns := [];
    }

    /** Called by the parser for each token it does not recognise; keeps only options. */
    method Unknown(arg: string)
      modifies this
      ensures unknowns == old(unknowns) + Text.DashTokens([arg])
    {
      if |arg| > 0 && arg[0] == '-' {
        unknowns := unknowns + [arg];
      }
    }
  }

  /**
   * The parser calling `unknown` once per unrecognised token, in order:
   * the collected list is the tokens starting with `-`, in encounter order.
   */
  method CollectUnknowns(tokens: seq<string>) returns (unknowns: seq<string>)
    ensures unknowns == Text.DashTokens(tokens)
    ensures forall x :: x in unknowns <==> x in tokens && Text.StartsWithDash(x)
  {
    var collector := new UnknownCollector();
    var i := 0;
    while i < |tokens|
      invariant 0 <= i <= |tokens|
      invariant collector.unknowns == Text.DashTokens(tokens[..i])
    {
      collector.Unknown(tokens[i]);
      Text.DashTokensAppend(tokens[..i], [tokens[i]]);
      assert tokens[..i + 1] == tokens[..i] + [tokens[i]];
      i := i + 1;
    }
    assert tokens[..i] == tokens;
    unknowns := collector.unknowns;
    Text.DashTokensMembers(tokens);
  }

  /**
   * The if/else chain of bin/index.js:28-57: help wins over everything,
   * then version; then missing patterns, missing command and unknown
   * options are errors with exit code 1, in that order; otherwise the
   * watcher is started with the command split off the `--` list.
   */
  function Dispatch(a: ParsedArgs, unknowns: seq<string>): (r: Outcome)
    ensures r == ShowHelp <==> a.help
    ensures r == ShowVersion <==> !a.help && a.version
    ensures r.Watch? <==> !a.help && !a.version && a.positional != [] && a.rest != [] && unknowns == []
    ensures r.Watch? ==> r.patterns == a.positional && [r.command] + r.commandArgs == a.rest
    ensures r.Watch? ==> r.options == Watching.WatchOptions(Some(a.initial), a.debounce)
    ensures r.Fail? ==> r.exitCode == 1
    ensures r.Fail? && a.positional == [] ==> r.message == NoPatternsMessage
    ensures r.Fail? && a.positional != [] && a.rest == [] ==> r.message == NoCommandMessage
    ensures r.Fail? && a.positional != [] && a.rest != [] ==> r.message == UnknownMessage(unknowns)
  {
    if a.help then ShowHelp
    else if a.version then ShowVersion
    else if |a.positional| == 0 then Fail(NoPatternsMessage, 1)
    else if |a.rest| == 0 then Fail(NoCommandMessage, 1)
    else if |unknowns| >= 1 then Fail(UnknownMessage(unknowns), 1)
    else Watch(a.positional, a.rest[0], a.rest[1..], Watching.WatchOptions(Some(a.initial), a.debounce))
  }

  /**
   * The unknown-option error names every unknown option verbatim, at its
   * place in the comma-separated list.
   */
  lemma UnknownErrorNamesEach(a: ParsedArgs, unknowns: seq<string>, k: nat)
    requires !a.help && !a.version && a.positional != [] && a.rest != []
    requires k < |unknowns|
    ensures Dispatch(a, unknowns).Fail?
    ensures var m := Dispatch(a, unknowns).message;
      var o := |UnknownPrefix| + Text.Offset(unknowns, ", ", k);
      o + |unknowns[k]| <= |m| && m[o..o + |unknowns[k]|] == unknowns[k]
  {
    Text.JoinSpans(unknowns, ", ", k);
    Text.SliceAfterPrefix(UnknownPrefix, Text.Join(unknowns, ", "),
      Text.Offset(unknowns, ", ", k), Text.Offset(unknowns, ", ", k) + |unknowns[k]|);
  }

  /**
   * bin/index.js:28-57 with the call of lib/index.js's `watch`: a watcher is
   * created and opened exactly when the arguments are valid, on the given
   * patterns, with the first word after `--` as the command and the rest as
   * its arguments.
   */
  method Run(a: ParsedArgs, unknowns: seq<string>, isDirectory: string -> bool)
    returns (outcome: Outcome, w: Watching.Watcher?)
    ensures outcome == Dispatch(a, unknowns)
    ensures w != null <==> outcome.Watch?
    ensures w != null ==> fresh(w) && w.Valid() && w.watcher != null
    ensures w != null ==> w.patterns == Watching.Normalized(a.positional, isDirectory)
    ensures w != null ==> w.command == a.rest[0] && w.args == a.rest[1..]
    ensures w != null ==> w.initial == a.initial
    ensures w != null ==> !w.running && w.trace == []
  {
    outcome := Dispatch(a, unknowns);
    w := null;
    if outcome.Watch? {
      w := Watching.Watch(Watching.PatternArray(outcome.patterns), outcome.command,
                          Watching.ArgArray(outcome.commandArgs), Some(outcome.options), isDirectory);
    }
  }

  /** The line printed for each change (bin/index.js:63-65): the kind, ": ", then the path. */
  function ChangeLine(kind: string, path: string): (line: string)
    ensures |line| == |kind| + 2 + |path|
    ensures line[..|kind|] == kind && line[|kind|..|kind| + 2] == ": " && line[|kind| + 2..] == path
  {
    kind + ": " + path
  }

  /** The text of a log line up to its first colon. */
  function KindOf(line: string): string
  {
    if line == [] || line[0] == ':' then [] else [line[0]] + KindOf(line[1..])
  }

  /** The change kind can be read back from the line whenever it holds no colon (as chokidar's kinds do not). */
  lemma {:induction false} ChangeLineKind(kind: string, path: string)
    requires ':' !in kind
    ensures KindOf(ChangeLine(kind, path)) == kind
  {
    if kind != [] {
      ChangeLineKind(kind[1..], path);
      assert ChangeLine(kind, path)[1..] == ChangeLine(kind[1..], path);
    }
  }
}
