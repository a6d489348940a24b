/**
  The launcher's command line: the `cmd` list that `execute()` fills in a fixed
  order and hands, as a string array, to the launcher's `main`.
 */
module CommandLine {
  import opened Wrappers
  import opened UrlScheme

  /**
    The shell-style tokenizer the ad-hoc `exec.args` string is split with: the
    tokens, or the message of the exception it raised. Its definition is outside
    this model, so every operation below takes it as a parameter.
   */
  type Tokenizer = string -> Result<seq<string>, string>

  const ConfigurationFlag: string := "-configuration"

  /** A growable list of strings, updated in place like `java.util.ArrayList<String>`. */
  class StringList {
    var elements: seq<string>

    constructor ()
      ensures elements == []
    {
      elements := [];
    }

    /** `add`: appends one element at the end. */
    method Add(s: string)
      modifies this
      ensures elements == old(elements) + [s]
    {
      elements := elements + [s];
    }

    /** `addAll`: appends the given elements at the end, in their order. */
    method AddAll(xs: seq<string>)
      modifies this
      ensures elements == old(elements) + xs
    {
      elements := elements + xs;
    }
  }

  /**
    The command line `execute()` assembles, or the message of the exception that
    stops it: the configuration flag, the `file:` URL of the configuration file,
    the program arguments, and then the tokens of the ad-hoc arguments when they
    are given.
   */
  function Command(ini: string, programArguments: seq<string>, commandlineArgs: Option<string>,
                   tokenize: Tokenizer): (r: Result<seq<string>, string>)
    ensures r.Err? <==> commandlineArgs.Some? && tokenize(commandlineArgs.value).Err?
    ensures r.Err? ==> r.error == tokenize(commandlineArgs.value).error
    ensures r.Ok? ==> |r.value| >= 2 + |programArguments|
    ensures r.Ok? ==> r.value[0] == ConfigurationFlag && r.value[1] == FileScheme + ini
    ensures r.Ok? ==> r.value[2..2 + |programArguments|] == programArguments
    ensures r.Ok? && commandlineArgs.None? ==> r.value[2 + |programArguments|..] == []
    ensures r.Ok? && commandlineArgs.Some? ==>
              r.value[2 + |programArguments|..] == tokenize(commandlineArgs.value).value
  {
    var prefix := [ConfigurationFlag, FileScheme + ini] + programArguments;
    match commandlineArgs
    case None => Ok(prefix)
    case Some(args) =>
      match tokenize(args)
      case Ok(tokens) => Ok(prefix + tokens)
      case Err(message) => Err(message)
  }

  /** Without ad-hoc arguments the command line is the configuration pair and the program arguments. */
  lemma CommandWithoutAdHocArguments(ini: string, programArguments: seq<string>, tokenize: Tokenizer)
    ensures Command(ini, programArguments, None, tokenize) == Ok([ConfigurationFlag, FileScheme + ini] + programArguments)
  {
  }

  /**
    The ad-hoc arguments only ever extend the command line built without them:
    whatever the tokenizer returns is appended, never interleaved.
   */
  lemma AdHocArgumentsExtend(ini: string, programArguments: seq<string>, args: string,
                              tokenize: Tokenizer)
    requires tokenize(args).Ok?
    ensures Command(ini, programArguments, Some(args), tokenize).Ok?
    ensures Command(ini, programArguments, Some(args), tokenize).value ==
            Command(ini, programArguments, None, tokenize).value + tokenize(args).value
  {
  }
}
