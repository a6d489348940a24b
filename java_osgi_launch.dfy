/**
  The `exec-osgi-java` goal: `execute()` locates the Equinox launcher, builds its
  command line, adds the extension classpath to the VM properties, publishes
  those as system properties and starts the launcher's `main` on a worker thread.
 */
module JavaOsgiLaunch {
  import opened Wrappers
  import LauncherSelection
  import CommandLine
  import FrameworkClasspath
  import UrlScheme

  /** The class whose `main` the worker thread invokes. */
  const EquinoxLauncherMainClass: string := "org.eclipse.equinox.launcher.Main"

  /** Why `execute()` stops without starting the launcher. */
  datatype Failure =
    | LauncherNotFound              // `Optional.get()` on an empty optional
    | MojoExecution(message: string) // the ad-hoc arguments could not be tokenized

  /**
    What the worker thread is started with: the single URL its class loader sees,
    the class whose `main` it calls, and the argument array.
   */
  datatype Invocation = Invocation(classLoaderUrl: string, mainClass: string, args: seq<string>)

  /** The process-wide system property table. */
  class PropertyTable {
    var properties: map<string, string>

    constructor (properties: map<string, string>)
      ensures this.properties == properties
    {
      this.properties := properties;
    }

    /** `putAll`: every entry of `m` is stored, replacing any value already held under its key. */
    method PutAll(m: map<string, string>)
      modifies this
      ensures properties == old(properties) + m
    {
      properties := properties + m;
    }
  }

  /** The goal's state: its own parameter and what its base class has prepared. */
  class JavaOsgiLaunchMojo {
    /** The key that announces framework extensions; its value is set by the base class. */
    const extensionsKey: string
    /** The `exec.args` parameter; `None` when it is not set. */
    var commandlineArgs: Option<string>
    var programArguments: seq<string>
    var vmProperties: map<string, string>

    constructor (extensionsKey: string, commandlineArgs: Option<string>, programArguments: seq<string>,
                 vmProperties: map<string, string>)
      ensures this.extensionsKey == extensionsKey && this.commandlineArgs == commandlineArgs
      ensures this.programArguments == programArguments && this.vmProperties == vmProperties
    {
      this.extensionsKey := extensionsKey;
      this.commandlineArgs := commandlineArgs;
      this.programArguments := programArguments;
      this.vmProperties := vmProperties;
    }

    /**
      Appends the tokens of `exec.args`, when it is set, to `cmds`. A tokenizer
      error stops the goal with the tokenizer's message, and `cmds` is left as it was.
     */
    method AppendCommandLineArgumentsTo(cmds: CommandLine.StringList, tokenize: CommandLine.Tokenizer)
      returns (r: Outcome<string>)
      modifies cmds
      ensures commandlineArgs.None? ==> r == Pass && cmds.elements == old(cmds.elements)
      ensures commandlineArgs.Some? && tokenize(commandlineArgs.value).Ok? ==>
                r == Pass && cmds.elements == old(cmds.elements) + tokenize(commandlineArgs.value).value
      ensures commandlineArgs.Some? && tokenize(commandlineArgs.value).Err? ==>
                r == Fail(tokenize(commandlineArgs.value).error) && cmds.elements == old(cmds.elements)
    {
      r := Pass;
      if commandlineArgs.Some? {
        match tokenize(commandlineArgs.value)
        case Ok(tokens) =>
          cmds.AddAll(tokens);
        case Err(message) =>
          r := Fail(message);
      }
    }

    /**
      Fills a fresh list in the order `execute()` does: the configuration flag,
      the configuration file's URL, the program arguments, the ad-hoc arguments.
     */
    method AssembleCommand(ini: string, tokenize: CommandLine.Tokenizer) returns (r: Result<seq<string>, string>)
      ensures r == CommandLine.Command(ini, programArguments, commandlineArgs, tokenize)
    {
      var cmd := new CommandLine.StringList();
      cmd.Add(CommandLine.ConfigurationFlag);
      cmd.Add(UrlScheme.FileScheme + ini);
      cmd.AddAll(programArguments);
      assert cmd.elements == [CommandLine.ConfigurationFlag, UrlScheme.FileScheme + ini] + programArguments;
      var appended := AppendCommandLineArgumentsTo(cmd, tokenize);
      if appended.Fail? {
        return Err(appended.error);
      }
      return Ok(cmd.elements);
    }

    /**
      `execute()`, given the resolved artifacts, the generated configuration file
      and the extension paths the base class collected. Returns the invocation
      the worker thread is started with; whatever that invocation does, including
      failing, is only logged, so it does not change the result.
     */
    method Execute(artifacts: seq<LauncherSelection.Artifact>, ini: string, extensionPaths: seq<string>,
                   tokenize: CommandLine.Tokenizer, system: PropertyTable)
      returns (r: Result<Invocation, Failure>)
      modifies this`vmProperties, system
      ensures LauncherSelection.LauncherUrl(artifacts).None? ==>
                && r == Err(LauncherNotFound)
                && vmProperties == old(vmProperties) && system.properties == old(system.properties)
      ensures var cmd := CommandLine.Command(ini, programArguments, commandlineArgs, tokenize);
              LauncherSelection.LauncherUrl(artifacts).Some? && cmd.Err? ==>
                && r == Err(MojoExecution(cmd.error))
                && vmProperties == old(vmProperties) && system.properties == old(system.properties)
      ensures var url := LauncherSelection.LauncherUrl(artifacts);
              var cmd := CommandLine.Command(ini, programArguments, commandlineArgs, tokenize);
              url.Some? && cmd.Ok? ==>
                && r == Ok(Invocation(url.value, EquinoxLauncherMainClass, cmd.value))
                && vmProperties == FrameworkClasspath.WithFrameworkClassPath(old(vmProperties), extensionsKey, extensionPaths)
                && system.properties == old(system.properties) + vmProperties
    {
      var launcherJar := LauncherSelection.LauncherUrl(artifacts);
      if launcherJar.None? {
        return Err(LauncherNotFound);
      }
      var cmd := AssembleCommand(ini, tokenize);
      if cmd.Err? {
        return Err(MojoExecution(cmd.error));
      }
      if extensionsKey in vmProperties {
        var extensionClasspath := FrameworkClasspath.ExtensionClasspath(extensionPaths);
        if FrameworkClasspath.Trim(extensionClasspath) != "" {
          vmProperties := vmProperties[FrameworkClasspath.FrameworkClassPathKey :=
                                         FrameworkClasspath.OwnLocation + extensionClasspath];
        }
      }
      system.PutAll(vmProperties);
      return Ok(Invocation(launcherJar.value, EquinoxLauncherMainClass, cmd.value));
    }
  }
}
