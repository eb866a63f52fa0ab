/**
 * loadPlugins: reads the configuration, runs the discovery scan, registers one
 * subcommand per plugin found, and gives each subcommand the handler that
 * exports the plugin's environment, starts the plugin and turns the way it ended
 * into the handler's error.
 */
module Dispatch {
  import opened Wrappers
  import opened PluginTypes
  import opened Environ
  import GoText
  import Discovery

  const NoPluginsVar: string := "NO_PLUGINS"
  const HomeVar: string := "HOME"
  /** What os.ExpandEnv("$HOME/.cli/plugins") appends to the value of HOME. */
  const DefaultPluginSubdir: string := "/.cli/plugins"

  /** The RunE closure of one subcommand: the plugin's name, the plugin, and the resolved search path. */
  datatype Handler = Handler(name: string, plugin: Plugin, plugdirs: string)

  /** The fields of the cobra.Command built for a plugin. */
  datatype CommandSpec = CommandSpec(use: string, short: string, long: string,
                                     disableFlagParsing: bool, runE: Handler)

  /** The base command; AddCommand appends a subcommand. */
  class Command {
    const use: string
    var commands: seq<CommandSpec>

    constructor (use: string)
      ensures this.use == use && commands == []
    {
      this.use := use;
      commands := [];
    }

    method AddCommand(c: CommandSpec)
      modifies this
      ensures commands == old(commands) + [c]
    {
      commands := commands + [c];
    }
  }

  /** Plugins are switched off only when NO_PLUGINS is exactly "1". */
  predicate Disabled(vars: map<string, string>)
  {
    Getenv(vars, NoPluginsVar) == "1"
  }

  /** The plugin search path: CLI_PLUGIN when it is set and not empty, else $HOME/.cli/plugins. */
  function SearchPath(vars: map<string, string>): (plugdirs: string)
    ensures plugdirs != ""
  {
    var configured := Getenv(vars, PluginEnvVar);
    if configured != "" then configured else Getenv(vars, HomeVar) + DefaultPluginSubdir
  }

  /**
   * CLI_PLUGIN wins whenever it is not empty; otherwise the path is HOME (empty
   * when unset) followed by /.cli/plugins. Nothing but those two variables matters.
   */
  lemma SearchPathPrecedence(vars: map<string, string>, other: map<string, string>)
    ensures Getenv(vars, PluginEnvVar) != "" ==> SearchPath(vars) == vars[PluginEnvVar]
    ensures Getenv(vars, PluginEnvVar) == "" ==> SearchPath(vars) == Getenv(vars, HomeVar) + "/.cli/plugins"
    ensures Getenv(other, PluginEnvVar) == Getenv(vars, PluginEnvVar) && Getenv(other, HomeVar) == Getenv(vars, HomeVar)
      ==> SearchPath(other) == SearchPath(vars)
  {
  }

  /** The short help a subcommand is given when the plugin declares no usage text. */
  function DefaultUsage(name: string): string
  {
    "the " + GoText.Quote(name) + " plugin"
  }

  function ShortHelp(md: Metadata): string
  {
    if md.usage == "" then DefaultUsage(md.name) else md.usage
  }

  /** The subcommand registered for plugin `p`. */
  function CommandFor(p: Plugin, plugdirs: string): CommandSpec
  {
    CommandSpec(p.metadata.name, ShortHelp(p.metadata), p.metadata.description, true,
                Handler(p.metadata.name, p, plugdirs))
  }

  /** One subcommand per plugin, in the order the plugins were found. */
  function Commands(ps: seq<Plugin>, plugdirs: string): (cs: seq<CommandSpec>)
    ensures |cs| == |ps|
    ensures forall i :: 0 <= i < |ps| ==> cs[i] == CommandFor(ps[i], plugdirs)
  {
    if ps == [] then []
    else Commands(ps[..|ps| - 1], plugdirs) + [CommandFor(ps[|ps| - 1], plugdirs)]
  }

  /** The subcommands loadPlugins adds to the base command. */
  function Registered(vars: map<string, string>, load: string -> LoadResult): seq<CommandSpec>
  {
    if Disabled(vars) then []
    else
      var plugdirs := SearchPath(vars);
      var found := Discovery.FindAll(GoText.SplitList(plugdirs), load);
      if found.err.Some? then [] else Commands(found.matches, plugdirs)
  }

  /** What loadPlugins writes to standard error. */
  function Diagnostic(vars: map<string, string>, load: string -> LoadResult): string
  {
    if Disabled(vars) then ""
    else
      var found := Discovery.FindAll(GoText.SplitList(SearchPath(vars)), load);
      if found.err.Some? then "failed to load plugins: " + found.err.value.message else ""
  }

  /**
   * loadPlugins(baseCmd, ...): the environment is read, never written; the
   * plugin loader is the parameter `load`.
   */
  method LoadPlugins(baseCmd: Command, env: Environment, load: string -> LoadResult) returns (diagnostic: string)
    modifies baseCmd
    ensures baseCmd.commands == old(baseCmd.commands) + Registered(env.vars, load)
    ensures diagnostic == Diagnostic(env.vars, load)
  {
    diagnostic := "";
    if Getenv(env.vars, NoPluginsVar) == "1" {
      return;
    }

    var plugdirs := Getenv(env.vars, PluginEnvVar);
    if plugdirs == "" {
      plugdirs := Getenv(env.vars, HomeVar) + DefaultPluginSubdir;
    }

    var found, err := Discovery.FindPlugins(plugdirs, load);
    if err.Some? {
      diagnostic := "failed to load plugins: " + err.value.message;
      return;
    }

    var i := 0;
    while i < |found|
      invariant 0 <= i <= |found|
      invariant baseCmd.commands == old(baseCmd.commands) + Commands(found[..i], plugdirs)
    {
      assert found[..i + 1][..i] == found[..i];
      baseCmd.AddCommand(CommandFor(found[i], plugdirs));
      i := i + 1;
    }
    assert found[..i] == found;
  }

  /** The message of the error returned when a plugin exits unsuccessfully. */
  function ExitMessage(name: string): string
  {
    "plugin " + GoText.Quote(name) + " exited with error"
  }

  /** What the handler writes to standard error, and the error it returns (None for nil). */
  datatype Outcome = Outcome(stderr: seq<byte>, err: Option<Error>)

  /** The tail of RunE: how the end of the child process becomes the handler's result. */
  function Translate(name: string, result: RunResult): Outcome
  {
    match result
    case Success => Outcome([], None)
    case ExitFailure(captured) => Outcome(captured, Some(Error(ExitMessage(name))))
    case OtherError(e) => Outcome([], Some(e))
  }

  /** The child process exec.Command(main, argv...) describes, with the current environment. */
  function ChildProcess(main: string, argv: seq<string>, vars: map<string, string>): Process
  {
    Process(main, [main] + argv, vars)
  }

  /**
   * RunE of the subcommand built for `h`: exports the plugin's environment,
   * then prepares the plugin's command line from the raw arguments under that
   * environment (`prepare` stands for plugin.PrepareCommand, which may read the
   * variables just exported), and runs it to completion (`run` stands for
   * starting the process and waiting for it).
   */
  method RunPlugin(h: Handler, args: seq<string>, env: Environment, argv0: string,
                   prepare: (Plugin, seq<string>, map<string, string>) -> (string, seq<string>),
                   run: Process -> RunResult)
    returns (stderr: seq<byte>, err: Option<Error>)
    modifies env
    ensures env.vars == PluginEnv(old(env.vars), h.name, h.plugin.dir, argv0, h.plugdirs)
    ensures Outcome(stderr, err)
         == Translate(h.name, run(ChildProcess(prepare(h.plugin, args, env.vars).0,
                                               prepare(h.plugin, args, env.vars).1, env.vars)))
  {
    SetupEnv(env, h.name, h.plugin.dir, h.plugdirs, argv0);
    var (main, argv) := prepare(h.plugin, args, env.vars);
    var result := run(ChildProcess(main, argv, env.vars));
    stderr, err := [], None;
    match result
    case Success =>
    case ExitFailure(captured) =>
      stderr := captured;
      err := Some(Error(ExitMessage(h.name)));
    case OtherError(e) =>
      err := Some(e);
  }

  /**
   * Registration: nothing when plugins are switched off or the scan fails;
   * otherwise exactly one subcommand per plugin found, in the same order, named
   * after the plugin, taking its raw arguments, and bound to that plugin and to
   * the resolved search path.
   */
  lemma RegistrationOutcome(vars: map<string, string>, load: string -> LoadResult)
    ensures Disabled(vars) ==> Registered(vars, load) == []
    ensures Discovery.FindAll(GoText.SplitList(SearchPath(vars)), load).err.Some? ==> Registered(vars, load) == []
    ensures !Disabled(vars) && Discovery.FindAll(GoText.SplitList(SearchPath(vars)), load).err.None? ==>
      var found := Discovery.FindAll(GoText.SplitList(SearchPath(vars)), load).matches;
      var cs := Registered(vars, load);
      && |cs| == |found|
      && forall i :: 0 <= i < |cs| ==>
        && cs[i].use == found[i].metadata.name
        && cs[i].short == ShortHelp(found[i].metadata)
        && cs[i].long == found[i].metadata.description
        && cs[i].disableFlagParsing
        && cs[i].runE == Handler(found[i].metadata.name, found[i], SearchPath(vars))
  {
  }

  /**
   * When every directory of the search path loads, the subcommands are those of
   * the plugins of all directories, concatenated in search-path order.
   */
  lemma RegisteredAllLoaded(vars: map<string, string>, load: string -> LoadResult)
    requires !Disabled(vars)
    requires var dirs := GoText.SplitList(SearchPath(vars));
      forall i :: 0 <= i < |dirs| ==> load(dirs[i]).err.None?
    ensures Registered(vars, load) == Commands(Discovery.Concat(GoText.SplitList(SearchPath(vars)), load), SearchPath(vars))
  {
    Discovery.FindAllNoError(GoText.SplitList(SearchPath(vars)), load);
  }

  /** Something is written to standard error exactly when the scan fails, and then nothing is registered. */
  lemma DiagnosticOnFailure(vars: map<string, string>, load: string -> LoadResult)
    ensures Diagnostic(vars, load) != "" <==>
      !Disabled(vars) && Discovery.FindAll(GoText.SplitList(SearchPath(vars)), load).err.Some?
    ensures Diagnostic(vars, load) != "" ==> Registered(vars, load) == []
  {
  }

  /**
   * A declared usage text is kept verbatim; otherwise the generated one is
   * `the "<name>" plugin`, which for a name with nothing to escape holds the name
   * itself. Either way the short help is never empty.
   */
  lemma ShortHelpText(md: Metadata)
    ensures ShortHelp(md) != ""
    ensures md.usage != "" ==> ShortHelp(md) == md.usage
    ensures md.usage == "" && (forall i :: 0 <= i < |md.name| ==> GoText.EscapeCode(md.name[i]).None?) ==>
      ShortHelp(md) == "the \"" + md.name + "\" plugin"
  {
    if md.usage == "" && forall i :: 0 <= i < |md.name| ==> GoText.EscapeCode(md.name[i]).None? {
      GoText.QuotePlain(md.name);
    }
  }

  /** Different plugin names never share a generated short help. */
  lemma DefaultUsageNamesPlugin(a: string, b: string)
    requires DefaultUsage(a) == DefaultUsage(b)
    ensures a == b
  {
    var qa, qb := GoText.Quote(a), GoText.Quote(b);
    assert qa == DefaultUsage(a)[4..|DefaultUsage(a)| - 7];
    assert qb == DefaultUsage(b)[4..|DefaultUsage(b)| - 7];
    GoText.QuoteInjective(a, b);
  }

  /** The exit error names the plugin: different plugins never share the message. */
  lemma ExitMessageNamesPlugin(a: string, b: string)
    requires ExitMessage(a) == ExitMessage(b)
    ensures a == b
  {
    var qa, qb := GoText.Quote(a), GoText.Quote(b);
    assert qa == ExitMessage(a)[7..|ExitMessage(a)| - 18];
    assert qb == ExitMessage(b)[7..|ExitMessage(b)| - 18];
    GoText.QuoteInjective(a, b);
  }

  /**
   * The handler succeeds exactly when the child does; an unsuccessful exit
   * becomes the plugin's named error after its captured standard error is
   * written; any other failure is returned as it is.
   */
  lemma TranslateClassifies(name: string, result: RunResult)
    ensures Translate(name, result).err.None? <==> result.Success?
    ensures result.ExitFailure? ==>
      Translate(name, result) == Outcome(result.captured, Some(Error(ExitMessage(name))))
    ensures result.OtherError? ==> Translate(name, result) == Outcome([], Some(result.err))
    ensures !result.ExitFailure? ==> Translate(name, result).stderr == []
  {
  }

  /**
   * A plugin started by the handler sees the same configuration: the search path
   * it resolves from its environment is the one its parent resolved, even when
   * the parent fell back to the default, and NO_PLUGINS is untouched.
   */
  lemma ChildSeesSameSearchPath(vars: map<string, string>, name: string, dir: string, bin: string)
    ensures SearchPath(PluginEnv(vars, name, dir, bin, SearchPath(vars))) == SearchPath(vars)
    ensures Disabled(PluginEnv(vars, name, dir, bin, SearchPath(vars))) == Disabled(vars)
  {
  }
}
