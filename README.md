# Plugin discovery and dispatch for a Cobra command line

This project models the plugin mechanism of a small Go command-line front end
(`plugins.go`). At start-up the program reads two environment variables: an
opt-out flag (`NO_PLUGINS`) and the plugin search path (`CLI_PLUGIN`, defaulting
to `$HOME/.cli/plugins`). It scans every directory of the ':'-separated search
path with the plugin package's loader, stopping at the first directory that fails.
It registers one raw-argument subcommand per plugin found. Each subcommand's
handler exports four variables describing the plugin (`CLI_PLUGIN_NAME`,
`CLI_PLUGIN_DIR`, `CLI_BIN`, `CLI_PLUGIN`), starts the plugin, and turns the way
the child ended into the handler's result.

Modules, one per component:

- `Wrappers` (`wrappers.dfy`): the `Option` type standing for Go's nillable `error`.
- `GoText` (`go_text.dfy`): `filepath.SplitList` on a Unix host and the `%q` verb, with their round trips.
- `PluginTypes` (`plugin_types.dfy`): plugin metadata, load results, child processes and how they end.
- `Discovery` (`discovery.dfy`): `findPlugins`, as a method with its loop, and the reference function `FindAll` it is proved against.
- `Environ` (`environ.dfy`): the process environment (a class whose `vars` map `Setenv` updates) and `setupEnv`.
- `Dispatch` (`dispatch.dfy`): `loadPlugins` (configuration, discovery, registration onto the base command) and the per-plugin handler.

The plugin loader `plugin.LoadAll`, `Plugin.PrepareCommand` and the running of
a child process are parameters: `load: string -> LoadResult`,
`prepare: (Plugin, seq<string>, map<string, string>) -> (string, seq<string>)`
and `run: Process -> RunResult`. `prepare` is called after the plugin's variables
are exported and receives that environment, so the prepared command may depend
on them. The environment is an explicit `Environment` object, and `os.Args[0]`
is the parameter `argv0`.

When a directory fails, the scan returns only that directory's own matches,
not the plugins found before it (`plugins.go:86-88`); `Discovery.FindAllFirstError`
states this. The dropped results are never observable:
`loadPlugins` discards the plugin list whenever the scan fails.

## Model

| member | source | states |
|---|---|---|
| `GoText.SplitList` | plugins.go:84 | the empty search path names no directory, any other names at least one, and no directory contains the ':' separator |
| `GoText.SplitListRoundTrip` | plugins.go:84 | joining the directories of a search path with ':' gives back the search path |
| `GoText.Quote` | plugins.go:50 | `%q` output starts and ends with a double quote |
| `GoText.UnquoteQuote` | plugins.go:68 | a quoted name reads back as exactly that name, so quoting loses nothing |
| `GoText.QuoteInjective` | plugins.go:68 | two names with the same quoted form are equal |
| `GoText.QuotePlain` | plugins.go:50 | a name with nothing to escape is quoted as the name between double quotes |
| `Discovery.FindPlugins` | plugins.go:82-92 | the loop over the split search path, with its early return, computes exactly `FindAll` of the split path |
| `Discovery.FindAllNoError` | plugins.go:83-91 | when no directory fails, the result is the concatenation of every directory's matches in search-path order, duplicates kept, with a nil error |
| `Discovery.FindAllFirstError` | plugins.go:84-88 | at the first failing directory the result is that directory's own matches with its error; earlier directories' plugins are dropped |
| `Discovery.FindAllFailsIff` | plugins.go:84-91 | the scan returns an error if and only if some directory of the path fails to load |
| `Discovery.FindAllIgnoresLater` | plugins.go:84-88 | directories after the first failing one are never consulted: changing what the loader returns for them changes nothing |
| `Environ.Getenv` | plugins.go:34 | none of its own; an unset variable reads as "", which `Dispatch.SearchPathPrecedence` and `Dispatch.RegistrationOutcome` rely on |
| `Environ.Environment.Setenv` | plugins.go:108 | sets one variable and leaves the rest of the environment unchanged |
| `Environ.PluginEnv` | plugins.go:97-110 | the plugin environment has the four keys set to name, directory, executable and search path; every other variable is kept with its value |
| `Environ.PluginEnvAnyOrder` | plugins.go:99-109 | setting the four distinct entries in any visiting order, as a Go map range may choose, gives the same environment |
| `Environ.SetupEnv` | plugins.go:97-110 | after the loop of `Setenv` calls the environment is exactly `PluginEnv` of the old one |
| `Dispatch.Disabled` | plugins.go:30 | none of its own; characterized by `Dispatch.RegistrationOutcome` (only the exact value "1" switches plugins off) |
| `Dispatch.SearchPath` | plugins.go:34-37 | the resolved search path is never empty |
| `Dispatch.SearchPathPrecedence` | plugins.go:34-37 | a non-empty CLI_PLUGIN is the search path; otherwise it is HOME (empty when unset) followed by `/.cli/plugins`; no other variable affects it |
| `Dispatch.DefaultUsage` | plugins.go:50 | none of its own; characterized by `Dispatch.ShortHelpText` and `Dispatch.DefaultUsageNamesPlugin` |
| `Dispatch.ShortHelp` | plugins.go:49-51 | none of its own; characterized by `Dispatch.ShortHelpText` |
| `Dispatch.CommandFor` | plugins.go:53-76 | none of its own; its fields are stated per registered command by `Dispatch.RegistrationOutcome` |
| `Dispatch.Commands` | plugins.go:46-79 | one command per plugin, in the same order, the i-th built from the i-th plugin |
| `Dispatch.Command.AddCommand` | plugins.go:78 | appends the subcommand after those already registered |
| `Dispatch.LoadPlugins` | plugins.go:28-80 | appends exactly `Registered` to the base command's subcommands and writes exactly `Diagnostic` to standard error |
| `Dispatch.RegistrationOutcome` | plugins.go:29-79 | no subcommand when NO_PLUGINS is "1" or the scan fails; otherwise one per plugin found, in order, with Use = name, Long = description, flag parsing off, and a handler bound to that plugin and the resolved search path |
| `Dispatch.RegisteredAllLoaded` | plugins.go:39-79 | when every directory loads, the subcommands are those of all directories' plugins concatenated in search-path order |
| `Dispatch.DiagnosticOnFailure` | plugins.go:39-43 | a diagnostic is written exactly when the scan fails, and then no subcommand is registered |
| `Dispatch.ShortHelpText` | plugins.go:49-55 | Short is the usage text verbatim when it is set, else `the "<name>" plugin`; it is never empty |
| `Dispatch.DefaultUsageNamesPlugin` | plugins.go:49-51 | two plugins with different names never get the same generated short help |
| `Dispatch.ExitMessageNamesPlugin` | plugins.go:66-68 | the exit error message identifies the plugin: different names give different messages |
| `Dispatch.ExitMessage` | plugins.go:68 | none of its own; characterized by `Dispatch.ExitMessageNamesPlugin` and `Dispatch.TranslateClassifies` |
| `Dispatch.Translate` | plugins.go:65-72 | none of its own; characterized by `Dispatch.TranslateClassifies` |
| `Dispatch.TranslateClassifies` | plugins.go:65-72 | the handler returns nil exactly when the child succeeds; an exit failure writes the captured standard error and returns `plugin "<name>" exited with error`; any other error is returned unchanged |
| `Dispatch.ChildSeesSameSearchPath` | plugins.go:58 | a started plugin resolves the same search path as its parent, even a defaulted one, and NO_PLUGINS is unchanged |
| `Dispatch.ChildProcess` | plugins.go:61-62 | none of its own; the child's argument vector is the prepared executable followed by the prepared arguments unchanged, and its environment is the whole current environment; used in the contract of `Dispatch.RunPlugin` |
| `Dispatch.RunPlugin` | plugins.go:57-73 | the handler leaves the environment as `PluginEnv` of the old one; the command is prepared under that new environment, and the result is `Translate` of running it with that environment |

## Left out

- `main.go` is not part of this model: it only builds the root command, calls `loadPlugins` and exits fatally on an error.
- Cobra's argument parsing and dispatch from a subcommand name to its handler: registration is modelled as appending a command record.
- `plugin.LoadAll`, `Plugin.PrepareCommand` and the metadata file format belong to the plugin package, which is not part of this model; they are parameters.
- Starting and waiting for the child process, its standard input and output, and the inheritance of the environment: `run` receives the executable, the argument vector and the environment.
- `Dispatch.RunPlugin`: the stream the child's standard output goes to is not modelled.
- `GoText.Quote`: escapes only `\a \b \f \n \r \t \v`, the backslash and the double quote. Go also escapes other non-printable characters as `\x`, `\u` or `\U` sequences; the model keeps those verbatim.
- `Environ.Environment.Setenv` and `Environ.SetupEnv`: Go's `os.Setenv` refuses a value containing a NUL character, and the source ignores that error. The model sets the value anyway.
- `GoText.SplitList`: only the Unix list separator ':' is modelled, not Windows' ';' or its quoting.
- `os.ExpandEnv` is modelled only for the one string the source gives it, `$HOME/.cli/plugins`: the value of HOME (empty when unset) followed by `/.cli/plugins`.
- `Dispatch.TranslateClassifies`: the bytes an exit failure carries are left free. Under `Run` with standard error wired to the host's stream, Go never fills them, so the write at `plugins.go:67` writes nothing.
