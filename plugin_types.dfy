/**
 * The values the dispatcher exchanges with the plugin package and with the
 * operating system. The plugin package itself (how a directory is scanned and a
 * metadata file parsed) is not part of this model: its loader is a parameter of
 * type `string -> LoadResult`.
 */
module PluginTypes {
  import opened Wrappers

  /** A Go `error`, observed through its message. */
  datatype Error = Error(message: string)

  /** The fields of a plugin's metadata the dispatcher reads. */
  datatype Metadata = Metadata(name: string, usage: string, description: string)

  /** A discovered plugin: its metadata and the directory it was found in. */
  datatype Plugin = Plugin(metadata: Metadata, dir: string)

  /** The `([]*plugin.Plugin, error)` pair that both plugin.LoadAll and findPlugins return. */
  datatype LoadResult = LoadResult(matches: seq<Plugin>, err: Option<Error>)

  newtype byte = b: int | 0 <= b < 256

  /** A child process to start: executable, argument vector (program name first), environment. */
  datatype Process = Process(path: string, args: seq<string>, env: map<string, string>)

  /**
   * How `(*exec.Cmd).Run` ended: the child exited with status 0; it ran and exited
   * otherwise (an *exec.ExitError, with whatever standard error it captured); or
   * any other failure, such as an executable that could not be started.
   * The captured bytes are left free: Go fills ExitError.Stderr only for
   * Cmd.Output with no Stderr set, so under the dispatcher's Run, with Stderr
   * wired to the host's error stream, they are always empty.
   */
  datatype RunResult = Success | ExitFailure(captured: seq<byte>) | OtherError(err: Error)
}
