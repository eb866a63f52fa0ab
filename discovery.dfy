/**
 * findPlugins: the fail-fast scan of the plugin search path. Every directory of
 * the ':'-separated path is handed, in order, to the plugin loader; the plugins
 * found are concatenated, and the first directory whose load fails ends the scan
 * with that directory's own result, dropping what earlier directories found.
 */
module Discovery {
  import opened Wrappers
  import opened PluginTypes
  import GoText

  /** What findPlugins returns for an already split search path. */
  function FindAll(dirs: seq<string>, load: string -> LoadResult): LoadResult
  {
    if dirs == [] then LoadResult([], None)
    else
      var first := load(dirs[0]);
      if first.err.Some? then first
      else
        var rest := FindAll(dirs[1..], load);
        if rest.err.Some? then rest else LoadResult(first.matches + rest.matches, None)
  }

  /** The plugins of every directory, in search-path order, duplicates kept. */
  function Concat(dirs: seq<string>, load: string -> LoadResult): seq<Plugin>
  {
    if dirs == [] then [] else load(dirs[0]).matches + Concat(dirs[1..], load)
  }

  /** The result of a scan whose earlier directories already yielded `found`. */
  function Continue(found: seq<Plugin>, rest: LoadResult): LoadResult
  {
    if rest.err.Some? then rest else LoadResult(found + rest.matches, None)
  }

  /** When no directory fails, the scan is the concatenation of every directory's plugins. */
  lemma {:induction false} FindAllNoError(dirs: seq<string>, load: string -> LoadResult)
    requires forall i :: 0 <= i < |dirs| ==> load(dirs[i]).err.None?
    ensures FindAll(dirs, load) == LoadResult(Concat(dirs, load), None)
  {
    if dirs != [] {
      assert load(dirs[0]).err.None?;
      FindAllNoError(dirs[1..], load);
    }
  }

  /**
   * At the first directory whose load fails the scan stops with exactly that
   * directory's result: its own matches and its error.
   */
  lemma {:induction false} FindAllFirstError(dirs: seq<string>, load: string -> LoadResult, k: nat)
    requires k < |dirs| && load(dirs[k]).err.Some?
    requires forall j :: 0 <= j < k ==> load(dirs[j]).err.None?
    ensures FindAll(dirs, load) == load(dirs[k])
  {
    if k > 0 {
      assert load(dirs[0]).err.None?;
      FindAllFirstError(dirs[1..], load, k - 1);
    }
  }

  /** The scan fails exactly when some directory of the path fails to load. */
  lemma {:induction false} FindAllFailsIff(dirs: seq<string>, load: string -> LoadResult)
    ensures FindAll(dirs, load).err.Some? <==> exists i :: 0 <= i < |dirs| && load(dirs[i]).err.Some?
  {
    if dirs != [] {
      FindAllFailsIff(dirs[1..], load);
      if load(dirs[0]).err.None? {
        forall i | 1 <= i < |dirs|
          ensures load(dirs[i]) == load(dirs[1..][i - 1])
        {
        }
        if exists i :: 0 <= i < |dirs| && load(dirs[i]).err.Some? {
          var i :| 0 <= i < |dirs| && load(dirs[i]).err.Some?;
          assert load(dirs[1..][i - 1]).err.Some?;
        }
      }
    }
  }

  /**
   * Directories after the first failing one are never consulted: any loader
   * that agrees up to and including that directory gives the same scan.
   */
  lemma FindAllIgnoresLater(dirs: seq<string>, load: string -> LoadResult, other: string -> LoadResult, k: nat)
    requires k < |dirs| && load(dirs[k]).err.Some?
    requires forall j :: 0 <= j < k ==> load(dirs[j]).err.None?
    requires forall j :: 0 <= j <= k ==> other(dirs[j]) == load(dirs[j])
    ensures FindAll(dirs, other) == FindAll(dirs, load)
  {
    FindAllFirstError(dirs, load, k);
    assert other(dirs[k]) == load(dirs[k]);
    forall j | 0 <= j < k
      ensures other(dirs[j]).err.None?
    {
      assert other(dirs[j]) == load(dirs[j]);
    }
    FindAllFirstError(dirs, other, k);
  }

  /** findPlugins(plugdirs): scans the directories of the search path in order. */
  method FindPlugins(plugdirs: string, load: string -> LoadResult) returns (found: seq<Plugin>, err: Option<Error>)
    ensures LoadResult(found, err) == FindAll(GoText.SplitList(plugdirs), load)
  {
    var dirs := GoText.SplitList(plugdirs);
    found := [];
    var i := 0;
    while i < |dirs|
      invariant 0 <= i <= |dirs|
      invariant FindAll(dirs, load) == Continue(found, FindAll(dirs[i..], load))
    {
      var r := load(dirs[i]);
      if r.err.Some? {
        found, err := r.matches, r.err;
        return;
      }
      assert dirs[i..][1..] == dirs[i + 1..];
      found := found + r.matches;
      i := i + 1;
    }
    err := None;
  }
}
