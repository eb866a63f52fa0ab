/**
 * The process environment as the dispatcher sees it, and setupEnv: the four
 * variables exported to a plugin before it is started.
 */
module Environ {

  const PluginEnvVar: string := "CLI_PLUGIN"
  const PluginNameVar: string := "CLI_PLUGIN_NAME"
  const PluginDirVar: string := "CLI_PLUGIN_DIR"
  const BinVar: string := "CLI_BIN"

  /** The environment of the running process. */
  class Environment {
    var vars: map<string, string>

    constructor (initial: map<string, string>)
      ensures vars == initial
    {
      vars := initial;
    }

    /** os.Setenv(key, value). */
    method Setenv(key: string, value: string)
      modifies this
      ensures vars == old(vars)[key := value]
    {
      vars := vars[key := value];
    }
  }

  /** os.Getenv: the value of `key`, or "" when it is not set. */
  function Getenv(vars: map<string, string>, key: string): string
  {
    if key in vars then vars[key] else ""
  }

  /** The environment a plugin is given: four variables set, everything else as before. */
  function PluginEnv(vars: map<string, string>, shortname: string, base: string, bin: string, plugdirs: string)
    : (r: map<string, string>)
    ensures r.Keys == vars.Keys + {PluginNameVar, PluginDirVar, BinVar, PluginEnvVar}
    ensures r[PluginNameVar] == shortname && r[PluginDirVar] == base
    ensures r[BinVar] == bin && r[PluginEnvVar] == plugdirs
    ensures forall k :: k in vars && k !in {PluginNameVar, PluginDirVar, BinVar, PluginEnvVar} ==> r[k] == vars[k]
  {
    vars[PluginNameVar := shortname][PluginDirVar := base][BinVar := bin][PluginEnvVar := plugdirs]
  }

  /** The entries of the map literal setupEnv ranges over, in the order they are written. */
  function PluginEnvEntries(shortname: string, base: string, bin: string, plugdirs: string): seq<(string, string)>
  {
    [(PluginNameVar, shortname), (PluginDirVar, base), (BinVar, bin), (PluginEnvVar, plugdirs)]
  }

  /** No key occurs twice, as in a Go map. */
  predicate DistinctKeys(es: seq<(string, string)>)
  {
    forall i, j :: 0 <= i < j < |es| ==> es[i].0 != es[j].0
  }

  /** The environment after setting each entry of `es` in turn. */
  function ApplyEntries(vars: map<string, string>, es: seq<(string, string)>): map<string, string>
  {
    if es == [] then vars
    else ApplyEntries(vars, es[..|es| - 1])[es[|es| - 1].0 := es[|es| - 1].1]
  }

  lemma {:induction false} ApplyEntriesSets(vars: map<string, string>, es: seq<(string, string)>, e: (string, string))
    requires DistinctKeys(es) && e in es
    ensures e.0 in ApplyEntries(vars, es) && ApplyEntries(vars, es)[e.0] == e.1
  {
    var n := |es| - 1;
    var j :| 0 <= j < |es| && es[j] == e;
    if j < n {
      assert es[..n][j] == e;
      ApplyEntriesSets(vars, es[..n], e);
      assert es[j].0 != es[n].0;
    }
  }

  lemma {:induction false} ApplyEntriesKeeps(vars: map<string, string>, es: seq<(string, string)>, k: string)
    requires forall i :: 0 <= i < |es| ==> es[i].0 != k
    ensures k in ApplyEntries(vars, es) <==> k in vars
    ensures k in vars ==> ApplyEntries(vars, es)[k] == vars[k]
  {
    if es != [] {
      var n := |es| - 1;
      assert forall i :: 0 <= i < n ==> es[..n][i] == es[i];
      ApplyEntriesKeeps(vars, es[..n], k);
    }
  }

  /**
   * Go visits a map literal in no fixed order; since the four keys are distinct,
   * every visiting order leaves the same environment.
   */
  lemma PluginEnvAnyOrder(vars: map<string, string>, shortname: string, base: string, bin: string, plugdirs: string,
                          es: seq<(string, string)>)
    requires DistinctKeys(es)
    requires forall e :: e in es <==> e in PluginEnvEntries(shortname, base, bin, plugdirs)
    ensures ApplyEntries(vars, es) == PluginEnv(vars, shortname, base, bin, plugdirs)
  {
    var r := ApplyEntries(vars, es);
    var p := PluginEnv(vars, shortname, base, bin, plugdirs);
    var literal := PluginEnvEntries(shortname, base, bin, plugdirs);
    forall k
      ensures (k in r <==> k in p) && (k in r ==> r[k] == p[k])
    {
      if k == PluginNameVar {
        assert literal[0] in es;
        ApplyEntriesSets(vars, es, literal[0]);
      } else if k == PluginDirVar {
        assert literal[1] in es;
        ApplyEntriesSets(vars, es, literal[1]);
      } else if k == BinVar {
        assert literal[2] in es;
        ApplyEntriesSets(vars, es, literal[2]);
      } else if k == PluginEnvVar {
        assert literal[3] in es;
        ApplyEntriesSets(vars, es, literal[3]);
      } else {
        forall i | 0 <= i < |es|
          ensures es[i].0 != k
        {
          assert es[i] in literal;
        }
        ApplyEntriesKeeps(vars, es, k);
      }
    }
  }

  /** setupEnv(shortname, base, plugdirs), with os.Args[0] passed as `argv0`. */
  method SetupEnv(env: Environment, shortname: string, base: string, plugdirs: string, argv0: string)
    modifies env
    ensures env.vars == PluginEnv(old(env.vars), shortname, base, argv0, plugdirs)
  {
    var entries := PluginEnvEntries(shortname, base, argv0, plugdirs);
    var i := 0;
    while i < |entries|
      invariant 0 <= i <= |entries|
      invariant env.vars == ApplyEntries(old(env.vars), entries[..i])
    {
      assert entries[..i + 1][..i] == entries[..i];
      env.Setenv(entries[i].0, entries[i].1);
      i := i + 1;
    }
    assert entries[..i] == entries;
    PluginEnvAnyOrder(old(env.vars), shortname, base, argv0, plugdirs, entries);
  }
}
