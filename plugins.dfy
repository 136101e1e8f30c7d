/**
 * The launch arguments that active plugins contribute to a drone.
 *
 * Every active plugin is visited in the key order of `haibu.activePlugins`; a
 * plugin with an `argv` capability is called with the repository and may name
 * a replacement start script and a list of extra carapace arguments.
 */
module Plugins {
  import opened Wrappers

  /** What one plugin's `argv(repo)` returned for the repository being spawned. */
  datatype Contribution = Contribution(script: Option<string>, argv: Option<seq<string>>)

  /**
   * One entry of the active-plugin table. `argv` is `None` when the plugin has
   * no `argv` capability, and otherwise the contribution it makes for this repository.
   */
  datatype Plugin = Plugin(name: string, argv: Option<Contribution>)

  /** The plugin replaces the start script: only a non-empty script name is truthy. */
  predicate SetsScript(p: Plugin)
  {
    p.argv.Some? && p.argv.value.script.Some? && p.argv.value.script.value != ""
  }

  function ScriptOf(p: Plugin): string
    requires SetsScript(p)
  {
    p.argv.value.script.value
  }

  /** The arguments one plugin appends; a plugin without the capability or without `argv` appends none. */
  function ArgvOf(p: Plugin): seq<string>
  {
    if p.argv.Some? && p.argv.value.argv.Some? then p.argv.value.argv.value else []
  }

  /** The carapace arguments after visiting `ps` in order, starting from the empty base list. */
  function Contributed(ps: seq<Plugin>): seq<string>
    decreases |ps|
  {
    if ps == [] then [] else Contributed(ps[..|ps| - 1]) + ArgvOf(ps[|ps| - 1])
  }

  /** The script the monitor is given after visiting `ps` in order, starting from `start`. */
  function LaunchScript(ps: seq<Plugin>, start: string): (script: string)
    ensures (forall i :: 0 <= i < |ps| ==> !SetsScript(ps[i])) ==> script == start
    ensures forall i :: 0 <= i < |ps| && SetsScript(ps[i]) && (forall j :: i < j < |ps| ==> !SetsScript(ps[j]))
              ==> script == ScriptOf(ps[i])
    decreases |ps|
  {
    if ps == [] then start
    else if SetsScript(ps[|ps| - 1]) then ScriptOf(ps[|ps| - 1])
    else
      var prefix := ps[..|ps| - 1];
      assert forall i :: 0 <= i < |prefix| ==> prefix[i] == ps[i];
      LaunchScript(prefix, start)
  }

  /** Concatenation distributes over splitting the plugin list: no contribution is dropped or reordered. */
  lemma {:induction false} ContributedAppend(p: seq<Plugin>, q: seq<Plugin>)
    ensures Contributed(p + q) == Contributed(p) + Contributed(q)
    decreases |q|
  {
    if q == [] {
      assert p + q == p;
    } else {
      var pq := p + q;
      assert pq[..|pq| - 1] == p + q[..|q| - 1];
      assert pq[|pq| - 1] == q[|q| - 1];
      ContributedAppend(p, q[..|q| - 1]);
    }
  }

  /** Each plugin's arguments appear whole, after those of every earlier plugin and before those of every later one. */
  lemma {:induction false} ContributionInPlace(ps: seq<Plugin>, i: nat)
    requires i < |ps|
    ensures Contributed(ps) == Contributed(ps[..i]) + ArgvOf(ps[i]) + Contributed(ps[i + 1..])
  {
    var upto, after := ps[..i + 1], ps[i + 1..];
    assert ps == upto + after;
    ContributedAppend(upto, after);
    assert upto[..i] == ps[..i];
    assert Contributed(upto) == Contributed(ps[..i]) + ArgvOf(ps[i]);
  }

  /** The plugins that have an `argv` capability, in their original order. */
  function Capable(ps: seq<Plugin>): (cs: seq<Plugin>)
    ensures forall i :: 0 <= i < |cs| ==> cs[i].argv.Some? && cs[i] in ps
    ensures forall i :: 0 <= i < |ps| && ps[i].argv.Some? ==> ps[i] in cs
    decreases |ps|
  {
    if ps == [] then []
    else
      var prefix := ps[..|ps| - 1];
      assert forall i :: 0 <= i < |prefix| ==> prefix[i] == ps[i];
      Capable(prefix) + (if ps[|ps| - 1].argv.Some? then [ps[|ps| - 1]] else [])
  }

  /** Filtering keeps the order: the capable plugins of two runs are those of the first run, then those of the second. */
  lemma {:induction false} CapableAppend(p: seq<Plugin>, q: seq<Plugin>)
    ensures Capable(p + q) == Capable(p) + Capable(q)
    decreases |q|
  {
    if q == [] {
      assert p + q == p;
    } else {
      var pq := p + q;
      assert pq[..|pq| - 1] == p + q[..|q| - 1];
      assert pq[|pq| - 1] == q[|q| - 1];
      CapableAppend(p, q[..|q| - 1]);
    }
  }

  /** Plugins without an `argv` capability take no part in the fold. */
  lemma {:induction false} OnlyCapableConsulted(ps: seq<Plugin>, start: string)
    ensures Contributed(Capable(ps)) == Contributed(ps)
    ensures LaunchScript(Capable(ps), start) == LaunchScript(ps, start)
    decreases |ps|
  {
    if ps != [] {
      var prefix, last := ps[..|ps| - 1], ps[|ps| - 1];
      OnlyCapableConsulted(prefix, start);
      if last.argv.Some? {
        var cs := Capable(prefix) + [last];
        assert Capable(ps) == cs;
        assert cs[..|cs| - 1] == Capable(prefix);
      } else {
        assert Capable(ps) == Capable(prefix) + [];
        assert Capable(prefix) + [] == Capable(prefix);
      }
    }
  }

  /**
   * Two plugins, the first adding `--a`, the second adding `--b` and naming `alt.js`:
   * the arguments are `--a --b` in that order and the script is `alt.js`.
   */
  lemma TwoPluginExample(start: string)
    ensures var ps := [Plugin("p1", Some(Contribution(None, Some(["--a"])))),
                       Plugin("p2", Some(Contribution(Some("alt.js"), Some(["--b"]))))];
            Contributed(ps) == ["--a", "--b"] && LaunchScript(ps, start) == "alt.js"
  {
    var ps := [Plugin("p1", Some(Contribution(None, Some(["--a"])))),
               Plugin("p2", Some(Contribution(Some("alt.js"), Some(["--b"]))))];
    assert ps[..1][..0] == [];
    assert Contributed(ps[..1]) == ["--a"];
  }
}
