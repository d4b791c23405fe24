/** Putting runs of the protocol together and taking them apart. */
module Runs {
  import opened Authority
  import opened Protocol

  lemma OneStepRuns(c: Config, s: World, a: Action)
    requires WellNumbered(s) && Enabled(c, s, a)
    ensures Run(c, s, [a], Step(c, s, a))
  {
    OneNext(c, s, a, Step(c, s, a));
  }

  lemma OneNext(c: Config, s: World, a: Action, t: World)
    requires Next(c, s, a, t)
    ensures Run(c, s, [a], t)
  {
    assert NextAt(c, [s, t], [a], 0);
    assert Path(c, [s, t], [a]) && [s, t][0] == s && [s, t][1] == t;
  }

  lemma RunsJoin(c: Config, s: World, first: seq<Action>, t: World, second: seq<Action>, u: World)
    requires Run(c, s, first, t) && Run(c, t, second, u)
    ensures Run(c, s, first + second, u)
  {
    var before :| Path(c, before, first) && before[0] == s && before[|first|] == t;
    var after :| Path(c, after, second) && after[0] == t && after[|second|] == u;
    PathsJoin(c, before, first, after, second);
    var all := before + after[1..];
    assert all[0] == s && all[|first + second|] == u;
  }

  lemma PathsJoin(c: Config, before: seq<World>, first: seq<Action>, after: seq<World>, second: seq<Action>)
    requires Path(c, before, first) && Path(c, after, second) && before[|first|] == after[0]
    ensures Path(c, before + after[1..], first + second)
  {
    var all, actions := before + after[1..], first + second;
    forall i: nat | i < |actions|
      ensures NextAt(c, all, actions, i)
    {
      if i < |first| {
        assert NextAt(c, before, first, i);
      } else {
        assert NextAt(c, after, second, i - |first|);
      }
    }
  }

  lemma RunGoesOn(c: Config, s: World, run: seq<Action>, t: World, a: Action)
    requires Run(c, s, run, t) && WellNumbered(t) && Enabled(c, t, a)
    ensures Run(c, s, run + [a], Step(c, t, a))
  {
    OneStepRuns(c, t, a);
    RunsJoin(c, s, run, t, [a], Step(c, t, a));
  }

  /** The first step of a run, and the rest of it. */
  lemma RunStarts(c: Config, s: World, actions: seq<Action>, t: World)
    requires Run(c, s, actions, t)
    ensures actions == [] ==> s == t
    ensures actions != [] ==>
              WellNumbered(s) && Enabled(c, s, actions[0]) && Run(c, Step(c, s, actions[0]), actions[1..], t)
  {
    var worlds :| Path(c, worlds, actions) && worlds[0] == s && worlds[|actions|] == t;
    if actions != [] {
      PathTail(c, worlds, actions);
      assert worlds[1..][0] == worlds[1] && worlds[1..][|actions[1..]|] == t;
    }
  }

  lemma PathTail(c: Config, worlds: seq<World>, actions: seq<Action>)
    requires Path(c, worlds, actions) && actions != []
    ensures Next(c, worlds[0], actions[0], worlds[1]) && Path(c, worlds[1..], actions[1..])
  {
    assert NextAt(c, worlds, actions, 0);
    forall i: nat | i < |actions[1..]|
      ensures NextAt(c, worlds[1..], actions[1..], i)
    {
      assert NextAt(c, worlds, actions, i + 1);
    }
  }
}
