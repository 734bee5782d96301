/** What it means for a change to be undone, from wherever pushing it broke off, of its rendered commands; StoredText
    carries it over to the lines that are sent. */
module Undo {
  import opened Device
  import opened CiscoDriver

  /** The push stopped after k commands; the inverse then runs to the end and leaves the device as it was. */
  ghost predicate RestoresFrom(c: Config, r: RenderedChange, k: nat)
    requires k <= |r.commands|
  {
    && Run(c, r.commands[..k]).completed
    && Run(Run(c, r.commands[..k]).config, r.inverse) == Outcome(c, true)
  }

  ghost predicate Restores(c: Config, r: RenderedChange) {
    forall k :: 0 <= k <= |r.commands| ==> RestoresFrom(c, r, k)
  }

  /** The whole change goes in, and undoing it leaves something else. */
  ghost predicate Loses(c: Config, r: RenderedChange) {
    Run(c, r.commands).completed && Run(Run(c, r.commands).config, r.inverse).config != c
  }

  // ---- Prefixes of short batches ----

  lemma {:induction false} PrefixesOfOne(c: Config, r: RenderedChange)
    requires |r.commands| == 1 && RestoresFrom(c, r, 0) && RestoresFrom(c, r, 1)
    ensures Restores(c, r)
  {
  }

  lemma {:induction false} PrefixesOfTwo(c: Config, r: RenderedChange)
    requires |r.commands| == 2 && RestoresFrom(c, r, 0) && RestoresFrom(c, r, 1) && RestoresFrom(c, r, 2)
    ensures Restores(c, r)
  {
  }

  lemma {:induction false} PrefixesOfThree(c: Config, r: RenderedChange)
    requires |r.commands| == 3 && RestoresFrom(c, r, 0) && RestoresFrom(c, r, 1) && RestoresFrom(c, r, 2)
    requires RestoresFrom(c, r, 3)
    ensures Restores(c, r)
  {
  }

  lemma {:induction false} From(c: Config, r: RenderedChange, k: nat, pushed: seq<Command>, between: Config)
    requires k <= |r.commands| && r.commands[..k] == pushed
    requires Run(c, pushed) == Outcome(between, true) && Run(between, r.inverse) == Outcome(c, true)
    ensures RestoresFrom(c, r, k)
  {
  }
}
