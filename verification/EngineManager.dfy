/**
  The decision of the balancer agent not to touch its engine (`Apply` in balancer/engine/engine.go):
  when the rendered text is the one applied last. Name resolution, which comes before rendering for
  nginx, has already happened to the spec given here.
 */
module EngineManager {
  import opened Wrappers
  import opened BalancerSpec
  import opened ConfigText
  import opened Render

  /** Which of the steps that can fail does fail. */
  datatype Faults = Faults(write: bool, check: bool, rename: bool, start: bool)

  const NO_FAULTS := Faults(false, false, false, false)

  datatype Outcome = Skipped | Loaded | Failed

  function TextOf(s: Spec): string {
    Print(DocOf(s))
  }

  /** A spec without a resolvable backend is refused for nginx. */
  predicate Appliable(s: Spec) {
    Acceptable(s) && (s.engine == NGINX ==> s.pools != [])
  }

  lemma TextNotEmpty(s: Spec)
    ensures TextOf(s) != ""
  {
    hide HaproxyDoc, NginxDoc, Header;
    assert DocOf(s).Cons? && DocOf(s).head == Lit(Header()) by {
      DocHead(s);
    }
    FirstOf(Header(), Print(DocOf(s).tail));
  }

  lemma DocHead(s: Spec)
    ensures DocOf(s).Cons? && DocOf(s).head == Lit(Header())
  {
    hide Header, HPools, NPools, HaproxySettings, NginxSettings, Global, LoadModule, Effective;
  }

  lemma SamePoolsItself(s: Spec)
    ensures SamePools(s, s)
  {
  }

  class Manager {
    var cur: Spec
    var rendered: string
    var engine: string
    var running: bool
    var live: map<string, string>   // the configuration file of each engine
    ghost var stale: bool           // a file was replaced by an apply that then failed

    ghost predicate Valid()
      reads this
    {
      hide DocOf, Acceptable, SamePools, Tells, Print;
      rendered != "" ==>
        && Acceptable(cur) && rendered == TextOf(cur)
        && (!stale ==> engine == cur.engine && engine in live && live[engine] == rendered)
        && (stale && running ==> engine in live && live[engine] != rendered)
    }

    constructor ()
      ensures Valid() && !stale && !running && rendered == ""
    {
      hide DocOf, Acceptable, SamePools, Tells, Print;
      cur, rendered, engine, running, live, stale := Spec("", []), "", "", false, map[], false;
    }

    /** The last applied spec still runs and `s` asks for nothing else. */
    ghost predicate Unchanged(s: Spec)
      reads this
    {
      running && engine == s.engine && rendered != "" && cur.engine == s.engine && SamePools(cur, s)
    }

    /** The engine's file asks for what `s` asks for. */
    ghost predicate FileHas(s: Spec)
      reads this
    {
      hide DocOf, Acceptable, SamePools, Tells, Print;
      engine in live && live[engine] == TextOf(s)
    }

    method Apply(s: Spec, faults: Faults) returns (o: Outcome)
      requires Valid()
      modifies this
      ensures Valid()
      ensures o == Skipped <==> Appliable(s) && old(Unchanged(s))
      ensures o == Skipped ==> live == old(live) && engine == old(engine) && running && cur == s && stale == old(stale)
      ensures o == Skipped ==> (FileHas(s) <==> !stale)
      ensures o == Loaded ==> cur == s && rendered == TextOf(s) && running && !stale
      ensures o == Loaded ==> engine == s.engine && live == old(live)[s.engine := TextOf(s)] && Tells(TextOf(s), s)
      ensures o == Failed ==> cur == old(cur) && rendered == old(rendered)
      ensures o == Failed ==> live == old(live) || (stale && engine == s.engine && live == old(live)[s.engine := TextOf(s)])
      ensures o == Failed && !faults.write && !faults.check && !faults.rename && Appliable(s) ==>
                live == old(live)[s.engine := TextOf(s)] && engine == s.engine && (old(running) && old(engine) == s.engine ==> running)
      ensures faults == NO_FAULTS && Appliable(s) ==> o != Failed
      ensures faults.start ==> o != Loaded
    {
      hide DocOf, Acceptable, SamePools, Tells, Print;
      if s.engine == NGINX && s.pools == [] {
        return Failed;
      }
      var r := Render.Render(s);
      if r.Failure? {
        return Failed;
      }
      var text := r.value;
      TextNotEmpty(s);
      if rendered != "" {
        SameTextSamePools(cur, s);
      }
      if rendered == text && engine == s.engine && running {
        cur := s;
        return Skipped;
      }
      if faults.write || faults.check || faults.rename {
        return Failed;
      }
      live := live[s.engine := text];
      stale := true;
      if running && engine != s.engine {
        running := false;
      }
      engine := s.engine;
      if faults.start {
        return Failed;
      }
      running := true;
      cur, rendered, stale := s, text, false;
      o := Loaded;
    }

    /** The process ends by itself. */
    method Exited()
      requires Valid()
      modifies this`running
      ensures Valid() && !running
    {
      hide DocOf, Acceptable, SamePools, Tells, Print;
      running := false;
    }
  }

  /**
    Where the test is not enough: after a reload that failed, the file has the new text while the
    manager remembers the old one, so going back to the old spec is skipped and the file stays.
   */
  method SkippedWhileStale(a: Spec, b: Spec) returns (m: Manager, last: Outcome)
    requires Appliable(a) && Appliable(b)
    requires a.engine == b.engine && !SamePools(a, b)
    ensures last == Skipped && m.cur == a && m.FileHas(b) && !m.FileHas(a)
  {
    hide Acceptable, SamePools, DocOf, Tells;
    SameTextSamePools(a, b);
    SamePoolsItself(a);
    TextNotEmpty(a);
    m := new Manager();
    last := m.Apply(a, NO_FAULTS);
    last := m.Apply(b, Faults(false, false, false, true));
    last := m.Apply(a, NO_FAULTS);
  }
}
