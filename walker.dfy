/** The rule as it runs: the host visits the tree in source order and calls
    the rule's handlers; the rule keeps a stack of `@supports` scopes and
    appends reports as it goes. */
module Walker {
  import opened Syntax
  import opened Features
  import opened Baseline
  import opened Supports
  import opened Dispatch

  /** One handler call: entering or leaving an `@supports` block, or visiting
      a construct that uses a feature. */
  datatype Event = EnterSupports(prelude: Prelude) | ExitSupports | Visit(use: Use)

  function Visits(us: seq<Use>): (es: seq<Event>)
    ensures |es| == |us|
  {
    if us == [] then [] else [Visit(us[0])] + Visits(us[1..])
  }

  /** The handler calls for a node, in the host's depth-first source order.
      An `@supports` rule's prelude is not visited; its block is bracketed by
      enter and exit. */
  function NodeEvents(n: Node): seq<Event>
    decreases n
  {
    match n
    case Declaration(p, v) => Visits(DeclarationUses(p, v))
    case Rule(sel, block) => Visits(SelectorUses(sel)) + Events(block)
    case Atrule(name, prelude, block) =>
      Visits(AtRuleUses(name, prelude)) +
      if IsSupports(name.text) then [EnterSupports(prelude)] + Events(block) + [ExitSupports]
      else Events(block)
  }

  function Events(ns: seq<Node>): seq<Event>
    decreases ns
  {
    if ns == [] then [] else NodeEvents(ns[0]) + Events(ns[1..])
  }

  /** The rule's state: the pushed scope frames (the implicit root frame is
      empty) and the reports so far. */
  datatype Machine = Machine(scopes: seq<set<Feature>>, reports: seq<Diagnostic>)

  /** The active scope: the top frame, or the empty root frame. */
  function Top(scopes: seq<set<Feature>>): set<Feature> {
    if scopes == [] then {} else scopes[|scopes| - 1]
  }

  /** Each frame holds all the keys of the frames below it. */
  predicate Nested(scopes: seq<set<Feature>>) {
    forall i, j :: 0 <= i <= j < |scopes| ==> scopes[i] <= scopes[j]
  }

  /** One handler call. Entering pushes the granted keys joined with the
      active scope; leaving pops (on an empty stack, nothing happens). Every
      call keeps the frames nested and only ever appends reports; a visit
      leaves the stack alone. */
  function Step(m: Machine, e: Event, cfg: Config, db: Database): (next: Machine)
    ensures Nested(m.scopes) ==> Nested(next.scopes)
    ensures e.Visit? ==> next.scopes == m.scopes && |next.reports| <= |m.reports| + 1
    ensures !e.Visit? ==> next.reports == m.reports
  {
    match e
    case EnterSupports(p) => Machine(m.scopes + [Granted(p) + Top(m.scopes)], m.reports)
    case ExitSupports => Machine(if m.scopes == [] then [] else m.scopes[..|m.scopes| - 1], m.reports)
    case Visit(u) => Machine(m.scopes, m.reports + Report(u, Top(m.scopes), cfg, db))
  }

  /** The state after a sequence of handler calls: the stack grows by at
      most one frame per call, and there is at most one report per call. */
  function Replay(m: Machine, es: seq<Event>, cfg: Config, db: Database): (r: Machine)
    ensures |r.scopes| <= |m.scopes| + |es|
    ensures |m.reports| <= |r.reports| <= |m.reports| + |es|
    decreases |es|
  {
    if es == [] then m else Step(Replay(m, es[..|es| - 1], cfg, db), es[|es| - 1], cfg, db)
  }

  /** Handler calls keep the frames nested and never revise an earlier report. */
  lemma {:induction false} ReplayKeeps(m: Machine, es: seq<Event>, cfg: Config, db: Database)
    ensures Nested(m.scopes) ==> Nested(Replay(m, es, cfg, db).scopes)
    ensures Replay(m, es, cfg, db).reports[..|m.reports|] == m.reports
    decreases |es|
  {
    if es != [] {
      var before := Replay(m, es[..|es| - 1], cfg, db);
      ReplayKeeps(m, es[..|es| - 1], cfg, db);
      var after := Step(before, es[|es| - 1], cfg, db);
      assert after.reports[..|before.reports|] == before.reports;
    }
  }

  lemma {:induction false} ReplayAppend(m: Machine, a: seq<Event>, b: seq<Event>, cfg: Config, db: Database)
    ensures Replay(m, a + b, cfg, db) == Replay(Replay(m, a, cfg, db), b, cfg, db)
    decreases |b|
  {
    if b == [] {
      assert a + b == a;
    } else {
      var ab, front, last := a + b, b[..|b| - 1], b[|b| - 1];
      assert ab[..|ab| - 1] == a + front;
      assert ab[|ab| - 1] == last;
      calc {
        Replay(m, ab, cfg, db);
        Step(Replay(m, a + front, cfg, db), last, cfg, db);
        { ReplayAppend(m, a, front, cfg, db); }
        Step(Replay(Replay(m, a, cfg, db), front, cfg, db), last, cfg, db);
        Replay(Replay(m, a, cfg, db), b, cfg, db);
      }
    }
  }

  lemma ReplayOne(m: Machine, e: Event, cfg: Config, db: Database)
    ensures Replay(m, [e], cfg, db) == Step(m, e, cfg, db)
  {
    assert [e][..0] == [];
  }

  /** Visiting uses reports them under the active scope and leaves the stack alone. */
  lemma {:induction false} ReplayVisits(m: Machine, us: seq<Use>, cfg: Config, db: Database)
    ensures Replay(m, Visits(us), cfg, db) ==
      Machine(m.scopes, m.reports + ReportAll(us, Top(m.scopes), cfg, db))
    decreases us
  {
    if us == [] {
      assert m.reports + [] == m.reports;
    } else {
      var m1 := Step(m, Visit(us[0]), cfg, db);
      var rest := ReportAll(us[1..], Top(m.scopes), cfg, db);
      calc {
        Replay(m, Visits(us), cfg, db);
        { ReplayAppend(m, [Visit(us[0])], Visits(us[1..]), cfg, db); }
        Replay(Replay(m, [Visit(us[0])], cfg, db), Visits(us[1..]), cfg, db);
        { ReplayOne(m, Visit(us[0]), cfg, db); }
        Replay(m1, Visits(us[1..]), cfg, db);
        { ReplayVisits(m1, us[1..], cfg, db); }
        Machine(m.scopes, m1.reports + rest);
        { assert m1.reports + rest == m.reports + (Report(us[0], Top(m.scopes), cfg, db) + rest); }
        Machine(m.scopes, m.reports + ReportAll(us, Top(m.scopes), cfg, db));
      }
    }
  }

  /** The stack discipline implements the lexical scoping of `Findings`:
      replaying a node's handler calls appends exactly its reports under the
      active scope and leaves the stack as it found it. */
  lemma {:induction false} NodeEventsMatchFindings(n: Node, m: Machine, cfg: Config, db: Database)
    ensures Replay(m, NodeEvents(n), cfg, db) ==
      Machine(m.scopes, m.reports + Findings(n, Top(m.scopes), cfg, db))
    decreases n
  {
    var scope := Top(m.scopes);
    match n
    case Declaration(p, v) =>
      ReplayVisits(m, DeclarationUses(p, v), cfg, db);
    case Rule(sel, block) =>
      var us := SelectorUses(sel);
      var m1 := Machine(m.scopes, m.reports + ReportAll(us, scope, cfg, db));
      calc {
        Replay(m, NodeEvents(n), cfg, db);
        { ReplayAppend(m, Visits(us), Events(block), cfg, db); }
        Replay(Replay(m, Visits(us), cfg, db), Events(block), cfg, db);
        { ReplayVisits(m, us, cfg, db); }
        Replay(m1, Events(block), cfg, db);
        { EventsMatchFindings(block, m1, cfg, db); }
        Machine(m.scopes, m1.reports + FindingsList(block, scope, cfg, db));
        { AppendAssoc(m.reports, ReportAll(us, scope, cfg, db), FindingsList(block, scope, cfg, db)); }
        Machine(m.scopes, m.reports + Findings(n, scope, cfg, db));
      }
    case Atrule(name, prelude, block) =>
      var us := AtRuleUses(name, prelude);
      var m1 := Machine(m.scopes, m.reports + ReportAll(us, scope, cfg, db));
      if IsSupports(name.text) {
        var frame := Granted(prelude) + scope;
        var inner := FindingsList(block, frame, cfg, db);
        var m2 := Machine(m.scopes + [frame], m1.reports);
        var m3 := Machine(m2.scopes, m2.reports + inner);
        assert Top(m2.scopes) == frame;
        assert m3.scopes[..|m3.scopes| - 1] == m.scopes;
        calc {
          Replay(m, NodeEvents(n), cfg, db);
          { ReplayAppend(m, Visits(us), [EnterSupports(prelude)] + Events(block) + [ExitSupports], cfg, db); }
          Replay(Replay(m, Visits(us), cfg, db), [EnterSupports(prelude)] + Events(block) + [ExitSupports], cfg, db);
          { ReplayVisits(m, us, cfg, db); }
          Replay(m1, [EnterSupports(prelude)] + Events(block) + [ExitSupports], cfg, db);
          { ReplayAppend(m1, [EnterSupports(prelude)] + Events(block), [ExitSupports], cfg, db); }
          Replay(Replay(m1, [EnterSupports(prelude)] + Events(block), cfg, db), [ExitSupports], cfg, db);
          { ReplayAppend(m1, [EnterSupports(prelude)], Events(block), cfg, db); }
          Replay(Replay(Replay(m1, [EnterSupports(prelude)], cfg, db), Events(block), cfg, db), [ExitSupports], cfg, db);
          { ReplayOne(m1, EnterSupports(prelude), cfg, db); }
          Replay(Replay(m2, Events(block), cfg, db), [ExitSupports], cfg, db);
          { EventsMatchFindings(block, m2, cfg, db); }
          Replay(m3, [ExitSupports], cfg, db);
          { ReplayOne(m3, ExitSupports, cfg, db); }
          Machine(m.scopes, m3.reports);
          { AppendAssoc(m.reports, ReportAll(us, scope, cfg, db), inner); }
          Machine(m.scopes, m.reports + Findings(n, scope, cfg, db));
        }
      } else {
        calc {
          Replay(m, NodeEvents(n), cfg, db);
          { ReplayAppend(m, Visits(us), Events(block), cfg, db); }
          Replay(Replay(m, Visits(us), cfg, db), Events(block), cfg, db);
          { ReplayVisits(m, us, cfg, db); }
          Replay(m1, Events(block), cfg, db);
          { EventsMatchFindings(block, m1, cfg, db); }
          Machine(m.scopes, m1.reports + FindingsList(block, scope, cfg, db));
          { AppendAssoc(m.reports, ReportAll(us, scope, cfg, db), FindingsList(block, scope, cfg, db)); }
          Machine(m.scopes, m.reports + Findings(n, scope, cfg, db));
        }
      }
  }

  lemma {:induction false} EventsMatchFindings(ns: seq<Node>, m: Machine, cfg: Config, db: Database)
    ensures Replay(m, Events(ns), cfg, db) ==
      Machine(m.scopes, m.reports + FindingsList(ns, Top(m.scopes), cfg, db))
    decreases ns
  {
    if ns == [] {
      assert m.reports + [] == m.reports;
    } else {
      var scope := Top(m.scopes);
      var m1 := Machine(m.scopes, m.reports + Findings(ns[0], scope, cfg, db));
      calc {
        Replay(m, Events(ns), cfg, db);
        { ReplayAppend(m, NodeEvents(ns[0]), Events(ns[1..]), cfg, db); }
        Replay(Replay(m, NodeEvents(ns[0]), cfg, db), Events(ns[1..]), cfg, db);
        { NodeEventsMatchFindings(ns[0], m, cfg, db); }
        Replay(m1, Events(ns[1..]), cfg, db);
        { EventsMatchFindings(ns[1..], m1, cfg, db); }
        Machine(m.scopes, m1.reports + FindingsList(ns[1..], scope, cfg, db));
        { AppendAssoc(m.reports, Findings(ns[0], scope, cfg, db), FindingsList(ns[1..], scope, cfg, db)); }
        Machine(m.scopes, m.reports + FindingsList(ns, scope, cfg, db));
      }
    }
  }

  lemma AppendAssoc<T>(a: seq<T>, b: seq<T>, c: seq<T>)
    ensures a + b + c == a + (b + c)
  {
  }

  /** One run of the rule over one stylesheet. */
  class UseBaseline {
    const config: Config
    const db: Database
    var scopes: seq<set<Feature>>
    var reports: seq<Diagnostic>

    ghost predicate Valid()
      reads this
    {
      Nested(scopes)
    }

    constructor (config: Config, db: Database)
      ensures Valid()
      ensures this.config == config && this.db == db
      ensures scopes == [] && reports == []
    {
      this.config := config;
      this.db := db;
      scopes := [];
      reports := [];
    }

    /** Entering an `@supports` block: push the condition's keys joined with the active scope. */
    method EnterSupports(prelude: Prelude)
      requires Valid()
      modifies this
      ensures Valid()
      ensures scopes == old(scopes) + [Granted(prelude) + Top(old(scopes))]
      ensures reports == old(reports)
    {
      var active := if scopes == [] then {} else scopes[|scopes| - 1];
      scopes := scopes + [Granted(prelude) + active];
    }

    /** Leaving an `@supports` block: pop its frame. */
    method ExitSupports()
      requires Valid()
      modifies this
      ensures Valid()
      ensures scopes == if old(scopes) == [] then [] else old(scopes)[..|old(scopes)| - 1]
      ensures reports == old(reports)
    {
      if scopes != [] {
        scopes := scopes[..|scopes| - 1];
      }
    }

    /** Visiting a construct: allow-lists, then scope, then threshold. Only
        the top frame is consulted; as frames are nested, a key granted by
        any enclosing block suppresses the report. */
    method Check(u: Use)
      requires Valid()
      modifies this
      ensures Valid()
      ensures scopes == old(scopes)
      ensures reports == old(reports) + Report(u, Top(old(scopes)), config, db)
      ensures forall i :: 0 <= i < |scopes| && Key(u.feature) in scopes[i] ==> reports == old(reports)
    {
      if Allowed(config, u.feature) {
        return;
      }
      var key := Key(u.feature);
      if scopes != [] && key in scopes[|scopes| - 1] {
        return;
      }
      var verdict := Evaluate(db, key, config.available);
      if verdict.Some? {
        reports := reports + [Diagnostic(u.feature, verdict.value, u.span)];
      }
    }

    /** Dispatches the host's handler calls in order. */
    method Run(events: seq<Event>)
      requires Valid()
      modifies this
      ensures Valid()
      ensures Machine(scopes, reports) == Replay(Machine(old(scopes), old(reports)), events, config, db)
    {
      ghost var start := Machine(scopes, reports);
      var i := 0;
      while i < |events|
        invariant 0 <= i <= |events|
        invariant Valid()
        invariant Machine(scopes, reports) == Replay(start, events[..i], config, db)
      {
        assert events[..i + 1][..i] == events[..i];
        ghost var before := Machine(scopes, reports);
        assert Replay(start, events[..i + 1], config, db) == Step(before, events[i], config, db);
        match events[i] {
          case EnterSupports(p) => EnterSupports(p);
          case ExitSupports => ExitSupports();
          case Visit(u) => Check(u);
        }
        i := i + 1;
      }
      assert events[..i] == events;
    }
  }

  /** Runs the rule over a stylesheet and returns its reports, which are
      exactly the lexical semantics `FindingsList` from an empty scope. */
  method Lint(sheet: seq<Node>, cfg: Config, db: Database) returns (ds: seq<Diagnostic>)
    ensures ds == FindingsList(sheet, {}, cfg, db)
  {
    var rule := new UseBaseline(cfg, db);
    rule.Run(Events(sheet));
    EventsMatchFindings(sheet, Machine([], []), cfg, db);
    ds := rule.reports;
  }
}
