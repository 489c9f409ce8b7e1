/** The dispatcher and the lexical semantics of the whole rule: the reports a
    stylesheet receives, defined over the tree with the active `@supports`
    scope passed down explicitly. */
module Dispatch {
  import opened Text
  import opened Syntax
  import opened Features
  import opened Baseline
  import opened Supports

  /** The rule's options. */
  datatype Config = Config(
    available: Threshold,
    allowProperties: set<string>,
    allowAtRules: set<string>,
    allowSelectors: set<string>)

  /** No options: threshold `widely`, empty allow-lists. */
  const DefaultConfig := Config(WidelyAvailable, {}, {}, {})

  /** One report: what is used (its kind is the message), the availability
      it falls short of, and where. */
  datatype Diagnostic = Diagnostic(feature: Feature, availability: Threshold, span: Span)

  /** The allow-lists. Properties match as written; at-rule and selector
      entries match the lower-cased name. Other kinds have no allow-list. */
  predicate Allowed(cfg: Config, f: Feature)
    ensures Allowed(cfg, f) ==> f.Property? || f.AtRule? || f.Selector?
  {
    match f
    case Property(p) => p in cfg.allowProperties
    case AtRule(n) => LowerStr(n) in cfg.allowAtRules
    case Selector(n) => LowerStr(n) in cfg.allowSelectors
    case _ => false
  }

  /** At-rule and selector allow-list entries match every letter case of the
      name: two spellings of one at-rule or selector are allowed alike. */
  lemma AllowListsIgnoreCase(cfg: Config, f: Feature, g: Feature)
    requires f.AtRule? || f.Selector?
    requires Key(f) == Key(g)
    ensures Allowed(cfg, f) <==> Allowed(cfg, g)
  {
    FoldsTo(f.name, Key(f).name);
    FoldsTo(g.name, Key(g).name);
  }

  /** A use that must be reported: no allow-list names it, its key is not in
      the active scope, and the data knows it and puts it below the threshold. */
  predicate Offends(u: Use, scope: set<Feature>, cfg: Config, db: Database) {
    !Allowed(cfg, u.feature) && Key(u.feature) !in scope &&
    Key(u.feature) in db && !Meets(db[Key(u.feature)], cfg.available)
  }

  /** Allow-lists first, then the active scope, then the threshold: a use is
      reported, once and at its own span, exactly when it offends. */
  function Report(u: Use, scope: set<Feature>, cfg: Config, db: Database): (ds: seq<Diagnostic>)
    ensures |ds| <= 1
    ensures ds != [] ==> ds[0] == Diagnostic(u.feature, cfg.available, u.span)
    ensures ds != [] <==> Offends(u, scope, cfg, db)
  {
    if Allowed(cfg, u.feature) then []
    else if Key(u.feature) in scope then []
    else match Evaluate(db, Key(u.feature), cfg.available)
      case None => []
      case Some(a) => [Diagnostic(u.feature, a, u.span)]
  }

  /** The reports for a sequence of uses under one scope, in order. */
  function ReportAll(us: seq<Use>, scope: set<Feature>, cfg: Config, db: Database): (ds: seq<Diagnostic>)
    ensures |ds| <= |us|
  {
    if us == [] then [] else Report(us[0], scope, cfg, db) + ReportAll(us[1..], scope, cfg, db)
  }

  /** Every offending use is reported, and every report is of an offending use. */
  lemma {:induction false} ReportAllExact(us: seq<Use>, scope: set<Feature>, cfg: Config, db: Database)
    ensures forall u :: u in us && Offends(u, scope, cfg, db) ==>
      Diagnostic(u.feature, cfg.available, u.span) in ReportAll(us, scope, cfg, db)
    ensures forall d :: d in ReportAll(us, scope, cfg, db) ==> Justified(d, scope, cfg, db) && Use(d.feature, d.span) in us
    decreases us
  {
    if us != [] {
      ReportAllExact(us[1..], scope, cfg, db);
      assert us == [us[0]] + us[1..];
    }
  }

  /** The reports for consecutive uses are those of each, in order. */
  lemma {:induction false} ReportAllAppend(a: seq<Use>, b: seq<Use>, scope: set<Feature>, cfg: Config, db: Database)
    ensures ReportAll(a + b, scope, cfg, db) == ReportAll(a, scope, cfg, db) + ReportAll(b, scope, cfg, db)
    decreases a
  {
    if a == [] {
      assert a + b == b;
    } else {
      assert (a + b)[0] == a[0];
      assert (a + b)[1..] == a[1..] + b;
      ReportAllAppend(a[1..], b, scope, cfg, db);
    }
  }

  /** The reports for one node: its own uses, then its block; an `@supports`
      block (the name in any letter case) is checked with the condition's
      keys added to the scope, and the addition ends with the block. Every
      report is justified under the scope outside the node, since a block's
      scope only ever adds keys. */
  function Findings(n: Node, scope: set<Feature>, cfg: Config, db: Database): (ds: seq<Diagnostic>)
    ensures forall d :: d in ds ==> Justified(d, scope, cfg, db)
    decreases n
  {
    match n
    case Declaration(p, v) =>
      ReportAllExact(DeclarationUses(p, v), scope, cfg, db);
      ReportAll(DeclarationUses(p, v), scope, cfg, db)
    case Rule(sel, block) =>
      ReportAllExact(SelectorUses(sel), scope, cfg, db);
      ReportAll(SelectorUses(sel), scope, cfg, db) + FindingsList(block, scope, cfg, db)
    case Atrule(name, prelude, block) =>
      ReportAllExact(AtRuleUses(name, prelude), scope, cfg, db);
      ReportAll(AtRuleUses(name, prelude), scope, cfg, db) +
      FindingsList(block, if IsSupports(name.text) then Granted(prelude) + scope else scope, cfg, db)
  }

  function FindingsList(ns: seq<Node>, scope: set<Feature>, cfg: Config, db: Database): (ds: seq<Diagnostic>)
    ensures forall d :: d in ds ==> Justified(d, scope, cfg, db)
    decreases ns
  {
    if ns == [] then [] else Findings(ns[0], scope, cfg, db) + FindingsList(ns[1..], scope, cfg, db)
  }

  /** What every report satisfies: it carries the configured availability,
      names a use that no allow-list covers, whose key is outside the scope,
      known to the data and below the threshold. */
  predicate Justified(d: Diagnostic, scope: set<Feature>, cfg: Config, db: Database) {
    d.availability == cfg.available && Offends(Use(d.feature, d.span), scope, cfg, db)
  }

  /** Every feature use in a node, paired with the scope in force where it
      occurs: the node's own uses under `scope`, its block's uses under the
      block's scope. */
  function Occurrences(n: Node, scope: set<Feature>): set<(Use, set<Feature>)>
    decreases n
  {
    match n
    case Declaration(p, v) => set u | u in DeclarationUses(p, v) :: (u, scope)
    case Rule(sel, block) => (set u | u in SelectorUses(sel) :: (u, scope)) + OccurrencesList(block, scope)
    case Atrule(name, prelude, block) =>
      (set u | u in AtRuleUses(name, prelude) :: (u, scope)) +
      OccurrencesList(block, if IsSupports(name.text) then Granted(prelude) + scope else scope)
  }

  function OccurrencesList(ns: seq<Node>, scope: set<Feature>): set<(Use, set<Feature>)>
    decreases ns
  {
    if ns == [] then {} else Occurrences(ns[0], scope) + OccurrencesList(ns[1..], scope)
  }

  /** Completeness: a use that offends under the scope in force where it
      occurs is reported, at its own span, at any depth. */
  lemma {:induction false} FindingsComplete(n: Node, scope: set<Feature>, cfg: Config, db: Database, u: Use, s: set<Feature>)
    requires (u, s) in Occurrences(n, scope) && Offends(u, s, cfg, db)
    ensures Diagnostic(u.feature, cfg.available, u.span) in Findings(n, scope, cfg, db)
    decreases n
  {
    match n
    case Declaration(p, v) =>
      ReportAllExact(DeclarationUses(p, v), scope, cfg, db);
    case Rule(sel, block) =>
      ReportAllExact(SelectorUses(sel), scope, cfg, db);
      if (u, s) in OccurrencesList(block, scope) {
        FindingsListComplete(block, scope, cfg, db, u, s);
      }
    case Atrule(name, prelude, block) =>
      var inner := if IsSupports(name.text) then Granted(prelude) + scope else scope;
      ReportAllExact(AtRuleUses(name, prelude), scope, cfg, db);
      if (u, s) in OccurrencesList(block, inner) {
        FindingsListComplete(block, inner, cfg, db, u, s);
      }
  }

  lemma {:induction false} FindingsListComplete(ns: seq<Node>, scope: set<Feature>, cfg: Config, db: Database, u: Use, s: set<Feature>)
    requires (u, s) in OccurrencesList(ns, scope) && Offends(u, s, cfg, db)
    ensures Diagnostic(u.feature, cfg.available, u.span) in FindingsList(ns, scope, cfg, db)
    decreases ns
  {
    if (u, s) in Occurrences(ns[0], scope) {
      FindingsComplete(ns[0], scope, cfg, db, u, s);
    } else {
      FindingsListComplete(ns[1..], scope, cfg, db, u, s);
    }
  }

  /** Soundness: every report is of a use that offends under the scope in
      force where it occurs. */
  lemma {:induction false} FindingsSound(n: Node, scope: set<Feature>, cfg: Config, db: Database, d: Diagnostic)
    requires d in Findings(n, scope, cfg, db)
    ensures exists s :: (Use(d.feature, d.span), s) in Occurrences(n, scope) && Offends(Use(d.feature, d.span), s, cfg, db)
    decreases n
  {
    var u := Use(d.feature, d.span);
    match n
    case Declaration(p, v) =>
      ReportAllExact(DeclarationUses(p, v), scope, cfg, db);
      assert (u, scope) in Occurrences(n, scope);
    case Rule(sel, block) =>
      if d in ReportAll(SelectorUses(sel), scope, cfg, db) {
        ReportAllExact(SelectorUses(sel), scope, cfg, db);
        assert (u, scope) in Occurrences(n, scope);
      } else {
        FindingsListSound(block, scope, cfg, db, d);
      }
    case Atrule(name, prelude, block) =>
      var inner := if IsSupports(name.text) then Granted(prelude) + scope else scope;
      if d in ReportAll(AtRuleUses(name, prelude), scope, cfg, db) {
        ReportAllExact(AtRuleUses(name, prelude), scope, cfg, db);
        assert (u, scope) in Occurrences(n, scope);
      } else {
        FindingsListSound(block, inner, cfg, db, d);
      }
  }

  lemma {:induction false} FindingsListSound(ns: seq<Node>, scope: set<Feature>, cfg: Config, db: Database, d: Diagnostic)
    requires d in FindingsList(ns, scope, cfg, db)
    ensures exists s :: (Use(d.feature, d.span), s) in OccurrencesList(ns, scope) && Offends(Use(d.feature, d.span), s, cfg, db)
    decreases ns
  {
    if d in Findings(ns[0], scope, cfg, db) {
      FindingsSound(ns[0], scope, cfg, db, d);
    } else {
      FindingsListSound(ns[1..], scope, cfg, db, d);
    }
  }

  /** The reports for a stylesheet are exactly the uses that offend under the
      scope in force where they occur, each with the configured availability. */
  lemma ReportedExactly(sheet: seq<Node>, cfg: Config, db: Database, d: Diagnostic)
    ensures d in FindingsList(sheet, {}, cfg, db) <==>
      d.availability == cfg.available &&
      exists s :: (Use(d.feature, d.span), s) in OccurrencesList(sheet, {}) && Offends(Use(d.feature, d.span), s, cfg, db)
  {
    var u := Use(d.feature, d.span);
    if d in FindingsList(sheet, {}, cfg, db) {
      FindingsListSound(sheet, {}, cfg, db, d);
    }
    if d.availability == cfg.available && exists s :: (u, s) in OccurrencesList(sheet, {}) && Offends(u, s, cfg, db) {
      var s :| (u, s) in OccurrencesList(sheet, {}) && Offends(u, s, cfg, db);
      FindingsListComplete(sheet, {}, cfg, db, u, s);
    }
  }

  /** The nodes of a list contribute their occurrences to it. */
  lemma {:induction false} OccurrencesListHas(ns: seq<Node>, k: nat, scope: set<Feature>)
    requires k < |ns|
    ensures Occurrences(ns[k], scope) <= OccurrencesList(ns, scope)
    decreases k
  {
    if k > 0 {
      OccurrencesListHas(ns[1..], k - 1, scope);
    }
  }

  /** A declaration in the block of a top-level rule, whose property is below
      the threshold, not allow-listed and known, is reported at its name. */
  lemma TopLevelPropertyReported(sheet: seq<Node>, k: nat, j: nat, cfg: Config, db: Database)
    requires k < |sheet| && sheet[k].Rule?
    requires j < |sheet[k].block| && sheet[k].block[j].Declaration?
    requires !IsCustomProperty(sheet[k].block[j].property.text) && !IsVendorPrefixed(sheet[k].block[j].property.text)
    requires Offends(Use(Property(sheet[k].block[j].property.text), sheet[k].block[j].property.span), {}, cfg, db)
    ensures Diagnostic(Property(sheet[k].block[j].property.text), cfg.available, sheet[k].block[j].property.span)
      in FindingsList(sheet, {}, cfg, db)
  {
    var block := sheet[k].block;
    var p := block[j].property;
    var u := Use(Property(p.text), p.span);
    assert (u, {}) in Occurrences(block[j], {});
    OccurrencesListHas(block, j, {});
    assert (u, {}) in Occurrences(sheet[k], {});
    OccurrencesListHas(sheet, k, {});
    FindingsListComplete(sheet, {}, cfg, db, u, {});
  }

  /** Features the data does not know are never reported, under any options. */
  lemma UnknownNeverReported(sheet: seq<Node>, cfg: Config, db: Database, f: Feature)
    requires Key(f) !in db
    ensures forall d :: d in FindingsList(sheet, {}, cfg, db) ==> Key(d.feature) != Key(f)
  {
  }

  /** Under a named level, `widely` features are never reported. */
  lemma WidelyNeverReported(sheet: seq<Node>, cfg: Config, db: Database)
    requires !cfg.available.BaselineYear?
    ensures forall d :: d in FindingsList(sheet, {}, cfg, db) ==>
      Key(d.feature) in db && db[Key(d.feature)].status != Widely
  {
  }

  /** Every report carries the configured threshold — for a year threshold
      the configured year, not the feature's own. */
  lemma ReportsCarryConfiguredThreshold(sheet: seq<Node>, cfg: Config, db: Database)
    ensures forall d :: d in FindingsList(sheet, {}, cfg, db) ==> d.availability == cfg.available
  {
  }

  /** Allow-listed names are never reported, whatever the threshold or scope. */
  lemma AllowListedNeverReported(sheet: seq<Node>, cfg: Config, db: Database)
    ensures forall d :: d in FindingsList(sheet, {}, cfg, db) ==>
      (d.feature.Property? ==> d.feature.name !in cfg.allowProperties) &&
      (d.feature.AtRule? ==> LowerStr(d.feature.name) !in cfg.allowAtRules) &&
      (d.feature.Selector? ==> LowerStr(d.feature.name) !in cfg.allowSelectors)
  {
  }

  /** Siblings are checked independently: a block's scope does not reach
      the nodes after it. */
  lemma {:induction false} FindingsListAppend(a: seq<Node>, b: seq<Node>, scope: set<Feature>, cfg: Config, db: Database)
    ensures FindingsList(a + b, scope, cfg, db) == FindingsList(a, scope, cfg, db) + FindingsList(b, scope, cfg, db)
    decreases a
  {
    if a == [] {
      assert a + b == b;
    } else {
      assert (a + b)[1..] == a[1..] + b;
      FindingsListAppend(a[1..], b, scope, cfg, db);
    }
  }

  lemma FindingsListOne(n: Node, scope: set<Feature>, cfg: Config, db: Database)
    ensures FindingsList([n], scope, cfg, db) == Findings(n, scope, cfg, db)
  {
    assert [n][1..] == [];
  }

  /** The reports for a node amid siblings, split into the three parts. */
  lemma FindingsListAround(before: seq<Node>, n: Node, after: seq<Node>, scope: set<Feature>, cfg: Config, db: Database)
    ensures FindingsList(before + [n] + after, scope, cfg, db) ==
      FindingsList(before, scope, cfg, db) + Findings(n, scope, cfg, db) + FindingsList(after, scope, cfg, db)
  {
    FindingsListAppend(before + [n], after, scope, cfg, db);
    FindingsListAppend(before, [n], scope, cfg, db);
    FindingsListOne(n, scope, cfg, db);
  }

  /** Scopes accumulate and end with their block: inside a nested `@supports`
      both conditions' keys are in scope; the nodes after it, still inside
      the outer block, see only the outer condition's keys. */
  lemma NestedSupportsScopes(outer: Token, p1: Prelude, before: seq<Node>, inner: Token, p2: Prelude,
                             body: seq<Node>, after: seq<Node>, scope: set<Feature>, cfg: Config, db: Database)
    requires IsSupports(outer.text) && IsSupports(inner.text)
    ensures
      var s1 := Granted(p1) + scope;
      var s2 := Granted(p2) + s1;
      Findings(Atrule(outer, p1, before + [Atrule(inner, p2, body)] + after), scope, cfg, db) ==
        ReportAll(AtRuleUses(outer, p1), scope, cfg, db) +
        (FindingsList(before, s1, cfg, db) +
         (ReportAll(AtRuleUses(inner, p2), s1, cfg, db) + FindingsList(body, s2, cfg, db)) +
         FindingsList(after, s1, cfg, db))
  {
    var s1 := Granted(p1) + scope;
    var s2 := Granted(p2) + s1;
    var n := Atrule(inner, p2, body);
    FindingsListAround(before, n, after, s1, cfg, db);
    assert Findings(n, s1, cfg, db) == ReportAll(AtRuleUses(inner, p2), s1, cfg, db) + FindingsList(body, s2, cfg, db);
  }

  /** `@supports not (…)` and `@supports (…) or (…)` check their block
      exactly as if it stood outside them. */
  lemma NegatedSupportsGrantsNothing(name: Token, c: Condition, block: seq<Node>,
                                     scope: set<Feature>, cfg: Config, db: Database)
    requires c.Not? || c.Or?
    ensures Findings(Atrule(name, SupportsPrelude(c), block), scope, cfg, db) ==
      ReportAll(AtRuleUses(name, SupportsPrelude(c)), scope, cfg, db) + FindingsList(block, scope, cfg, db)
  {
    assert Granted(SupportsPrelude(c)) + scope == scope;
  }

  /** Custom properties and vendor-prefixed properties are never reported,
      neither the property nor anything in its value. */
  lemma CustomAndPrefixedUnreported(p: Token, v: seq<ValueNode>, scope: set<Feature>, cfg: Config, db: Database)
    requires IsCustomProperty(p.text) || IsVendorPrefixed(p.text)
    ensures Findings(Declaration(p, v), scope, cfg, db) == []
  {
  }

  /** A reported property points at the property-name token: for a one-line
      token the report ends `|name|` columns after it starts. */
  lemma PropertyReportSpan(p: Token, v: seq<ValueNode>, scope: set<Feature>, cfg: Config, db: Database)
    requires Covers(p.span, |p.text|)
    requires !IsCustomProperty(p.text) && !IsVendorPrefixed(p.text)
    requires Justified(Diagnostic(Property(p.text), cfg.available, p.span), scope, cfg, db)
    ensures |Findings(Declaration(p, v), scope, cfg, db)| >= 1
    ensures var d := Findings(Declaration(p, v), scope, cfg, db)[0];
      d == Diagnostic(Property(p.text), cfg.available, p.span) &&
      d.span.line == d.span.endLine && d.span.endColumn == d.span.column + |p.text|
  {
    var us := DeclarationUses(p, v);
    assert ReportAll(us, scope, cfg, db) == Report(us[0], scope, cfg, db) + ReportAll(us[1..], scope, cfg, db);
  }

  /** The options with every allow-list emptied. */
  function WithoutAllowLists(cfg: Config): Config {
    cfg.(allowProperties := {}, allowAtRules := {}, allowSelectors := {})
  }

  /** The reports whose feature no allow-list of `cfg` names, in order. */
  function Unlisted(ds: seq<Diagnostic>, cfg: Config): (r: seq<Diagnostic>)
    ensures |r| <= |ds|
    ensures forall d :: d in r <==> d in ds && !Allowed(cfg, d.feature)
  {
    if ds == [] then []
    else (if Allowed(cfg, ds[0].feature) then [] else [ds[0]]) + Unlisted(ds[1..], cfg)
  }

  lemma {:induction false} UnlistedAppend(a: seq<Diagnostic>, b: seq<Diagnostic>, cfg: Config)
    ensures Unlisted(a + b, cfg) == Unlisted(a, cfg) + Unlisted(b, cfg)
  {
    if a == [] {
      assert a + b == b;
    } else {
      assert (a + b)[0] == a[0];
      assert (a + b)[1..] == a[1..] + b;
      UnlistedAppend(a[1..], b, cfg);
    }
  }

  lemma {:induction false} ReportAllAllowLists(us: seq<Use>, scope: set<Feature>, cfg: Config, db: Database)
    ensures ReportAll(us, scope, cfg, db) == Unlisted(ReportAll(us, scope, WithoutAllowLists(cfg), db), cfg)
  {
    if us != [] {
      var plain := WithoutAllowLists(cfg);
      var head := Report(us[0], scope, plain, db);
      var rest := ReportAll(us[1..], scope, plain, db);
      UnlistedAppend(head, rest, cfg);
      assert head != [] ==> head[1..] == [];
      ReportAllAllowLists(us[1..], scope, cfg, db);
    }
  }

  /** Allow-lists remove exactly the reports of the listed names: the
      reports under `cfg` are those without allow-lists, minus the listed. */
  lemma {:induction false} FindingsAllowLists(n: Node, scope: set<Feature>, cfg: Config, db: Database)
    ensures Findings(n, scope, cfg, db) == Unlisted(Findings(n, scope, WithoutAllowLists(cfg), db), cfg)
    decreases n
  {
    var plain := WithoutAllowLists(cfg);
    match n
    case Declaration(p, v) =>
      ReportAllAllowLists(DeclarationUses(p, v), scope, cfg, db);
    case Rule(sel, block) =>
      ReportAllAllowLists(SelectorUses(sel), scope, cfg, db);
      FindingsListAllowLists(block, scope, cfg, db);
      UnlistedAppend(ReportAll(SelectorUses(sel), scope, plain, db), FindingsList(block, scope, plain, db), cfg);
    case Atrule(name, prelude, block) =>
      var inner := if IsSupports(name.text) then Granted(prelude) + scope else scope;
      ReportAllAllowLists(AtRuleUses(name, prelude), scope, cfg, db);
      FindingsListAllowLists(block, inner, cfg, db);
      UnlistedAppend(ReportAll(AtRuleUses(name, prelude), scope, plain, db), FindingsList(block, inner, plain, db), cfg);
  }

  lemma {:induction false} FindingsListAllowLists(ns: seq<Node>, scope: set<Feature>, cfg: Config, db: Database)
    ensures FindingsList(ns, scope, cfg, db) == Unlisted(FindingsList(ns, scope, WithoutAllowLists(cfg), db), cfg)
    decreases ns
  {
    if ns != [] {
      var plain := WithoutAllowLists(cfg);
      FindingsAllowLists(ns[0], scope, cfg, db);
      FindingsListAllowLists(ns[1..], scope, cfg, db);
      UnlistedAppend(Findings(ns[0], scope, plain, db), FindingsList(ns[1..], scope, plain, db), cfg);
    }
  }
}
