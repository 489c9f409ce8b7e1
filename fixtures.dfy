/** The rule's fixture cases. Each is stated for every stylesheet of the
    fixture's shape and every compatibility database that agrees with the
    facts the fixture relies on (the `requires`). The lemmas about a whole
    fixture give its reports; the others give the reports of a fragment of
    one, or what a condition asserts, or how a spelling folds. */
module Fixtures {
  import opened Text
  import opened Syntax
  import opened Features
  import opened Baseline
  import opened Supports
  import opened Dispatch

  /** `f` is known to the data and falls short of `t`. */
  predicate Fails(db: Database, f: Feature, t: Threshold) {
    f in db && !Meets(db[f], t)
  }

  /** `f` is unknown to the data or meets `t`. */
  predicate Passes(db: Database, f: Feature, t: Threshold) {
    f !in db || Meets(db[f], t)
  }

  /** A property that is neither custom nor vendor-prefixed. */
  predicate Plain(p: Token) {
    !IsCustomProperty(p.text) && !IsVendorPrefixed(p.text)
  }

  /** `property: keyword` */
  function KeywordDecl(p: Token, k: Token): Node {
    Declaration(p, [Identifier(k)])
  }

  /** A rule whose selector uses no feature, such as `a` or `.box`. */
  function PlainRule(block: seq<Node>): Node {
    Rule([OtherSelector], block)
  }

  /** `@supports (property: keyword) { block }`, the at-rule name in whatever letter case `s` has. */
  function SupportsTest(s: Token, p: Token, k: Token, block: seq<Node>): Node {
    Atrule(s, SupportsPrelude(FeatureTest(p, [Identifier(k)])), block)
  }

  /** The options `{ available: t }` with no allow-lists. */
  function Options(t: Threshold): Config {
    Config(t, {}, {}, {})
  }

  /** A use that is allowed, in scope, or available enough is not reported. */
  lemma Quiet(u: Use, scope: set<Feature>, cfg: Config, db: Database)
    requires Allowed(cfg, u.feature) || Key(u.feature) in scope || Passes(db, Key(u.feature), cfg.available)
    ensures Report(u, scope, cfg, db) == []
  {
  }

  /** A use that is not allowed, not in scope and below the threshold is
      reported once, at its own span. */
  lemma Reported(u: Use, scope: set<Feature>, cfg: Config, db: Database)
    requires !Allowed(cfg, u.feature) && Key(u.feature) !in scope && Fails(db, Key(u.feature), cfg.available)
    ensures Report(u, scope, cfg, db) == [Diagnostic(u.feature, cfg.available, u.span)]
  {
  }

  lemma ReportAllOne(u: Use, scope: set<Feature>, cfg: Config, db: Database)
    ensures ReportAll([u], scope, cfg, db) == Report(u, scope, cfg, db)
  {
    assert [u][1..] == [];
  }

  lemma FindingsListTwo(a: Node, b: Node, scope: set<Feature>, cfg: Config, db: Database)
    ensures FindingsList([a, b], scope, cfg, db) == Findings(a, scope, cfg, db) + Findings(b, scope, cfg, db)
  {
    assert [a, b][1..] == [b];
    FindingsListOne(b, scope, cfg, db);
  }

  lemma PlainRuleFindings(block: seq<Node>, scope: set<Feature>, cfg: Config, db: Database)
    ensures Findings(PlainRule(block), scope, cfg, db) == FindingsList(block, scope, cfg, db)
  {
    assert SelectorUses([OtherSelector]) == [];
  }

  /** A declaration `property: keyword` uses the property, then the keyword as its value. */
  lemma KeywordDeclFindings(p: Token, k: Token, scope: set<Feature>, cfg: Config, db: Database)
    requires Plain(p)
    ensures Findings(KeywordDecl(p, k), scope, cfg, db) ==
      Report(Use(Property(p.text), p.span), scope, cfg, db) +
      Report(Use(PropertyValue(p.text, k.text), k.span), scope, cfg, db)
  {
    var vu := Use(PropertyValue(p.text, k.text), k.span);
    assert ValueUses(p.text, [Identifier(k)]) == [vu] by {
      assert [Identifier(k)][1..] == [];
    }
    var us := DeclarationUses(p, [Identifier(k)]);
    assert us[1..] == [vu];
    ReportAllOne(vu, scope, cfg, db);
  }

  /** `property: fn(…)` uses the property, then the function. */
  lemma CallDeclFindings(p: Token, f: Token, fs: Span, scope: set<Feature>, cfg: Config, db: Database)
    requires Plain(p)
    ensures Findings(Declaration(p, [FunctionCall(f, fs, [OtherValue])]), scope, cfg, db) ==
      Report(Use(Property(p.text), p.span), scope, cfg, db) +
      Report(Use(Function(f.text), fs), scope, cfg, db)
  {
    var fu := Use(Function(f.text), fs);
    assert FunctionUses([OtherValue]) == [] by {
      assert [OtherValue][1..] == [];
    }
    assert ValueUses(p.text, [FunctionCall(f, fs, [OtherValue])]) == [fu] by {
      assert [FunctionCall(f, fs, [OtherValue])][1..] == [];
    }
    var us := DeclarationUses(p, [FunctionCall(f, fs, [OtherValue])]);
    assert us[1..] == [fu];
    ReportAllOne(fu, scope, cfg, db);
  }

  /** A declaration whose property and keyword are both allowed, in scope or
      available enough reports nothing. */
  lemma QuietDecl(p: Token, k: Token, scope: set<Feature>, cfg: Config, db: Database)
    requires Plain(p)
    requires Key(Property(p.text)) in scope || Passes(db, Key(Property(p.text)), cfg.available)
    requires Key(PropertyValue(p.text, k.text)) in scope || Passes(db, Key(PropertyValue(p.text, k.text)), cfg.available)
    ensures Findings(KeywordDecl(p, k), scope, cfg, db) == []
  {
    KeywordDeclFindings(p, k, scope, cfg, db);
  }

  /** A declaration whose property is not allowed, not in scope and below
      the threshold, and whose keyword is quiet, reports just the property. */
  lemma ReportedDecl(p: Token, k: Token, scope: set<Feature>, cfg: Config, db: Database)
    requires Plain(p) && p.text !in cfg.allowProperties
    requires Key(Property(p.text)) !in scope && Fails(db, Key(Property(p.text)), cfg.available)
    requires Key(PropertyValue(p.text, k.text)) in scope || Passes(db, Key(PropertyValue(p.text, k.text)), cfg.available)
    ensures Findings(KeywordDecl(p, k), scope, cfg, db) == [Diagnostic(Property(p.text), cfg.available, p.span)]
  {
    KeywordDeclFindings(p, k, scope, cfg, db);
  }

  /** `@supports … { block }` whose name passes the threshold reports what its
      block reports under the condition's keys. */
  lemma QuietSupports(s: Token, c: Condition, block: seq<Node>, scope: set<Feature>, cfg: Config, db: Database)
    requires IsSupports(s.text)
    requires Passes(db, Key(AtRule(s.text)), cfg.available)
    ensures FindingsList([Atrule(s, SupportsPrelude(c), block)], scope, cfg, db) ==
      FindingsList(block, Granted(SupportsPrelude(c)) + scope, cfg, db)
  {
    FindingsListOne(Atrule(s, SupportsPrelude(c), block), scope, cfg, db);
    QuietSupportsName(s, c, scope, cfg, db);
  }

  /** The name of an `@supports` at-rule is its only use outside the block. */
  lemma QuietSupportsName(s: Token, c: Condition, scope: set<Feature>, cfg: Config, db: Database)
    requires Passes(db, Key(AtRule(s.text)), cfg.available)
    ensures ReportAll(AtRuleUses(s, SupportsPrelude(c)), scope, cfg, db) == []
  {
    assert AtRuleUses(s, SupportsPrelude(c)) == [Use(AtRule(s.text), s.span)];
    ReportAllOne(Use(AtRule(s.text), s.span), scope, cfg, db);
    Quiet(Use(AtRule(s.text), s.span), scope, cfg, db);
  }

  /** `a { d }` for one declaration. */
  lemma PlainRuleOne(d: Node, scope: set<Feature>, cfg: Config, db: Database)
    ensures FindingsList([PlainRule([d])], scope, cfg, db) == Findings(d, scope, cfg, db)
  {
    FindingsListOne(PlainRule([d]), scope, cfg, db);
    PlainRuleFindings([d], scope, cfg, db);
    FindingsListOne(d, scope, cfg, db);
  }

  /** The keys `(p: k)` asserts: the property and that one keyword of it. */
  lemma SupportsTestKeys(p: Token, k: Token)
    requires Plain(p)
    ensures TestKeys(p, [Identifier(k)]) == {Key(Property(p.text)), Key(PropertyValue(p.text, k.text))}
  {
    var us := DeclarationUses(p, [Identifier(k)]);
    assert ValueUses(p.text, [Identifier(k)]) == [Use(PropertyValue(p.text, k.text), k.span)] by {
      assert [Identifier(k)][1..] == [];
    }
    assert us == [Use(Property(p.text), p.span), Use(PropertyValue(p.text, k.text), k.span)];
    assert us[0] in us && us[1] in us;
  }

  /** `a { accent-color: bar; backdrop-filter: auto }` with no options:
      each property below `widely` is reported, in source order, at its name,
      with availability `widely`. */
  lemma DefaultThresholdReportsEachProperty(p1: Token, k1: Token, p2: Token, k2: Token, db: Database)
    requires Plain(p1) && Plain(p2)
    requires Fails(db, Key(Property(p1.text)), WidelyAvailable)
    requires Fails(db, Key(Property(p2.text)), WidelyAvailable)
    requires Passes(db, Key(PropertyValue(p1.text, k1.text)), WidelyAvailable)
    requires Passes(db, Key(PropertyValue(p2.text, k2.text)), WidelyAvailable)
    ensures FindingsList([PlainRule([KeywordDecl(p1, k1), KeywordDecl(p2, k2)])], {}, DefaultConfig, db) ==
      [Diagnostic(Property(p1.text), WidelyAvailable, p1.span),
       Diagnostic(Property(p2.text), WidelyAvailable, p2.span)]
  {
    var cfg := DefaultConfig;
    FindingsListOne(PlainRule([KeywordDecl(p1, k1), KeywordDecl(p2, k2)]), {}, cfg, db);
    PlainRuleFindings([KeywordDecl(p1, k1), KeywordDecl(p2, k2)], {}, cfg, db);
    FindingsListTwo(KeywordDecl(p1, k1), KeywordDecl(p2, k2), {}, cfg, db);
    KeywordDeclFindings(p1, k1, {}, cfg, db);
    KeywordDeclFindings(p2, k2, {}, cfg, db);
  }

  /** The same rule with `available: "newly"`: a newly available property
      passes, one that is not Baseline is reported with availability `newly`. */
  lemma NewlyThresholdAcceptsNewly(p1: Token, k1: Token, p2: Token, k2: Token, db: Database)
    requires Plain(p1) && Plain(p2)
    requires Fails(db, Key(Property(p1.text)), NewlyAvailable)
    requires Key(Property(p2.text)) in db && db[Key(Property(p2.text))].status == Newly
    requires Passes(db, Key(PropertyValue(p1.text, k1.text)), NewlyAvailable)
    requires Passes(db, Key(PropertyValue(p2.text, k2.text)), NewlyAvailable)
    ensures FindingsList([PlainRule([KeywordDecl(p1, k1), KeywordDecl(p2, k2)])], {}, Options(NewlyAvailable), db) ==
      [Diagnostic(Property(p1.text), NewlyAvailable, p1.span)]
  {
    var cfg := Options(NewlyAvailable);
    FindingsListOne(PlainRule([KeywordDecl(p1, k1), KeywordDecl(p2, k2)]), {}, cfg, db);
    PlainRuleFindings([KeywordDecl(p1, k1), KeywordDecl(p2, k2)], {}, cfg, db);
    FindingsListTwo(KeywordDecl(p1, k1), KeywordDecl(p2, k2), {}, cfg, db);
    KeywordDeclFindings(p1, k1, {}, cfg, db);
    KeywordDeclFindings(p2, k2, {}, cfg, db);
  }

  /** `.box { backdrop-filter: blur(10px); }` with `available: Y`: the
      property passes exactly when it became Baseline in Y or earlier, and
      otherwise the report carries Y, not the feature's own year. */
  lemma YearThresholdComparesBaselineYear(p: Token, f: Token, fs: Span, y: int, db: Database)
    requires Plain(p)
    requires Key(Property(p.text)) in db
    requires Passes(db, Key(Function(f.text)), BaselineYear(y))
    ensures
      var r := db[Key(Property(p.text))];
      FindingsList([PlainRule([Declaration(p, [FunctionCall(f, fs, [OtherValue])])])], {}, Options(BaselineYear(y)), db) ==
        if r.since.Some? && r.since.value <= y then []
        else [Diagnostic(Property(p.text), BaselineYear(y), p.span)]
  {
    var cfg := Options(BaselineYear(y));
    var d := Declaration(p, [FunctionCall(f, fs, [OtherValue])]);
    FindingsListOne(PlainRule([d]), {}, cfg, db);
    PlainRuleFindings([d], {}, cfg, db);
    FindingsListOne(d, {}, cfg, db);
    CallDeclFindings(p, f, fs, {}, cfg, db);
  }

  /** `.p { property: keyword; }` with year Y, the keyword passing Y: the
      property is reported with Y exactly when it became Baseline after Y or
      never did. */
  lemma YearThresholdKeywordDecl(p: Token, k: Token, y: int, db: Database)
    requires Plain(p)
    requires Key(Property(p.text)) in db
    requires Passes(db, Key(PropertyValue(p.text, k.text)), BaselineYear(y))
    ensures
      var r := db[Key(Property(p.text))];
      FindingsList([PlainRule([KeywordDecl(p, k)])], {}, Options(BaselineYear(y)), db) ==
        if r.since.Some? && r.since.value <= y then []
        else [Diagnostic(Property(p.text), BaselineYear(y), p.span)]
  {
    var cfg := Options(BaselineYear(y));
    var d := KeywordDecl(p, k);
    FindingsListOne(PlainRule([d]), {}, cfg, db);
    PlainRuleFindings([d], {}, cfg, db);
    FindingsListOne(d, {}, cfg, db);
    KeywordDeclFindings(p, k, {}, cfg, db);
  }

  /** Inside `@supports (a: va) { @supports (b: vb) { … } }` a use of `a` is covered. */
  lemma InsideBothBlocks(a: Token, va: Token, b: Token, vb: Token, a2: Token, wa: Token, db: Database)
    requires Plain(a) && a2.text == a.text
    requires Passes(db, Key(PropertyValue(a.text, wa.text)), WidelyAvailable)
    ensures
      var g1 := Granted(SupportsPrelude(FeatureTest(a, [Identifier(va)]))) + {};
      FindingsList([PlainRule([KeywordDecl(a2, wa)])], Granted(SupportsPrelude(FeatureTest(b, [Identifier(vb)]))) + g1,
                   DefaultConfig, db) == []
  {
    var g1 := Granted(SupportsPrelude(FeatureTest(a, [Identifier(va)]))) + {};
    var g2 := Granted(SupportsPrelude(FeatureTest(b, [Identifier(vb)]))) + g1;
    SupportsTestKeys(a, va);
    assert Key(Property(a.text)) in g2;
    PlainRuleOne(KeywordDecl(a2, wa), g2, DefaultConfig, db);
    QuietDecl(a2, wa, g2, DefaultConfig, db);
  }

  /** After the inner block closes only the outer condition `(a: va)` is in scope. */
  lemma AfterInnerBlock(a: Token, va: Token, b2: Token, wb: Token, db: Database)
    requires Plain(a) && Plain(b2)
    requires Key(Property(a.text)) != Key(Property(b2.text))
    requires Fails(db, Key(Property(b2.text)), WidelyAvailable)
    requires Passes(db, Key(PropertyValue(b2.text, wb.text)), WidelyAvailable)
    ensures FindingsList([PlainRule([KeywordDecl(b2, wb)])], Granted(SupportsPrelude(FeatureTest(a, [Identifier(va)]))) + {},
                         DefaultConfig, db) == [Diagnostic(Property(b2.text), WidelyAvailable, b2.span)]
  {
    var g1 := Granted(SupportsPrelude(FeatureTest(a, [Identifier(va)]))) + {};
    SupportsTestKeys(a, va);
    assert Key(Property(b2.text)) !in g1;
    PlainRuleOne(KeywordDecl(b2, wb), g1, DefaultConfig, db);
    ReportedDecl(b2, wb, g1, DefaultConfig, db);
  }

  /** `@supports (accent-color: auto) { @supports (backdrop-filter: auto)
      { a { accent-color: red; } } a { backdrop-filter: auto; } }`: inside
      both blocks both properties are allowed; after the inner block closes
      only the outer one is, so the later `backdrop-filter` is reported. */
  lemma NestedScopesAccumulateAndPop(s1: Token, a: Token, va: Token, s2: Token, b: Token, vb: Token,
                                     a2: Token, wa: Token, b2: Token, wb: Token, db: Database)
    requires IsSupports(s1.text) && IsSupports(s2.text)
    requires Plain(a) && Plain(b) && a2.text == a.text && b2.text == b.text
    requires Key(Property(a.text)) != Key(Property(b.text))
    requires Passes(db, Key(AtRule(s1.text)), WidelyAvailable) && Passes(db, Key(AtRule(s2.text)), WidelyAvailable)
    requires Fails(db, Key(Property(b.text)), WidelyAvailable)
    requires Passes(db, Key(PropertyValue(a.text, wa.text)), WidelyAvailable)
    requires Passes(db, Key(PropertyValue(b.text, wb.text)), WidelyAvailable)
    ensures FindingsList([SupportsTest(s1, a, va, [
                            SupportsTest(s2, b, vb, [PlainRule([KeywordDecl(a2, wa)])]),
                            PlainRule([KeywordDecl(b2, wb)])])], {}, DefaultConfig, db) ==
      [Diagnostic(Property(b.text), WidelyAvailable, b2.span)]
  {
    var cfg := DefaultConfig;
    var innerBody := [PlainRule([KeywordDecl(a2, wa)])];
    var after := [PlainRule([KeywordDecl(b2, wb)])];
    var p1 := SupportsPrelude(FeatureTest(a, [Identifier(va)]));
    var p2 := SupportsPrelude(FeatureTest(b, [Identifier(vb)]));
    var g1 := Granted(p1) + {};
    var g2 := Granted(p2) + g1;
    var blk := [Atrule(s2, p2, innerBody), after[0]];
    assert blk == [] + [Atrule(s2, p2, innerBody)] + after;
    var outer := Atrule(s1, p1, blk);
    var r1, r2 := ReportAll(AtRuleUses(s1, p1), {}, cfg, db), ReportAll(AtRuleUses(s2, p2), g1, cfg, db);
    var fb, fi, fa := FindingsList([], g1, cfg, db), FindingsList(innerBody, g2, cfg, db), FindingsList(after, g1, cfg, db);
    assert Findings(outer, {}, cfg, db) == r1 + (fb + (r2 + fi) + fa) by {
      NestedSupportsScopes(s1, p1, [], s2, p2, innerBody, after, {}, cfg, db);
    }
    assert r1 == [] by {
      QuietSupportsName(s1, p1.condition, {}, cfg, db);
    }
    assert r2 == [] by {
      QuietSupportsName(s2, p2.condition, g1, cfg, db);
    }
    assert fi == [] by {
      InsideBothBlocks(a, va, b, vb, a2, wa, db);
    }
    assert fa == [Diagnostic(Property(b.text), WidelyAvailable, b2.span)] by {
      AfterInnerBlock(a, va, b2, wb, db);
    }
    FindingsListOne(outer, {}, cfg, db);
  }

  /** `@supports not (accent-color: auto) { a { accent-color: auto } }`:
      negation grants nothing, so the property is reported. */
  lemma NotGrantsNothing(s: Token, a: Token, v: Token, a2: Token, v2: Token, db: Database)
    requires IsSupports(s.text) && Plain(a2) && a2.text == a.text
    requires Passes(db, Key(AtRule(s.text)), WidelyAvailable)
    requires Fails(db, Key(Property(a.text)), WidelyAvailable)
    requires Passes(db, Key(PropertyValue(a.text, v2.text)), WidelyAvailable)
    ensures FindingsList([Atrule(s, SupportsPrelude(Not(FeatureTest(a, [Identifier(v)]))),
                                 [PlainRule([KeywordDecl(a2, v2)])])], {}, DefaultConfig, db) ==
      [Diagnostic(Property(a2.text), WidelyAvailable, a2.span)]
  {
    var cfg := DefaultConfig;
    var c := Not(FeatureTest(a, [Identifier(v)]));
    FindingsListOne(Atrule(s, SupportsPrelude(c), [PlainRule([KeywordDecl(a2, v2)])]), {}, cfg, db);
    NegatedSupportsGrantsNothing(s, c, [PlainRule([KeywordDecl(a2, v2)])], {}, cfg, db);
    ReportAllOne(Use(AtRule(s.text), s.span), {}, cfg, db);
    FindingsListOne(PlainRule([KeywordDecl(a2, v2)]), {}, cfg, db);
    PlainRuleFindings([KeywordDecl(a2, v2)], {}, cfg, db);
    FindingsListOne(KeywordDecl(a2, v2), {}, cfg, db);
    KeywordDeclFindings(a2, v2, {}, cfg, db);
  }

  /** `@supports (accent-color: auto) and (backdrop-filter: auto)
      { a { accent-color: auto; backdrop-filter: auto } }`: a conjunction
      grants both sides, so nothing in the block is reported, whatever the
      data says about either property. */
  lemma AndGrantsBoth(s: Token, a: Token, va: Token, b: Token, vb: Token,
                      a2: Token, wa: Token, b2: Token, wb: Token, db: Database)
    requires IsSupports(s.text) && Plain(a) && Plain(b)
    requires a2.text == a.text && wa.text == va.text && b2.text == b.text && wb.text == vb.text
    requires Passes(db, Key(AtRule(s.text)), WidelyAvailable)
    ensures FindingsList([Atrule(s, SupportsPrelude(And(FeatureTest(a, [Identifier(va)]), FeatureTest(b, [Identifier(vb)]))),
                                 [PlainRule([KeywordDecl(a2, wa), KeywordDecl(b2, wb)])])], {}, DefaultConfig, db) == []
  {
    var cfg := DefaultConfig;
    var c := And(FeatureTest(a, [Identifier(va)]), FeatureTest(b, [Identifier(vb)]));
    var g := Granted(SupportsPrelude(c)) + {};
    SupportsTestKeys(a, va);
    SupportsTestKeys(b, vb);
    assert Asserted(c) == TestKeys(a, [Identifier(va)]) + TestKeys(b, [Identifier(vb)]);
    assert g == Asserted(c);
    QuietSupports(s, c, [PlainRule([KeywordDecl(a2, wa), KeywordDecl(b2, wb)])], {}, cfg, db);
    FindingsListOne(PlainRule([KeywordDecl(a2, wa), KeywordDecl(b2, wb)]), g, cfg, db);
    PlainRuleFindings([KeywordDecl(a2, wa), KeywordDecl(b2, wb)], g, cfg, db);
    FindingsListTwo(KeywordDecl(a2, wa), KeywordDecl(b2, wb), g, cfg, db);
    QuietDecl(a2, wa, g, cfg, db);
    QuietDecl(b2, wb, g, cfg, db);
  }

  /** `h1:has(+ h2) { color: red; }` — a selector with a pseudo-class. */
  function HasRule(h: Token, c: Token, r: Token): Node {
    Rule([OtherSelector, PseudoClass(h), OtherSelector], [KeywordDecl(c, r)])
  }

  lemma HasRuleFindings(h: Token, c: Token, r: Token, scope: set<Feature>, cfg: Config, db: Database)
    requires Plain(c)
    ensures Findings(HasRule(h, c, r), scope, cfg, db) ==
      Report(Use(Selector(h.text), h.span), scope, cfg, db) +
      Report(Use(Property(c.text), c.span), scope, cfg, db) +
      Report(Use(PropertyValue(c.text, r.text), r.span), scope, cfg, db)
  {
    var sel := [OtherSelector, PseudoClass(h), OtherSelector];
    var hu := Use(Selector(h.text), h.span);
    assert SelectorUses(sel) == [hu] by {
      assert [OtherSelector][1..] == [];
      assert SelectorUses([OtherSelector]) == [];
      assert [PseudoClass(h), OtherSelector][1..] == [OtherSelector];
      assert SelectorUses([PseudoClass(h), OtherSelector]) == [hu] + [];
      assert sel[1..] == [PseudoClass(h), OtherSelector];
    }
    ReportAllOne(hu, scope, cfg, db);
    FindingsListOne(KeywordDecl(c, r), scope, cfg, db);
    KeywordDeclFindings(c, r, scope, cfg, db);
  }

  /** `@supports selector(:has()) { h1:has(+ h2) { color: red; } }`: the
      selector test covers its own block. */
  lemma SelectorTestCoversItsBlock(s: Token, h: Token, h2: Token, c: Token, r: Token, db: Database)
    requires IsSupports(s.text) && Plain(c) && h2.text == h.text
    requires Passes(db, Key(AtRule(s.text)), WidelyAvailable)
    requires Passes(db, Key(Property(c.text)), WidelyAvailable)
    requires Passes(db, Key(PropertyValue(c.text, r.text)), WidelyAvailable)
    ensures FindingsList([Atrule(s, SupportsPrelude(SelectorTest([PseudoClass(h)])), [HasRule(h2, c, r)])],
                         {}, DefaultConfig, db) == []
  {
    var cfg := DefaultConfig;
    var c0 := SelectorTest([PseudoClass(h)]);
    var g := Granted(SupportsPrelude(c0)) + {};
    assert Key(Selector(h.text)) in g by {
      var us := SelectorUses([PseudoClass(h)]);
      assert us == [Use(Selector(h.text), h.span)] by {
        assert [PseudoClass(h)][1..] == [];
      }
      assert us[0] in us;
    }
    QuietSupports(s, c0, [HasRule(h2, c, r)], {}, cfg, db);
    FindingsListOne(HasRule(h2, c, r), g, cfg, db);
    HasRuleFindings(h2, c, r, g, cfg, db);
    Quiet(Use(Selector(h2.text), h2.span), g, cfg, db);
    Quiet(Use(Property(c.text), c.span), g, cfg, db);
    Quiet(Use(PropertyValue(c.text, r.text), r.span), g, cfg, db);
  }

  /** `h1:has(+ h2) { color: red; }` inside `@supports (color: red)`: only `:has` is reported. */
  lemma HasUnderPropertyTest(c: Token, r: Token, h2: Token, c2: Token, r2: Token, db: Database)
    requires Plain(c) && c2.text == c.text && r2.text == r.text
    requires Fails(db, Key(Selector(h2.text)), WidelyAvailable)
    ensures FindingsList([HasRule(h2, c2, r2)], Granted(SupportsPrelude(FeatureTest(c, [Identifier(r)]))) + {},
                         DefaultConfig, db) == [Diagnostic(Selector(h2.text), WidelyAvailable, h2.span)]
  {
    var cfg := DefaultConfig;
    var g := Granted(SupportsPrelude(FeatureTest(c, [Identifier(r)]))) + {};
    assert g == {Key(Property(c.text)), Key(PropertyValue(c.text, r.text))} by {
      SupportsTestKeys(c, r);
    }
    assert Report(Use(Selector(h2.text), h2.span), g, cfg, db) == [Diagnostic(Selector(h2.text), WidelyAvailable, h2.span)] by {
      Reported(Use(Selector(h2.text), h2.span), g, cfg, db);
    }
    assert Report(Use(Property(c2.text), c2.span), g, cfg, db) == [] by {
      Quiet(Use(Property(c2.text), c2.span), g, cfg, db);
    }
    assert Report(Use(PropertyValue(c2.text, r2.text), r2.span), g, cfg, db) == [] by {
      Quiet(Use(PropertyValue(c2.text, r2.text), r2.span), g, cfg, db);
    }
    FindingsListOne(HasRule(h2, c2, r2), g, cfg, db);
    HasRuleFindings(h2, c2, r2, g, cfg, db);
  }

  /** `@supports selector(:has()) {}` followed by `@supports (color: red)
      { h1:has(+ h2) { color: red; } }`: the selector test's scope ends with
      its own (empty) block, so the later `:has` is reported. */
  lemma SelectorScopeEndsWithBlock(s1: Token, h: Token, s2: Token, c: Token, r: Token,
                                   h2: Token, c2: Token, r2: Token, db: Database)
    requires IsSupports(s1.text) && IsSupports(s2.text) && Plain(c)
    requires h2.text == h.text && c2.text == c.text && r2.text == r.text
    requires Passes(db, Key(AtRule(s1.text)), WidelyAvailable) && Passes(db, Key(AtRule(s2.text)), WidelyAvailable)
    requires Fails(db, Key(Selector(h.text)), WidelyAvailable)
    ensures FindingsList([Atrule(s1, SupportsPrelude(SelectorTest([PseudoClass(h)])), []),
                          SupportsTest(s2, c, r, [HasRule(h2, c2, r2)])], {}, DefaultConfig, db) ==
      [Diagnostic(Selector(h2.text), WidelyAvailable, h2.span)]
  {
    var cfg := DefaultConfig;
    var first := Atrule(s1, SupportsPrelude(SelectorTest([PseudoClass(h)])), []);
    var second := SupportsTest(s2, c, r, [HasRule(h2, c2, r2)]);
    FindingsListOne(first, {}, cfg, db);
    QuietSupports(s1, first.prelude.condition, [], {}, cfg, db);
    FindingsListOne(second, {}, cfg, db);
    QuietSupports(s2, second.prelude.condition, second.block, {}, cfg, db);
    HasUnderPropertyTest(c, r, h2, c2, r2, db);
    FindingsListTwo(first, second, {}, cfg, db);
  }

  /** `@supports (clip-path: fill-box) { a { clip-path: V; } }`: a tested
      property covers itself, but a value keyword is covered only when the
      condition tested that same keyword. */
  lemma ValueCoveredOnlyIfTested(s: Token, p: Token, v1: Token, p2: Token, v2: Token, db: Database)
    requires IsSupports(s.text) && Plain(p) && p2.text == p.text
    requires Passes(db, Key(AtRule(s.text)), WidelyAvailable)
    ensures FindingsList([SupportsTest(s, p, v1, [PlainRule([KeywordDecl(p2, v2)])])], {}, DefaultConfig, db) ==
      if Key(PropertyValue(p.text, v2.text)) == Key(PropertyValue(p.text, v1.text)) then []
      else if Fails(db, Key(PropertyValue(p.text, v2.text)), WidelyAvailable)
      then [Diagnostic(PropertyValue(p2.text, v2.text), WidelyAvailable, v2.span)]
      else []
  {
    var cfg := DefaultConfig;
    var c := FeatureTest(p, [Identifier(v1)]);
    var g := Granted(SupportsPrelude(c)) + {};
    assert g == TestKeys(p, [Identifier(v1)]) + {};
    QuietSupports(s, c, [PlainRule([KeywordDecl(p2, v2)])], {}, cfg, db);
    PlainRuleOne(KeywordDecl(p2, v2), g, cfg, db);
    KeywordDeclFindings(p2, v2, g, cfg, db);
    TestedKeywordReports(p, v1, p2, v2, db);
  }

  /** Under the keys `(p: v1)` asserts, the property is covered, and a
      keyword `v2` of it only when it is `v1` in some letter case. */
  lemma TestedKeywordReports(p: Token, v1: Token, p2: Token, v2: Token, db: Database)
    requires Plain(p) && p2.text == p.text
    ensures var g := TestKeys(p, [Identifier(v1)]) + {};
      Report(Use(Property(p2.text), p2.span), g, DefaultConfig, db) +
      Report(Use(PropertyValue(p2.text, v2.text), v2.span), g, DefaultConfig, db) ==
      if Key(PropertyValue(p.text, v2.text)) == Key(PropertyValue(p.text, v1.text)) then []
      else if Fails(db, Key(PropertyValue(p.text, v2.text)), WidelyAvailable)
      then [Diagnostic(PropertyValue(p2.text, v2.text), WidelyAvailable, v2.span)]
      else []
  {
    var g := TestKeys(p, [Identifier(v1)]) + {};
    SupportsTestKeys(p, v1);
    assert Report(Use(Property(p2.text), p2.span), g, DefaultConfig, db) == [];
  }

  /** `a { width: abs(20% - 100px); }` inside `@supports (width: V)`: the
      function is covered exactly when the tested value calls the same
      function; otherwise it is reported at its whole call. */
  lemma FunctionCoveredOnlyIfTested(s: Token, p: Token, cv: seq<ValueNode>, p2: Token, f: Token, fs: Span, db: Database)
    requires IsSupports(s.text) && Plain(p) && p2.text == p.text
    requires Passes(db, Key(AtRule(s.text)), WidelyAvailable)
    ensures FindingsList([Atrule(s, SupportsPrelude(FeatureTest(p, cv)),
                                 [PlainRule([Declaration(p2, [FunctionCall(f, fs, [OtherValue])])])])], {}, DefaultConfig, db) ==
      if Key(Function(f.text)) in TestKeys(p, cv) then []
      else if Fails(db, Key(Function(f.text)), WidelyAvailable)
      then [Diagnostic(Function(f.text), WidelyAvailable, fs)]
      else []
  {
    var cfg := DefaultConfig;
    var g := Granted(SupportsPrelude(FeatureTest(p, cv))) + {};
    var d := Declaration(p2, [FunctionCall(f, fs, [OtherValue])]);
    assert Key(Property(p2.text)) in g by {
      var us := DeclarationUses(p, cv);
      assert us[0] in us;
    }
    QuietSupports(s, FeatureTest(p, cv), [PlainRule([d])], {}, cfg, db);
    PlainRuleOne(d, g, cfg, db);
    CallDeclFindings(p2, f, fs, g, cfg, db);
    Quiet(Use(Property(p2.text), p2.span), g, cfg, db);
  }

  /** `(width: abs(20% - 100px))` asserts `abs`; `(accent-color: auto)` does not. */
  lemma TestedFunctionIsAsserted(p: Token, f: Token, fs: Span, args: seq<ValueNode>, k: Token)
    requires Plain(p)
    ensures Key(Function(f.text)) in TestKeys(p, [FunctionCall(f, fs, args)])
    ensures Key(Function(f.text)) !in TestKeys(p, [Identifier(k)])
  {
    var cv := [FunctionCall(f, fs, args)];
    assert ValueUses(p.text, cv) == [Use(Function(f.text), fs)] + FunctionUses(args) by {
      assert cv[1..] == [];
    }
    var us := DeclarationUses(p, cv);
    assert us[1] == Use(Function(f.text), fs);
    assert us[1] in us;
    SupportsTestKeys(p, k);
  }

  /** `a { accent-color: red; backdrop-filter: blur(10px); }` with
      `allowProperties: ["accent-color"]`: the listed property is
      suppressed, the other is still reported. */
  lemma AllowPropertiesIsExact(p1: Token, k1: Token, p2: Token, f: Token, fs: Span, db: Database)
    requires Plain(p1) && Plain(p2) && p2.text != p1.text
    requires Fails(db, Key(Property(p1.text)), WidelyAvailable)
    requires Fails(db, Key(Property(p2.text)), WidelyAvailable)
    requires Passes(db, Key(PropertyValue(p1.text, k1.text)), WidelyAvailable)
    requires Passes(db, Key(Function(f.text)), WidelyAvailable)
    ensures FindingsList([PlainRule([KeywordDecl(p1, k1), Declaration(p2, [FunctionCall(f, fs, [OtherValue])])])],
                         {}, Config(WidelyAvailable, {p1.text}, {}, {}), db) ==
      [Diagnostic(Property(p2.text), WidelyAvailable, p2.span)]
  {
    var cfg := Config(WidelyAvailable, {p1.text}, {}, {});
    var d2 := Declaration(p2, [FunctionCall(f, fs, [OtherValue])]);
    FindingsListOne(PlainRule([KeywordDecl(p1, k1), d2]), {}, cfg, db);
    PlainRuleFindings([KeywordDecl(p1, k1), d2], {}, cfg, db);
    FindingsListTwo(KeywordDecl(p1, k1), d2, {}, cfg, db);
    KeywordDeclFindings(p1, k1, {}, cfg, db);
    CallDeclFindings(p2, f, fs, {}, cfg, db);
  }

  /** `@VIEW-TRANSITION { … }` with `available: "newly"`, or `@property --foo
      { … }` with `available: "widely"`: an at-rule other than `@supports` and
      `@media` is looked up under its lower-cased name and reported as written,
      at its name, before anything in its block. */
  lemma AtRuleReportEchoesSpelling(n: Token, block: seq<Node>, t: Threshold, db: Database)
    requires !IsSupports(n.text)
    requires Fails(db, Key(AtRule(n.text)), t)
    ensures FindingsList([Atrule(n, OtherPrelude, block)], {}, Options(t), db) ==
      [Diagnostic(AtRule(n.text), t, n.span)] + FindingsList(block, {}, Options(t), db)
  {
    FindingsListOne(Atrule(n, OtherPrelude, block), {}, Options(t), db);
    ReportAllOne(Use(AtRule(n.text), n.span), {}, Options(t), db);
    Reported(Use(AtRule(n.text), n.span), {}, Options(t), db);
  }

  /** `label { & input { … } }` with `available: 2022`: the nesting selector
      `&` is looked up as the selector `nesting` and reported at the `&`. */
  lemma NestingSelectorReported(amp: Span, block: seq<Node>, y: int, db: Database)
    requires Fails(db, Key(Selector("nesting")), BaselineYear(y))
    ensures Findings(Rule([NestingSelector(amp), OtherSelector], block), {}, Options(BaselineYear(y)), db) ==
      [Diagnostic(Selector("nesting"), BaselineYear(y), amp)] + FindingsList(block, {}, Options(BaselineYear(y)), db)
  {
    var cfg := Options(BaselineYear(y));
    var nu := Use(Selector("nesting"), amp);
    assert SelectorUses([NestingSelector(amp), OtherSelector]) == [nu] by {
      assert [NestingSelector(amp), OtherSelector][1..] == [OtherSelector];
      assert [OtherSelector][1..] == [];
      assert SelectorUses([OtherSelector]) == [];
    }
    ReportAllOne(nu, {}, cfg, db);
    Reported(nu, {}, cfg, db);
  }


  /** `@MEDIA`, `@Media` and `@MeDia` are all `@media`. */
  lemma MediaSpellingsRecognised()
    ensures IsMedia("MEDIA") && IsMedia("Media") && IsMedia("MeDia")
  {
    FoldsTo("MEDIA", "media");
    FoldsTo("Media", "media");
    FoldsTo("MeDia", "media");
  }

  /** `@SUPPORTS`, `@Supports` and `@SuPpOrTs` are all `@supports`. */
  lemma SupportsSpellingsRecognised()
    ensures IsSupports("SUPPORTS") && IsSupports("Supports") && IsSupports("SuPpOrTs")
  {
    FoldsTo("SUPPORTS", "supports");
    FoldsTo("Supports", "supports");
    FoldsTo("SuPpOrTs", "supports");
  }

  /** `@VIEW-TRANSITION` is looked up as `view-transition`. */
  lemma ViewTransitionKeyFolds()
    ensures Key(AtRule("VIEW-TRANSITION")) == AtRule("view-transition")
  {
    FoldsTo("VIEW-TRANSITION", "view-transition");
  }

  lemma MediaUsesThree(f1: Token, f2: Token, f3: Token)
    ensures MediaUses([f1, f2, f3]) ==
      [Use(MediaCondition(f1.text), f1.span), Use(MediaCondition(f2.text), f2.span), Use(MediaCondition(f3.text), f3.span)]
  {
  }

  lemma ReportAllCons(u: Use, us: seq<Use>, scope: set<Feature>, cfg: Config, db: Database)
    ensures ReportAll([u] + us, scope, cfg, db) == Report(u, scope, cfg, db) + ReportAll(us, scope, cfg, db)
  {
    assert ([u] + us)[1..] == us;
  }

  lemma ReportAllThree(u1: Use, u2: Use, u3: Use, scope: set<Feature>, cfg: Config, db: Database)
    ensures ReportAll([u1, u2, u3], scope, cfg, db) ==
      Report(u1, scope, cfg, db) + (Report(u2, scope, cfg, db) + Report(u3, scope, cfg, db))
  {
    assert [u1, u2, u3] == [u1] + [u2, u3];
    ReportAllCons(u1, [u2, u3], scope, cfg, db);
    assert [u2, u3] == [u2] + [u3];
    ReportAllCons(u2, [u3], scope, cfg, db);
    ReportAllOne(u3, scope, cfg, db);
  }

  /** `@media (height: 600px) and (inverted-colors: inverted) and
      (device-posture: folded) { … }`: one report per failing media feature,
      in order, each at the feature's name. */
  lemma MediaReportsEachFailingFeature(m: Token, f1: Token, f2: Token, f3: Token, block: seq<Node>, db: Database)
    requires IsMedia(m.text)
    requires Passes(db, Key(AtRule(m.text)), WidelyAvailable)
    requires Passes(db, Key(MediaCondition(f1.text)), WidelyAvailable)
    requires Fails(db, Key(MediaCondition(f2.text)), WidelyAvailable)
    requires Fails(db, Key(MediaCondition(f3.text)), WidelyAvailable)
    ensures FindingsList([Atrule(m, MediaPrelude([f1, f2, f3]), block)], {}, DefaultConfig, db) ==
      [Diagnostic(MediaCondition(f2.text), WidelyAvailable, f2.span),
       Diagnostic(MediaCondition(f3.text), WidelyAvailable, f3.span)] +
      FindingsList(block, {}, DefaultConfig, db)
  {
    var cfg := DefaultConfig;
    var mu := Use(AtRule(m.text), m.span);
    var u1, u2, u3 := Use(MediaCondition(f1.text), f1.span), Use(MediaCondition(f2.text), f2.span), Use(MediaCondition(f3.text), f3.span);
    assert ReportAll(AtRuleUses(m, MediaPrelude([f1, f2, f3])), {}, cfg, db) ==
      [Diagnostic(MediaCondition(f2.text), WidelyAvailable, f2.span),
       Diagnostic(MediaCondition(f3.text), WidelyAvailable, f3.span)] by {
      MediaUsesThree(f1, f2, f3);
      assert AtRuleUses(m, MediaPrelude([f1, f2, f3])) == [mu] + [u1, u2, u3];
      ReportAllCons(mu, [u1, u2, u3], {}, cfg, db);
      ReportAllThree(u1, u2, u3, {}, cfg, db);
      Quiet(mu, {}, cfg, db);
      Quiet(u1, {}, cfg, db);
      Reported(u2, {}, cfg, db);
      Reported(u3, {}, cfg, db);
    }
    assert !IsSupports(m.text);
    FindingsListOne(Atrule(m, MediaPrelude([f1, f2, f3]), block), {}, cfg, db);
  }
}
