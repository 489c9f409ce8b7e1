# use-baseline, modelled in Dafny

This project models the `use-baseline` lint rule of the CSS ESLint language plugin. The rule walks a parsed stylesheet and finds every feature it uses. There are six kinds of feature:

- a property;
- a property value keyword;
- an at-rule;
- a selector component (pseudo-class, pseudo-element, or the nesting selector `&`);
- a function;
- a media feature.

The rule looks each feature up in the Baseline compatibility data, under its lower-cased key. It reports the features whose availability is below the configured `available` threshold. A report is suppressed in two cases:

- an allow-list names the feature;
- an enclosing `@supports` condition asserts the feature.

The behaviour modelled is the one the rule's fixture file fixes, `tests/rules/use-baseline.test.js`. The rule's own implementation is not part of this model. Where the fixtures leave a choice open or force a reading, "Interpretations" below says which reading the model takes.

Modules, one per file:

- `Text` (text.dfy): ASCII case folding of names. It is the only name normalisation modelled.
- `Syntax` (syntax.dfy): the parsed tree the rule visits. It has declarations, rules with selectors, at-rules with preludes, `@supports` conditions (`not`, `and`, `or`, feature tests, `selector()` tests), and 1-based token spans.
- `Features` (features.dfy): the feature identifier resolver. It maps a node to its feature uses in source order and maps each feature to its canonical key.
- `Baseline` (baseline.dfy): the threshold evaluator. It covers `"widely"`, `"newly"` and a Baseline year.
- `Supports` (supports.dfy): the `@supports` condition classifier. It computes the keys a condition asserts unconditionally and relates them to the condition's boolean meaning.
- `Dispatch` (dispatch.dfy): the checking order (allow-lists, then scope, then threshold) and the lexical meaning `FindingsList` of a whole stylesheet. It also holds the lemmas that relate reports to configuration, data and scope.
- `Walker` (walker.dfy): the rule as it runs, as the class `UseBaseline`.
  - It holds a stack of scope frames and the reports so far.
  - Handler methods push a frame on entering an `@supports` block, pop it on leaving, and check each visited use.
  - `Run` dispatches a sequence of handler calls.
  - `Lint` proves that running the handlers over a stylesheet's event sequence yields exactly `FindingsList` from an empty scope.
- `Fixtures` (fixtures.dfy): the fixture cases. Each is stated for every stylesheet of the fixture's shape and every compatibility database that agrees with the facts the fixture relies on.
  - The whole-fixture lemmas give the exact list of reports of the fixture's stylesheet.
  - `InsideBothBlocks`, `AfterInnerBlock` and `HasUnderPropertyTest` are building blocks of them: each gives the reports of a fragment under a scope passed in.
  - `AtRuleReportEchoesSpelling`, `NestingSelectorReported` and `MediaReportsEachFailingFeature` give the reports of the construct they are about, in order, followed by the reports of a block left open. `NestingSelectorReported` is stated for the inner `& input` rule rather than for the enclosing `label` rule.
  - `TestedFunctionIsAsserted` and the three spelling lemmas state no reports: they fix what a condition asserts and how the fixtures' spellings fold.

The compatibility database is a parameter of type `map<Feature, Support>` keyed by canonical keys. A record has a status (not Baseline, newly, widely) and the year the feature became Baseline.

### Interpretations

- **Feature tests grant more than the property.** A narrower reading, in which a feature test `(property: value)` grants only the property name, is contradicted by the fixtures:
  - Lines 42-45 and 273-289: a value keyword is covered only if the condition tested that same keyword.
  - Lines 69-71: `abs()` inside `@supports (width: abs(…))` is not reported, although lines 339-354 show that `abs` falls below `widely`.
  - Lines 307-322: `abs()` under a test of `accent-color: auto` is reported.

  So a feature test grants every key the same declaration would use: the property, the tested keywords and the functions in the tested value (`Supports.TestKeys`).
- **`selector()` tests grant every selector feature of their argument.** A `selector(…)` test grants the keys of its pseudo-classes, pseudo-elements and `&`, the features the same selector would use (`Supports.SelectorTestKeys`). The fixtures show this only for a pseudo-class (lines 72-74 and 463-484); for pseudo-elements and `&` it is the model's reading.
- **Calls nested in a value are visited.** Every call in a declaration's value is a function use, at any depth; keywords inside a call's arguments are not values of the property (`Features.ValueUsesCalls`, `Features.FunctionUses`). Lines 355-370 report only `color-mix`. Under the model's reading they require the nested `hsl` to pass the threshold; under the other reading they require nothing of it. So the fixtures do not show whether nested calls are visited, and visiting them is the model's reading.
- **Allow-list matching.** `allowProperties` is compared with the property name as written. `allowAtRules` and `allowSelectors` are compared with the lower-cased name. The other three kinds have no allow-list.
- **The fixture at lines 46-48.** It tests `(accent-color: auto) and (backdrop-filter: auto)`, but its body declares `background-filter`, a name the data does not know. So this fixture alone does not show that the second conjunct is granted. `Fixtures.AndGrantsBoth` states the intended behaviour with the same property on both sides. `Supports.ConjunctionGrantsBoth` states it for any conjunction.

## Model

| member | source | states |
|---|---|---|
| Features.Key | tests/rules/use-baseline.test.js:212-228 | a key has the feature's kind and only lower-case names, so `VIEW-TRANSITION` and `view-transition` share one record |
| Features.KeyOfKey | tests/rules/use-baseline.test.js:212-228 | a canonical key is its own key: looking up a key again changes nothing |
| Features.KeyFoldsNames | tests/rules/use-baseline.test.js:212-228 | each name of the key is the feature's name folded character by character |
| Features.KeyIdentifiesSpellings | tests/rules/use-baseline.test.js:39-41 | two features share a key, and so a record, if and only if they are the same kind and their names are equal ignoring ASCII letter case |
| Features.DeclarationUses | tests/rules/use-baseline.test.js:31-34 | custom properties (`--x`) and vendor-prefixed properties (`-moz-x`) use no feature at all; any other declaration's first use is its property at the property-name span, and every later use is a function or a value of that property |
| Features.DeclarationUsesValues | tests/rules/use-baseline.test.js:273-370 | every top-level keyword of a declaration's value is used as a value of its property; every value use is a top-level keyword of it; its function uses are exactly the calls in the value at any depth, at their spans |
| Features.ValueUses | tests/rules/use-baseline.test.js:273-289 | a value uses only functions and values of the given property |
| Features.ValueUsesComplete | tests/rules/use-baseline.test.js:273-322 | every top-level keyword and every top-level call of a value yields its use, at its own span |
| Features.ValueUsesSound | tests/rules/use-baseline.test.js:273-289 | every value use is a top-level keyword of the value, at that keyword's span |
| Features.ValueUsesAppend | tests/rules/use-baseline.test.js:273-322 | the uses of consecutive value components are those of each, in order |
| Features.SelectorUses | tests/rules/use-baseline.test.js:447-500 | a selector uses only selector features, at most one per component |
| Features.SelectorUsesComplete | tests/rules/use-baseline.test.js:447-500 | every pseudo-class and pseudo-element yields its name at its span, and every `&` yields `nesting` at its span |
| Features.SelectorUsesSound | tests/rules/use-baseline.test.js:447-500 | every selector use comes from a pseudo-class, a pseudo-element or an `&` of the selector, at that component's span |
| Features.SelectorUsesAppend | tests/rules/use-baseline.test.js:447-500 | the uses of consecutive selector components are those of each, in order |
| Features.FunctionUses | tests/rules/use-baseline.test.js:355-370 | everything found inside a function's arguments is a function use: keywords there are not values of the property |
| Features.FunctionUsesCalls | tests/rules/use-baseline.test.js:355-370 | the uses inside a call's arguments are exactly its nested calls, at any depth, each at its own span |
| Features.ValueUsesCalls | tests/rules/use-baseline.test.js:307-370 | the function uses of a value are exactly its calls at any depth, each at the call's span, and no other function use is invented |
| Features.MediaUses | tests/rules/use-baseline.test.js:404-446 | one media-condition use per parenthesised feature, in source order, each at the feature name's span |
| Features.AtRuleUses | tests/rules/use-baseline.test.js:404-446 | an at-rule's first use is its own name at the name's span; for `@media` in any letter case one media-condition use follows per feature, in order, and otherwise nothing follows |
| Baseline.Evaluate | tests/rules/use-baseline.test.js:129-171 | an unknown feature is never reported; a known one is reported exactly when it fails the threshold; the report carries the configured threshold |
| Baseline.Meets | tests/rules/use-baseline.test.js:79-88 | `"widely"` is met exactly by widely available features and `"newly"` by newly or widely available ones |
| Baseline.WidelyStricterThanNewly | tests/rules/use-baseline.test.js:155-171 | whatever passes `"widely"` passes `"newly"` |
| Baseline.YearThresholdMonotone | tests/rules/use-baseline.test.js:95-102 | a feature that passes year Y passes every later year |
| Baseline.NotBaselineMeetsNothing | tests/rules/use-baseline.test.js:129-154 | a well-formed record that is not Baseline fails every threshold |
| Supports.Granted | tests/rules/use-baseline.test.js:36-41 | a prelude that is not an `@supports` condition grants nothing, and every granted key is canonical |
| Supports.Asserted | tests/rules/use-baseline.test.js:42-53 | every key a condition asserts is canonical, so it compares with a use's key |
| Supports.AssertedSound | tests/rules/use-baseline.test.js:42-53 | in every browser where the condition holds, each asserted key is supported, so exempting the block is sound |
| Supports.AssertedExactForConjunctions | tests/rules/use-baseline.test.js:46-48 | for an `and`-only condition the asserted keys are exact: the condition holds if and only if all of them are supported |
| Supports.NegationAndDisjunctionGrantNothing | tests/rules/use-baseline.test.js:324-338 | `not (…)` and `(…) or (…)` grant no key |
| Supports.ConjunctionGrantsBoth | tests/rules/use-baseline.test.js:46-48 | `A and B` grants every key either side asserts |
| Dispatch.Report | tests/rules/use-baseline.test.js:106-154 | a use is reported at most once, at its own span, with the configured availability; it is reported exactly when it is not allow-listed, not in scope, known, and below the threshold |
| Dispatch.Allowed | tests/rules/use-baseline.test.js:106-125 | only properties, at-rules and selectors can be allow-listed |
| Dispatch.AllowListsIgnoreCase | tests/rules/use-baseline.test.js:106-120 | at-rule and selector allow-list entries cover every letter case of the name |
| Dispatch.ReportAll | tests/rules/use-baseline.test.js:127-154 | a sequence of uses gets at most one report per use |
| Dispatch.ReportAllExact | tests/rules/use-baseline.test.js:127-154 | every offending use is reported with the configured availability at its span, and every report is of an offending use in the sequence |
| Dispatch.ReportAllAppend | tests/rules/use-baseline.test.js:127-154 | the reports for consecutive uses are those of each, in order |
| Dispatch.Findings | tests/rules/use-baseline.test.js:127-154 | every report for a node is justified under the scope outside it: configured availability, not allow-listed, outside the scope, known, and below the threshold |
| Dispatch.FindingsList | tests/rules/use-baseline.test.js:127-154 | every report for a sequence of nodes is justified under the same scope |
| Dispatch.FindingsComplete | tests/rules/use-baseline.test.js:229-250 | a use that offends under the scope in force where it occurs is reported, at any depth |
| Dispatch.FindingsListComplete | tests/rules/use-baseline.test.js:229-250 | the same for a sequence of nodes |
| Dispatch.FindingsSound | tests/rules/use-baseline.test.js:229-250 | every report for a node is of a use in it that offends under the scope in force where it occurs |
| Dispatch.FindingsListSound | tests/rules/use-baseline.test.js:229-250 | the same for a sequence of nodes |
| Dispatch.ReportedExactly | tests/rules/use-baseline.test.js:127-272 | a stylesheet's reports are exactly its uses that offend under the scope in force where they occur, each with the configured availability |
| Dispatch.TopLevelPropertyReported | tests/rules/use-baseline.test.js:127-154 | a declaration in the block of a top-level rule, whose property is below the threshold, known and not allow-listed, is reported at its name |
| Dispatch.UnknownNeverReported | tests/rules/use-baseline.test.js:36-41 | a feature the data does not know is never reported (`@media (foo)`) |
| Dispatch.WidelyNeverReported | tests/rules/use-baseline.test.js:28-30 | under `widely` or `newly`, every report names a known feature that is not widely available |
| Dispatch.ReportsCarryConfiguredThreshold | tests/rules/use-baseline.test.js:501-555 | every report's availability is the configured threshold, so a year threshold reports the configured year |
| Dispatch.AllowListedNeverReported | tests/rules/use-baseline.test.js:106-125 | an allow-listed property, at-rule or selector is never reported, whatever the data or the scope |
| Dispatch.FindingsListAllowLists | tests/rules/use-baseline.test.js:556-606 | the reports under allow-lists are exactly the reports without them, minus the listed ones, in the same order |
| Dispatch.FindingsAllowLists | tests/rules/use-baseline.test.js:556-606 | the same for one node |
| Dispatch.Unlisted | tests/rules/use-baseline.test.js:556-606 | a report is kept if and only if no allow-list names its feature, and none is added |
| Dispatch.FindingsListAppend | tests/rules/use-baseline.test.js:464-484 | siblings are checked independently: a block's scope does not reach the nodes after it |
| Dispatch.NestedSupportsScopes | tests/rules/use-baseline.test.js:49-68 | inside a nested `@supports` both conditions' keys are in scope; after the inner block only the outer condition's keys are |
| Dispatch.NegatedSupportsGrantsNothing | tests/rules/use-baseline.test.js:324-338 | the block of `@supports not (…)` or `@supports … or …` is checked as if it stood outside the at-rule |
| Dispatch.CustomAndPrefixedUnreported | tests/rules/use-baseline.test.js:31-34 | custom and vendor-prefixed declarations are never reported, neither the property nor its value |
| Dispatch.PropertyReportSpan | tests/rules/use-baseline.test.js:129-154 | a property report points at the property-name token: on one line, ending the name's length after it starts |
| Walker.Step | tests/rules/use-baseline.test.js:230-250 | a handler call keeps the frames nested; a visit leaves the stack alone and adds at most one report; entering and leaving add none |
| Walker.Replay | tests/rules/use-baseline.test.js:230-272 | a sequence of handler calls grows the stack by at most one frame per call and adds at most one report per call |
| Walker.ReplayKeeps | tests/rules/use-baseline.test.js:230-272 | handler calls keep the frames nested and never revise an earlier report |
| Walker.NodeEventsMatchFindings | tests/rules/use-baseline.test.js:230-250 | replaying a node's handler calls on the stack appends exactly its lexical reports and leaves the stack as it was |
| Walker.EventsMatchFindings | tests/rules/use-baseline.test.js:230-272 | the same for a sequence of sibling nodes |
| Walker.UseBaseline.constructor | tests/rules/use-baseline.test.js:26-27 | a run starts with no scope frame and no report |
| Walker.UseBaseline.EnterSupports | tests/rules/use-baseline.test.js:49-53 | entering an `@supports` block pushes the granted keys joined with the active frame; reports are unchanged |
| Walker.UseBaseline.ExitSupports | tests/rules/use-baseline.test.js:230-250 | leaving the block pops its frame, restoring the enclosing scope |
| Walker.UseBaseline.Check | tests/rules/use-baseline.test.js:229-250 | a visited use appends the report `Report` gives under the top frame; the stack is unchanged; a key granted by any enclosing block suppresses the report, because the frames are nested |
| Walker.UseBaseline.Run | tests/rules/use-baseline.test.js:230-272 | dispatching handler calls in order yields the state their replay describes, and keeps the frames nested |
| Walker.Lint | tests/rules/use-baseline.test.js:230-272 | the running rule's reports for a stylesheet are exactly its lexical reports from an empty scope |
| Fixtures.DefaultThresholdReportsEachProperty | tests/rules/use-baseline.test.js:128-154 | with no options, both properties below `widely` are reported, in order, each at its name, with availability `widely` |
| Fixtures.NewlyThresholdAcceptsNewly | tests/rules/use-baseline.test.js:155-171 | with `"newly"`, the newly available property passes and the other is reported with availability `newly` |
| Fixtures.YearThresholdComparesBaselineYear | tests/rules/use-baseline.test.js:501-517 | for `.box { backdrop-filter: blur(10px); }` with year Y, the property passes if and only if it became Baseline in Y or earlier; otherwise it is reported with Y |
| Fixtures.YearThresholdKeywordDecl | tests/rules/use-baseline.test.js:518-534 | for `.p { property: keyword; }` with year Y (also lines 95-98), the property passes if and only if it became Baseline in Y or earlier; otherwise it is reported with Y at the property name |
| Fixtures.NestedScopesAccumulateAndPop | tests/rules/use-baseline.test.js:229-250 | in nested `@supports` blocks the outer property is covered inside both; after the inner block the inner property is reported, once, at its later use |
| Fixtures.InsideBothBlocks | tests/rules/use-baseline.test.js:230-233 | inside both blocks, the outer condition's property is in scope |
| Fixtures.AfterInnerBlock | tests/rules/use-baseline.test.js:234-236 | after the inner block, the inner condition's property is reported again |
| Fixtures.NotGrantsNothing | tests/rules/use-baseline.test.js:323-338 | under `@supports not (accent-color: auto)` the property is still reported |
| Fixtures.AndGrantsBoth | tests/rules/use-baseline.test.js:46-48 | under a conjunction both tested properties and keywords are covered, whatever the data says |
| Fixtures.SelectorTestCoversItsBlock | tests/rules/use-baseline.test.js:72-74 | `@supports selector(:has())` covers `:has` in its own block |
| Fixtures.SelectorScopeEndsWithBlock | tests/rules/use-baseline.test.js:463-484 | a `selector(:has())` test does not reach a later sibling `@supports` block, so `:has` there is reported |
| Fixtures.HasUnderPropertyTest | tests/rules/use-baseline.test.js:466-470 | under `@supports (color: red)` only `:has` is reported |
| Fixtures.ValueCoveredOnlyIfTested | tests/rules/use-baseline.test.js:273-289 | a tested property covers itself; a value keyword is covered only if the condition tested the same keyword, and is otherwise reported at the keyword |
| Fixtures.FunctionCoveredOnlyIfTested | tests/rules/use-baseline.test.js:307-322 | a function in the block is covered only if the tested value asserts it, and is otherwise reported at the whole call |
| Fixtures.TestedFunctionIsAsserted | tests/rules/use-baseline.test.js:69-71 | `(width: abs(…))` asserts `abs`; `(accent-color: auto)` does not |
| Fixtures.AllowPropertiesIsExact | tests/rules/use-baseline.test.js:573-589 | `allowProperties: ["accent-color"]` suppresses that property only; the other is still reported |
| Fixtures.AtRuleReportEchoesSpelling | tests/rules/use-baseline.test.js:212-228 | an at-rule is reported as written, at its name, with the configured availability, before its block's reports |
| Fixtures.NestingSelectorReported | tests/rules/use-baseline.test.js:535-555 | `&` is looked up as the selector `nesting` and reported at the `&` with the configured year |
| Fixtures.MediaSpellingsRecognised | tests/rules/use-baseline.test.js:39-41 | `@MEDIA`, `@Media` and `@MeDia` are all recognised as `@media` |
| Fixtures.SupportsSpellingsRecognised | tests/rules/use-baseline.test.js:54-62 | `@SUPPORTS`, `@Supports` and `@SuPpOrTs` are all recognised as `@supports` |
| Fixtures.ViewTransitionKeyFolds | tests/rules/use-baseline.test.js:212-228 | `VIEW-TRANSITION` is looked up under the key `view-transition` |
| Fixtures.MediaReportsEachFailingFeature | tests/rules/use-baseline.test.js:404-430 | one report per failing media feature, in order, each at the feature name |

## Left out

- Case folding beyond ASCII: names are folded letter by letter from `A`-`Z` to `a`-`z` only, so a name that differs from a key only in non-ASCII letter case is a different feature here.
- CSS parsing, including the tolerant parse mode (lines 89-94): the model starts from the parsed tree, and constructs a parser cannot classify never reach the rule.
- The ESLint rule tester, the `dedent` helper and plugin registration: they only drive the fixtures and are not rule behaviour.
- The compatibility data itself: it is a map parameter, and each fixture lemma requires only the facts its fixture relies on.
- Line and column computation from source offsets: spans are given by the parser. `Dispatch.PropertyReportSpan` relates a one-line span to the token's length.
- Configuration schema validation and the text of the diagnostic messages: each diagnostic's kind is its feature constructor.
- Selectors nested inside selector arguments (for example a pseudo-class inside `:is(…)`): a selector component is one part of a flat list.
- Functions and identifiers inside an `@supports` prelude are not checked themselves; the prelude only grants keys. No fixture reports anything in an `@supports` prelude.
- Supports.Asserted: `A or B` grants nothing, even when both sides assert the same key. This is sound but weaker than the boolean meaning `Supports.Holds` allows; no fixture uses `or`.
