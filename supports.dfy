/** `@supports` condition classifier: which feature keys a condition asserts
    unconditionally, so that the block's body may use them without a report. */
module Supports {
  import opened Syntax
  import opened Features

  /** The canonical keys of a sequence of uses. */
  function Keys(us: seq<Use>): (ks: set<Feature>)
    ensures forall k :: k in ks ==> IsKey(k)
  {
    set u | u in us :: Key(u.feature)
  }

  /** The keys a feature test `(property: value)` asserts: those the same
      declaration would use — the property, each keyword of the tested value
      for that property, and each function in it. */
  function TestKeys(property: Token, value: seq<ValueNode>): set<Feature> {
    Keys(DeclarationUses(property, value))
  }

  /** The keys a `selector(…)` test asserts: its pseudo-classes, pseudo-elements and `&`. */
  function SelectorTestKeys(selector: seq<SelectorPart>): set<Feature> {
    Keys(SelectorUses(selector))
  }

  /** The keys asserted unconditionally: a negated or disjunctive subtree
      asserts nothing; a conjunction asserts what both sides assert. */
  function Asserted(c: Condition): (ks: set<Feature>)
    ensures forall k :: k in ks ==> IsKey(k)
  {
    match c
    case Not(_) => {}
    case Or(_, _) => {}
    case And(l, r) => Asserted(l) + Asserted(r)
    case FeatureTest(p, v) => TestKeys(p, v)
    case SelectorTest(s) => SelectorTestKeys(s)
  }

  /** The keys an at-rule's prelude grants to its block when the at-rule is `@supports`. */
  function Granted(p: Prelude): (ks: set<Feature>)
    ensures !p.SupportsPrelude? ==> ks == {}
    ensures forall k :: k in ks ==> IsKey(k)
  {
    match p
    case SupportsPrelude(c) => Asserted(c)
    case _ => {}
  }

  /** The condition's truth in a browser that supports exactly the keys in
      `supported`: a test holds when every key it tests is supported. */
  predicate Holds(c: Condition, supported: set<Feature>) {
    match c
    case Not(x) => !Holds(x, supported)
    case Or(l, r) => Holds(l, supported) || Holds(r, supported)
    case And(l, r) => Holds(l, supported) && Holds(r, supported)
    case FeatureTest(p, v) => TestKeys(p, v) <= supported
    case SelectorTest(s) => SelectorTestKeys(s) <= supported
  }

  /** Soundness: every browser that enters the block supports every key the
      condition asserts, so exempting them from reports is justified. */
  lemma {:induction false} AssertedSound(c: Condition, supported: set<Feature>)
    requires Holds(c, supported)
    ensures Asserted(c) <= supported
  {
    match c
    case And(l, r) =>
      AssertedSound(l, supported);
      AssertedSound(r, supported);
    case _ =>
  }

  /** A condition built from tests with `and` only. */
  predicate IsConjunction(c: Condition) {
    match c
    case And(l, r) => IsConjunction(l) && IsConjunction(r)
    case FeatureTest(_, _) => true
    case SelectorTest(_) => true
    case _ => false
  }

  /** For `and`-only conditions nothing is lost: the condition holds exactly
      when every asserted key is supported. */
  lemma {:induction false} AssertedExactForConjunctions(c: Condition, supported: set<Feature>)
    requires IsConjunction(c)
    ensures Holds(c, supported) <==> Asserted(c) <= supported
  {
    match c
    case And(l, r) =>
      AssertedExactForConjunctions(l, supported);
      AssertedExactForConjunctions(r, supported);
    case _ =>
  }

  /** `not (…)` asserts nothing whatever it negates, and neither does `or`. */
  lemma NegationAndDisjunctionGrantNothing(c: Condition)
    requires c.Not? || c.Or?
    ensures Granted(SupportsPrelude(c)) == {}
  {
  }

  /** `A and B` asserts both sides. */
  lemma ConjunctionGrantsBoth(l: Condition, r: Condition)
    ensures Asserted(l) <= Granted(SupportsPrelude(And(l, r)))
    ensures Asserted(r) <= Granted(SupportsPrelude(And(l, r)))
  {
  }
}
