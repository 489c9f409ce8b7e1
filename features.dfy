/** Feature identifier resolver: maps the constructs of a visited node to the
    features they use, in source order, and each feature to its canonical key. */
module Features {
  import opened Text
  import opened Syntax

  /** A feature use as written; the six kinds are the rule's six diagnostics. */
  datatype Feature =
    | Property(name: string)
    | PropertyValue(property: string, value: string)
    | AtRule(name: string)
    | Selector(name: string)
    | Function(name: string)
    | MediaCondition(name: string)

  /** One occurrence of a feature and the span a diagnostic for it points at. */
  datatype Use = Use(feature: Feature, span: Span)

  /** The canonical, lower-cased key under which the compatibility data knows
      a feature: the same kind of feature, with lower-case names. */
  function Key(f: Feature): (k: Feature)
    ensures IsKey(k)
    ensures SameKind(f, k)
  {
    match f
    case Property(p) =>
      LowerStrIsLowerCase(p);
      Property(LowerStr(p))
    case PropertyValue(p, v) =>
      LowerStrIsLowerCase(p); LowerStrIsLowerCase(v);
      PropertyValue(LowerStr(p), LowerStr(v))
    case AtRule(n) =>
      LowerStrIsLowerCase(n);
      AtRule(LowerStr(n))
    case Selector(n) =>
      LowerStrIsLowerCase(n);
      Selector(LowerStr(n))
    case Function(n) =>
      LowerStrIsLowerCase(n);
      Function(LowerStr(n))
    case MediaCondition(n) =>
      LowerStrIsLowerCase(n);
      MediaCondition(LowerStr(n))
  }

  /** A feature whose names are all lower case, i.e. a canonical key. */
  predicate IsKey(f: Feature) {
    match f
    case PropertyValue(p, v) => IsLowerCase(p) && IsLowerCase(v)
    case Property(n) => IsLowerCase(n)
    case AtRule(n) => IsLowerCase(n)
    case Selector(n) => IsLowerCase(n)
    case Function(n) => IsLowerCase(n)
    case MediaCondition(n) => IsLowerCase(n)
  }

  predicate SameKind(f: Feature, g: Feature) {
    (f.Property? <==> g.Property?) && (f.PropertyValue? <==> g.PropertyValue?) &&
    (f.AtRule? <==> g.AtRule?) && (f.Selector? <==> g.Selector?) &&
    (f.Function? <==> g.Function?) && (f.MediaCondition? <==> g.MediaCondition?)
  }

  /** Each name of the key is the feature's name folded character by character. */
  lemma KeyFoldsNames(f: Feature)
    ensures !f.PropertyValue? ==> Folds(f.name, Key(f).name)
    ensures f.PropertyValue? ==> Folds(f.property, Key(f).property) && Folds(f.value, Key(f).value)
  {
  }

  /** Two spellings of one feature: the same kind, names equal up to letter case. */
  predicate SameIgnoringCase(f: Feature, g: Feature) {
    SameKind(f, g) &&
    if f.PropertyValue? then EqualIgnoringCase(f.property, g.property) && EqualIgnoringCase(f.value, g.value)
    else EqualIgnoringCase(f.name, g.name)
  }

  /** Two features share a key, and so a compatibility record, exactly when
      they are spellings of one feature. */
  lemma KeyIdentifiesSpellings(f: Feature, g: Feature)
    ensures Key(f) == Key(g) <==> SameIgnoringCase(f, g)
  {
    if f.PropertyValue? && g.PropertyValue? {
      LowerStrEqual(f.property, g.property);
      LowerStrEqual(f.value, g.value);
    } else if !f.PropertyValue? && !g.PropertyValue? {
      LowerStrEqual(f.name, g.name);
    }
  }

  /** Canonicalising a key changes nothing: keys are fixed points of `Key`. */
  lemma KeyOfKey(f: Feature)
    requires IsKey(f)
    ensures Key(f) == f
  {
    match f
    case PropertyValue(p, v) => LowerStrOfLowerCase(p); LowerStrOfLowerCase(v);
    case Property(n) => LowerStrOfLowerCase(n);
    case AtRule(n) => LowerStrOfLowerCase(n);
    case Selector(n) => LowerStrOfLowerCase(n);
    case Function(n) => LowerStrOfLowerCase(n);
    case MediaCondition(n) => LowerStrOfLowerCase(n);
  }

  /** `--name`: a custom property, whose value is never inspected. */
  predicate IsCustomProperty(name: string) {
    |name| >= 2 && name[0] == '-' && name[1] == '-'
  }

  /** `-webkit-…`, `-moz-…`: vendor-prefixed, outside the compatibility data. */
  predicate IsVendorPrefixed(name: string) {
    |name| >= 1 && name[0] == '-' && !IsCustomProperty(name)
  }

  /** The feature uses of a declaration: the property, then its value in
      source order. Custom and vendor-prefixed declarations use nothing. */
  function DeclarationUses(property: Token, value: seq<ValueNode>): (us: seq<Use>)
    ensures IsCustomProperty(property.text) || IsVendorPrefixed(property.text) ==> us == []
    ensures !(IsCustomProperty(property.text) || IsVendorPrefixed(property.text)) ==>
      |us| >= 1 && us[0] == Use(Property(property.text), property.span) &&
      forall u :: u in us[1..] ==>
        (u.feature.Function? || (u.feature.PropertyValue? && u.feature.property == property.text))
  {
    if IsCustomProperty(property.text) || IsVendorPrefixed(property.text) then []
    else
      var vs := ValueUses(property.text, value);
      assert ([Use(Property(property.text), property.span)] + vs)[1..] == vs;
      [Use(Property(property.text), property.span)] + vs
  }

  /** A declaration's value uses, exactly: each top-level keyword as a value
      of the property and each call, at any depth, as a function. */
  lemma DeclarationUsesValues(property: Token, value: seq<ValueNode>)
    requires !IsCustomProperty(property.text) && !IsVendorPrefixed(property.text)
    ensures forall i :: 0 <= i < |value| && value[i].Identifier? ==>
      Use(PropertyValue(property.text, value[i].token.text), value[i].token.span) in DeclarationUses(property, value)
    ensures forall i :: 0 <= i < |value| && value[i].FunctionCall? ==>
      Use(Function(value[i].name.text), value[i].span) in DeclarationUses(property, value)
    ensures forall u :: u in DeclarationUses(property, value)[1..] ==>
      (u.feature.Function? ||
       (u.feature.PropertyValue? && u.feature.property == property.text &&
        Identifier(Token(u.feature.value, u.span)) in value))
    ensures forall u :: u in DeclarationUses(property, value)[1..] && u.feature.Function? ==>
      (u.feature.name, u.span) in Calls(value)
    ensures forall c :: c in Calls(value) ==> Use(Function(c.0), c.1) in DeclarationUses(property, value)
  {
    var us := DeclarationUses(property, value);
    var vs := ValueUses(property.text, value);
    assert us == [us[0]] + vs;
    assert us[1..] == vs;
    ValueUsesComplete(property.text, value);
    ValueUsesSound(property.text, value);
    ValueUsesCalls(property.text, value);
  }

  /** Top-level identifiers are values of `property`; functions count at any depth. */
  function ValueUses(property: string, value: seq<ValueNode>): (us: seq<Use>)
    ensures forall u :: u in us ==>
      (u.feature.Function? || (u.feature.PropertyValue? && u.feature.property == property))
    decreases value
  {
    if value == [] then []
    else
      var head := match value[0]
        case Identifier(t) => [Use(PropertyValue(property, t.text), t.span)]
        case FunctionCall(name, span, args) => [Use(Function(name.text), span)] + FunctionUses(args)
        case OtherValue => [];
      head + ValueUses(property, value[1..])
  }

  /** Every top-level keyword and call of a value yields its use. */
  lemma {:induction false} ValueUsesComplete(property: string, value: seq<ValueNode>)
    ensures forall i :: 0 <= i < |value| && value[i].Identifier? ==>
      Use(PropertyValue(property, value[i].token.text), value[i].token.span) in ValueUses(property, value)
    ensures forall i :: 0 <= i < |value| && value[i].FunctionCall? ==>
      Use(Function(value[i].name.text), value[i].span) in ValueUses(property, value)
    decreases value
  {
    if value != [] {
      ValueUsesComplete(property, value[1..]);
      assert forall i :: 1 <= i < |value| ==> value[i] == value[1..][i - 1];
    }
  }

  /** Every value of `property` among the uses is a top-level keyword of the value. */
  lemma {:induction false} ValueUsesSound(property: string, value: seq<ValueNode>)
    ensures forall u :: u in ValueUses(property, value) && u.feature.PropertyValue? ==>
      Identifier(Token(u.feature.value, u.span)) in value
    decreases value
  {
    if value != [] {
      ValueUsesSound(property, value[1..]);
      assert value == [value[0]] + value[1..];
    }
  }

  /** The uses of consecutive value components are those of each, in order. */
  lemma {:induction false} ValueUsesAppend(property: string, a: seq<ValueNode>, b: seq<ValueNode>)
    ensures ValueUses(property, a + b) == ValueUses(property, a) + ValueUses(property, b)
    decreases a
  {
    if a == [] {
      assert a + b == b;
    } else {
      assert (a + b)[0] == a[0];
      assert (a + b)[1..] == a[1..] + b;
      ValueUsesAppend(property, a[1..], b);
    }
  }

  /** The functions inside a function's arguments, outermost first. */
  function FunctionUses(args: seq<ValueNode>): (us: seq<Use>)
    ensures forall u :: u in us ==> u.feature.Function?
    decreases args
  {
    if args == [] then []
    else
      var head := match args[0]
        case FunctionCall(name, span, inner) => [Use(Function(name.text), span)] + FunctionUses(inner)
        case _ => [];
      head + FunctionUses(args[1..])
  }

  /** The name and span of every call in a value, at any depth. */
  function Calls(vs: seq<ValueNode>): set<(string, Span)>
    decreases vs
  {
    if vs == [] then {}
    else
      var head := match vs[0]
        case FunctionCall(name, span, args) => {(name.text, span)} + Calls(args)
        case _ => {};
      head + Calls(vs[1..])
  }

  /** The uses inside a call's arguments are exactly its nested calls, each
      at its own span. */
  lemma {:induction false} FunctionUsesCalls(args: seq<ValueNode>)
    ensures forall u :: u in FunctionUses(args) ==> (u.feature.name, u.span) in Calls(args)
    ensures forall c :: c in Calls(args) ==> Use(Function(c.0), c.1) in FunctionUses(args)
    decreases args
  {
    if args != [] {
      FunctionUsesCalls(args[1..]);
      if args[0].FunctionCall? {
        FunctionUsesCalls(args[0].args);
      }
    }
  }

  /** The function uses of a value are exactly its calls at any depth, each
      at its own span. */
  lemma {:induction false} ValueUsesCalls(property: string, value: seq<ValueNode>)
    ensures forall u :: u in ValueUses(property, value) && u.feature.Function? ==>
      (u.feature.name, u.span) in Calls(value)
    ensures forall c :: c in Calls(value) ==> Use(Function(c.0), c.1) in ValueUses(property, value)
    decreases value
  {
    if value != [] {
      ValueUsesCalls(property, value[1..]);
      if value[0].FunctionCall? {
        FunctionUsesCalls(value[0].args);
      }
    }
  }

  /** Pseudo-classes, pseudo-elements and `&` (the `nesting` feature), left to right. */
  function SelectorUses(selector: seq<SelectorPart>): (us: seq<Use>)
    ensures |us| <= |selector|
    ensures forall u :: u in us ==> u.feature.Selector?
  {
    if selector == [] then []
    else
      var head := match selector[0]
        case PseudoClass(t) => [Use(Selector(t.text), t.span)]
        case PseudoElement(t) => [Use(Selector(t.text), t.span)]
        case NestingSelector(s) => [Use(Selector("nesting"), s)]
        case OtherSelector => [];
      head + SelectorUses(selector[1..])
  }

  /** Every pseudo-class, pseudo-element and `&` of a selector yields its use. */
  lemma {:induction false} SelectorUsesComplete(selector: seq<SelectorPart>)
    ensures forall i :: 0 <= i < |selector| && (selector[i].PseudoClass? || selector[i].PseudoElement?) ==>
      Use(Selector(selector[i].token.text), selector[i].token.span) in SelectorUses(selector)
    ensures forall i :: 0 <= i < |selector| && selector[i].NestingSelector? ==>
      Use(Selector("nesting"), selector[i].span) in SelectorUses(selector)
    decreases selector
  {
    if selector != [] {
      SelectorUsesComplete(selector[1..]);
      assert forall i :: 1 <= i < |selector| ==> selector[i] == selector[1..][i - 1];
    }
  }

  /** Every use of a selector comes from one of its pseudo-classes,
      pseudo-elements or `&` components, at that component's span. */
  lemma {:induction false} SelectorUsesSound(selector: seq<SelectorPart>)
    ensures forall u :: u in SelectorUses(selector) ==>
      (PseudoClass(Token(u.feature.name, u.span)) in selector ||
       PseudoElement(Token(u.feature.name, u.span)) in selector ||
       (u.feature.name == "nesting" && NestingSelector(u.span) in selector))
    decreases selector
  {
    if selector != [] {
      SelectorUsesSound(selector[1..]);
      assert selector == [selector[0]] + selector[1..];
    }
  }

  /** The uses of consecutive selector components are those of each, in order. */
  lemma {:induction false} SelectorUsesAppend(a: seq<SelectorPart>, b: seq<SelectorPart>)
    ensures SelectorUses(a + b) == SelectorUses(a) + SelectorUses(b)
    decreases a
  {
    if a == [] {
      assert a + b == b;
    } else {
      assert (a + b)[0] == a[0];
      assert (a + b)[1..] == a[1..] + b;
      SelectorUsesAppend(a[1..], b);
    }
  }

  predicate IsSupports(name: string) {
    LowerStr(name) == "supports"
  }

  predicate IsMedia(name: string) {
    LowerStr(name) == "media"
  }

  /** The at-rule itself and, for `@media` in any letter case, one media
      condition per parenthesised feature, in order. */
  function AtRuleUses(name: Token, prelude: Prelude): (us: seq<Use>)
    ensures |us| >= 1 && us[0] == Use(AtRule(name.text), name.span)
    ensures forall i :: 1 <= i < |us| ==> us[i].feature.MediaCondition?
    ensures !(IsMedia(name.text) && prelude.MediaPrelude?) ==> |us| == 1
    ensures IsMedia(name.text) && prelude.MediaPrelude? ==>
      |us| == 1 + |prelude.features| &&
      forall i :: 0 <= i < |prelude.features| ==>
        us[i + 1] == Use(MediaCondition(prelude.features[i].text), prelude.features[i].span)
  {
    [Use(AtRule(name.text), name.span)] +
    if IsMedia(name.text) && prelude.MediaPrelude? then MediaUses(prelude.features) else []
  }

  function MediaUses(features: seq<Token>): (us: seq<Use>)
    ensures |us| == |features|
    ensures forall i :: 0 <= i < |us| ==> us[i] == Use(MediaCondition(features[i].text), features[i].span)
  {
    if features == [] then []
    else [Use(MediaCondition(features[0].text), features[0].span)] + MediaUses(features[1..])
  }
}
