/** The already-parsed CSS tree the rule walks. Only the node kinds the rule
    inspects are distinguished; everything else is an `Other…` leaf. Spans are
    attributes the parser supplies: 1-based, end column exclusive. */
module Syntax {

  datatype Span = Span(line: nat, column: nat, endLine: nat, endColumn: nat)

  /** A name as written in the source, with the span of the construct that
      carries it (for an at-rule the span starts at the `@`, for a pseudo-class
      at the `:`). */
  datatype Token = Token(text: string, span: Span)

  /** A component of a declaration value. */
  datatype ValueNode =
    | Identifier(token: Token)
    | FunctionCall(name: Token, span: Span, args: seq<ValueNode>)  // span: name through `)`
    | OtherValue                                                    // numbers, strings, operators, …

  /** A component of a selector. */
  datatype SelectorPart =
    | PseudoClass(token: Token)      // `:has`, `:fullscreen`
    | PseudoElement(token: Token)    // `::details-content`
    | NestingSelector(span: Span)    // `&`
    | OtherSelector                  // type, class, id, combinators, …

  /** The condition of an `@supports` rule. */
  datatype Condition =
    | Not(operand: Condition)
    | And(left: Condition, right: Condition)
    | Or(left: Condition, right: Condition)
    | FeatureTest(property: Token, value: seq<ValueNode>)   // `(property: value)`
    | SelectorTest(selector: seq<SelectorPart>)             // `selector(…)`

  /** What the parser made of an at-rule's prelude. */
  datatype Prelude =
    | SupportsPrelude(condition: Condition)
    | MediaPrelude(features: seq<Token>)   // the feature name of each parenthesised media term, in order
    | OtherPrelude

  /** Stylesheet nodes, named after the parser's node types. */
  datatype Node =
    | Declaration(property: Token, value: seq<ValueNode>)
    | Rule(selector: seq<SelectorPart>, block: seq<Node>)
    | Atrule(name: Token, prelude: Prelude, block: seq<Node>)

  /** A span that lies on one line and is exactly `width` columns wide. */
  predicate Covers(s: Span, width: nat) {
    s.endLine == s.line && s.endColumn == s.column + width
  }
}
