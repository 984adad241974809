/**
 * The statement side of the tree (ast.hpp:25-275): blocks of statements and
 * the statement kinds that exist to be macro-expanded. A `Block`, which the
 * parser grows in place, is a class; every other statement is a case of the
 * `StatementKind` datatype, wrapped with the `isUnnestable` flag every
 * statement carries.
 */
module Statements {
  import Values
  import ParameterLists
  import Selectors

  datatype DefinitionType = Mixin | Function

  datatype StatementKind =
    | Ruleset(selector: Selectors.Selector, block: Block)
    | Propset(propertyFragment: Values.String, block: Block)
    | MediaQuery(query: Values.Value, block: Block)
    | Directive(keyword: string, directiveSelector: Selectors.Selector, optionalBlock: Block?)
    | Declaration(property: Values.String, values: Values.List)
    | Assignment(variable: string, value: Values.Value, isGuarded: bool)
    | Import(location: Values.String)
    | Warning(message: Values.String)
    | Comment(text: Values.String)
    | If(condition: Values.Value, consequent: Block, alternative: Block?)
    | For(variable: string, lowerBound: Values.Value, upperBound: Values.Value, block: Block, isInclusive: bool)
    | Each(variable: string, list: Values.Value, block: Block)
    | While(condition: Values.Value, block: Block)
    | Extend(selector: Selectors.Selector)
    | Definition(kind: DefinitionType, name: string, parameters: ParameterLists.Parameters, block: Block)
    | MixinCall(name: string, arguments: Values.Arguments, optionalBlock: Block?)

  /**
   * A statement: a nested block (a `Block` is itself a statement and keeps
   * its own flag), or any other kind with its `isUnnestable` flag.
   */
  datatype Statement =
    | Nested(nested: Block)
    | Node(kind: StatementKind, isUnnestable: bool)

  /**
   * The statement constructors: a ruleset is created unnestable, every other
   * statement nestable.
   */
  function NewStatement(kind: StatementKind): (s: Statement)
    ensures s.Node? && s.kind == kind
    ensures s.isUnnestable <==> kind.Ruleset?
  {
    Node(kind, kind.Ruleset?)
  }

  /** An ordered block of statements; `isRoot` marks the document's top-level block. */
  class Block {
    var statements: seq<Statement>
    var isRoot: bool
    var isUnnestable: bool

    /** `size` is only a capacity hint; the defaults are the source's. */
    constructor (size: nat := 0, root: bool := false)
      ensures statements == [] && isRoot == root && !isUnnestable
    {
      statements := [];
      isRoot := root;
      isUnnestable := false;
    }

    function Length(): nat
      reads this
    {
      |statements|
    }

    function At(i: nat): Statement
      reads this
      requires i < |statements|
    {
      statements[i]
    }

    /** Assignment through the reference `operator[]` returns. */
    method Put(i: nat, s: Statement)
      requires i < |statements|
      modifies this`statements
      ensures statements == old(statements)[i := s]
      ensures Length() == old(Length())
    {
      statements := statements[i := s];
    }

    /** `operator<<`: one more statement at the end; `isRoot` and `isUnnestable` stay. */
    method Append(s: Statement)
      modifies this`statements
      ensures statements == old(statements) + [s]
      ensures Length() == old(Length()) + 1 && At(Length() - 1) == s
      ensures forall i :: 0 <= i < old(Length()) ==> At(i) == old(At(i))
    {
      statements := statements + [s];
    }

    /**
     * `operator+=`: the other block's statements, in order, after this
     * block's, without copying them. The other block's length is read
     * before the loop, so `b += b` doubles `b`.
     */
    method Concat(other: Block)
      modifies this`statements
      ensures statements == old(statements) + old(other.statements)
      ensures other == this ==> statements == old(statements) + old(statements)
      ensures other != this ==> other.statements == old(other.statements)
    {
      ghost var src := other.statements;
      var i, n := 0, |other.statements|;
      while i < n
        invariant 0 <= i <= n == |src|
        invariant other == this ==> src == old(statements)
        invariant statements == old(statements) + src[..i]
        invariant other != this ==> other.statements == src
      {
        statements := statements + [other.statements[i]];
        i := i + 1;
      }
    }
  }
}
