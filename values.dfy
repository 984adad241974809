/**
 * The value side of the tree (ast.hpp:282-473) and the call-site argument
 * lists (ast.hpp:534-584). The two live in one module because they refer to
 * each other: a function call holds an argument list and an argument holds
 * a value.
 *
 * Values that the source only constructs become cases of the `Value`
 * datatype; `List` and `String`, which the parser grows in place, are
 * classes whose element vector is a `seq` field that the builders reassign.
 */
module Values {
  import opened Ordering

  /** The raw IEEE-754 bit pattern of a C++ `double`; the model never does arithmetic on it. */
  type Float64 = bv64

  /** The bit pattern of 1.0, the default alpha of a `Color`. */
  const OneBits: Float64 := 0x3FF0_0000_0000_0000

  datatype BinaryOperator =
    | And | Or                              // logical connectives
    | Eq | Neq | Gt | Gte | Lt | Lte        // relations
    | Add | Sub | Mul | Div                 // arithmetic

  datatype TextualType = NumberText | PercentageText | DimensionText | HexText

  datatype Separator = Space | Comma

  /**
   * A value node. `List` and `String` objects carry their own `delayed` and
   * `parenthesized` fields; every other kind carries them in `Node`.
   */
  datatype Value =
    | ListValue(list: List)
    | StringValue(str: String)
    | Node(node: ValueNode, delayed: bool, parenthesized: bool)

  datatype ValueNode =
    | BinaryExpression(op: BinaryOperator, left: Value, right: Value)
    | Negation(operand: Value)
    | FunctionCall(callee: String, arguments: Arguments)
    | Variable(name: string)
    | Textual(kind: TextualType, text: string)
    | Number(value: Float64)
    | Percentage(value: Float64)
    | Dimension(value: Float64, numeratorUnits: seq<string>, denominatorUnits: seq<string>)
    | Color(r: Float64, g: Float64, b: Float64, a: Float64)
    | Boolean(truth: bool)
    | Token(text: string)

  /** The `Value` base constructor: a new value is neither delayed nor parenthesized. */
  function NewValue(node: ValueNode): (v: Value)
    ensures v.Node? && v.node == node
    ensures !v.delayed && !v.parenthesized
  {
    Node(node, false, false)
  }

  /** A dimension starts with the one unit it was given as numerator and no denominator. */
  function NewDimension(value: Float64, unit: string): (v: Value)
    ensures v.Node? && v.node.Dimension? && v.node.value == value
    ensures v.node.numeratorUnits == [unit] && v.node.denominatorUnits == []
    ensures !v.delayed && !v.parenthesized
  {
    NewValue(Dimension(value, [unit], []))
  }

  /** A color given only r, g and b is fully opaque. */
  function NewOpaqueColor(r: Float64, g: Float64, b: Float64): (v: Value)
    ensures v.Node? && v.node == Color(r, g, b, OneBits)
    ensures !v.delayed && !v.parenthesized
  {
    NewValue(Color(r, g, b, OneBits))
  }

  /** A comma- or space-separated list of values, possibly a variable-length argument bundle. */
  class List {
    var values: seq<Value>
    var separator: Separator
    var isArglist: bool
    var delayed: bool
    var parenthesized: bool

    /** `size` is only a capacity hint; the defaults are the source's. */
    constructor (size: nat := 0, sep: Separator := Space, argl: bool := false)
      ensures values == [] && separator == sep && isArglist == argl
      ensures !delayed && !parenthesized
    {
      values := [];
      separator := sep;
      isArglist := argl;
      delayed, parenthesized := false, false;
    }

    function Length(): nat
      reads this
    {
      |values|
    }

    function At(i: nat): Value
      reads this
      requires i < |values|
    {
      values[i]
    }

    /** Assignment through the reference `operator[]` returns. */
    method Put(i: nat, v: Value)
      requires i < |values|
      modifies this`values
      ensures values == old(values)[i := v]
      ensures Length() == old(Length())
    {
      values := values[i := v];
    }

    /** `operator<<`: one more value at the end, nothing else changes. */
    method Append(v: Value)
      modifies this`values
      ensures values == old(values) + [v]
      ensures Length() == old(Length()) + 1 && At(Length() - 1) == v
      ensures forall i :: 0 <= i < old(Length()) ==> At(i) == old(At(i))
    {
      values := values + [v];
    }

    /**
     * `operator+=`: the other list's values, in order, after this one's.
     * The other list's length is read before the loop, so `l += l` doubles `l`.
     */
    method Concat(other: List)
      modifies this`values
      ensures values == old(values) + old(other.values)
      ensures other == this ==> values == old(values) + old(values)
      ensures other != this ==> other.values == old(other.values)
    {
      ghost var src := other.values;
      var i, n := 0, |other.values|;
      while i < n
        invariant 0 <= i <= n == |src|
        invariant other == this ==> src == old(values)
        invariant values == old(values) + src[..i]
        invariant other != this ==> other.values == src
      {
        values := values + [other.values[i]];
        i := i + 1;
      }
    }
  }

  /**
   * A Sass string: quoted strings and all other literal text, as an ordered
   * sequence of fragments that may mix literal text and interpolated values.
   */
  class String {
    var fragments: seq<Value>
    var isQuoted: bool
    var isInterpolated: bool
    var delayed: bool
    var parenthesized: bool

    /** `size` is only a capacity hint; the defaults are the source's. */
    constructor (size: nat := 0, q: bool := false, i: bool := false)
      ensures fragments == [] && isQuoted == q && isInterpolated == i
      ensures !delayed && !parenthesized
    {
      fragments := [];
      isQuoted, isInterpolated := q, i;
      delayed, parenthesized := false, false;
    }

    function Length(): nat
      reads this
    {
      |fragments|
    }

    function At(i: nat): Value
      reads this
      requires i < |fragments|
    {
      fragments[i]
    }

    /** Assignment through the reference `operator[]` returns. */
    method Put(i: nat, v: Value)
      requires i < |fragments|
      modifies this`fragments
      ensures fragments == old(fragments)[i := v]
      ensures Length() == old(Length())
    {
      fragments := fragments[i := v];
    }

    /** `operator<<`: one more fragment at the end; the quoting and interpolation flags stay. */
    method Append(v: Value)
      modifies this`fragments
      ensures fragments == old(fragments) + [v]
      ensures Length() == old(Length()) + 1 && At(Length() - 1) == v
      ensures forall i :: 0 <= i < old(Length()) ==> At(i) == old(At(i))
    {
      fragments := fragments + [v];
    }

    /** `operator+=`: the other string's fragments, in order; `s += s` doubles `s`. */
    method Concat(other: String)
      modifies this`fragments
      ensures fragments == old(fragments) + old(other.fragments)
      ensures other == this ==> fragments == old(fragments) + old(fragments)
      ensures other != this ==> other.fragments == old(other.fragments)
    {
      ghost var src := other.fragments;
      var i, n := 0, |other.fragments|;
      while i < n
        invariant 0 <= i <= n == |src|
        invariant other == this ==> src == old(fragments)
        invariant fragments == old(fragments) + src[..i]
        invariant other != this ==> other.fragments == src
      {
        fragments := fragments + [other.fragments[i]];
        i := i + 1;
      }
    }
  }

  /*
   * Arguments mirror `ParameterLists`: `Arguments::operator<<` repeats the
   * branches of `Parameters::operator<<` with a non-empty name in place of a
   * default value. The shared check lives in `Ordering`; the definitions and
   * lemmas below (`Slots`, `Summarises`, `ArgumentFlags`,
   * `ArgumentViolationsAt`, `ArgumentsCleanIff`) restate its results in terms
   * of arguments, as the parameter-side ones do in terms of parameters,
   * because the two element types classify differently.
   */

  /** An actual argument: a value, a name (empty when positional) and a rest flag. */
  datatype Argument = Argument(value: Value, name: string, isRestArgument: bool)

  /** The `Argument` constructor's marked error: a named argument that is also a rest argument. */
  predicate NamedRest(a: Argument)
  {
    a.name != "" && a.isRestArgument
  }

  /** How `Arguments::operator<<` classifies an argument: by name first, then by the rest flag. */
  function SlotOf(a: Argument): (s: Slot)
    ensures s == Keyed <==> a.name != ""
    ensures s == Rest <==> a.name == "" && a.isRestArgument
    ensures s == Plain <==> a.name == "" && !a.isRestArgument
  {
    if a.name != "" then Keyed
    else if a.isRestArgument then Rest
    else Plain
  }

  /** The kinds of the elements of a list, in order. */
  function Slots(args: seq<Argument>): (r: seq<Slot>)
    ensures |r| == |args|
    ensures forall i :: 0 <= i < |args| ==> r[i] == SlotOf(args[i])
  {
    seq(|args|, i requires 0 <= i < |args| => SlotOf(args[i]))
  }

  /** The flags an argument list should hold for its contents. */
  ghost predicate Summarises(args: seq<Argument>, hasNamed: bool, hasRest: bool)
  {
    && (hasNamed <==> exists a | a in args :: a.name != "")
    && (hasRest <==> exists a | a in args :: a.name == "" && a.isRestArgument)
  }

  /** A call's actual-argument list with the two running flags of its ordering check. */
  class Arguments {
    var list: seq<Argument>
    var hasNamedArguments: bool
    var hasRestArgument: bool

    /** The flags agree with the contents. */
    ghost predicate Valid()
      reads this
    {
      Summarises(list, hasNamedArguments, hasRestArgument)
    }

    constructor ()
      ensures list == [] && !hasNamedArguments && !hasRestArgument
      ensures Valid()
    {
      list := [];
      hasNamedArguments, hasRestArgument := false, false;
    }

    function Length(): nat
      reads this
    {
      |list|
    }

    function At(i: nat): Argument
      reads this
      requires i < |list|
    {
      list[i]
    }

    /**
     * `operator<<`: always appends; a named argument sets `hasNamedArguments`,
     * an unnamed rest argument sets `hasRestArgument`, and `violations` holds
     * the error branches the append went through.
     */
    method Append(a: Argument) returns (violations: set<Violation>)
      modifies this
      ensures list == old(list) + [a]
      ensures hasNamedArguments == (old(hasNamedArguments) || a.name != "")
      ensures hasRestArgument == (old(hasRestArgument) || (a.name == "" && a.isRestArgument))
      ensures violations == Violations(Seen(old(hasNamedArguments), old(hasRestArgument)), SlotOf(a))
      ensures old(Valid()) ==> Valid()
      ensures old(Valid()) ==> violations == ViolationsAt(Slots(list), |old(list)|)
    {
      ghost var before := list;
      ArgumentFlags(list, hasNamedArguments, hasRestArgument);
      violations := {};
      if a.name != "" {
        if hasRestArgument {
          violations := violations + {AfterRest};
        }
        hasNamedArguments := true;
      } else if a.isRestArgument {
        if hasRestArgument {
          violations := violations + {AfterRest};
        }
        if hasNamedArguments {
          violations := violations + {RestAfterKeyed};
        }
        hasRestArgument := true;
      } else {
        if hasRestArgument {
          violations := violations + {AfterRest};
        }
        if hasNamedArguments {
          violations := violations + {PlainAfterKeyed};
        }
      }
      list := list + [a];
      assert Slots(list)[..|before|] == Slots(before);
    }
  }

  /**
   * The running flags after any sequence of appends are exactly the ones
   * the contents call for: `Valid()` holds of a list built by appends alone.
   */
  lemma ArgumentFlags(args: seq<Argument>, hasNamed: bool, hasRest: bool)
    ensures Summarises(args, hasNamed, hasRest) <==> Replay(Slots(args)) == Seen(hasNamed, hasRest)
  {
    var slots := Slots(args);
    ReplayFlags(slots);
    if Keyed in slots {
      var i :| 0 <= i < |slots| && slots[i] == Keyed;
      assert args[i] in args;
    }
    if Rest in slots {
      var i :| 0 <= i < |slots| && slots[i] == Rest;
      assert args[i] in args;
    }
  }

  /**
   * The errors the k-th append marks: any argument after a rest argument;
   * an unnamed rest argument after a named one; a positional argument after
   * a named one.
   */
  lemma ArgumentViolationsAt(args: seq<Argument>, k: nat)
    requires k < |args|
    ensures AfterRest in ViolationsAt(Slots(args), k) <==>
      exists i :: 0 <= i < k && args[i].name == "" && args[i].isRestArgument
    ensures RestAfterKeyed in ViolationsAt(Slots(args), k) <==>
      args[k].name == "" && args[k].isRestArgument && exists i :: 0 <= i < k && args[i].name != ""
    ensures PlainAfterKeyed in ViolationsAt(Slots(args), k) <==>
      args[k].name == "" && !args[k].isRestArgument && exists i :: 0 <= i < k && args[i].name != ""
  {
    var slots := Slots(args);
    ViolationsAtCharacterized(slots, k);
    if Rest in slots[..k] {
      var i :| 0 <= i < k && slots[..k][i] == Rest;
      assert slots[i] == Rest;
    }
    if Keyed in slots[..k] {
      var i :| 0 <= i < k && slots[..k][i] == Keyed;
      assert slots[i] == Keyed;
    }
    if exists i :: 0 <= i < k && args[i].name == "" && args[i].isRestArgument {
      var i :| 0 <= i < k && args[i].name == "" && args[i].isRestArgument;
      assert slots[..k][i] == Rest;
    }
    if exists i :: 0 <= i < k && args[i].name != "" {
      var i :| 0 <= i < k && args[i].name != "";
      assert slots[..k][i] == Keyed;
    }
  }

  /**
   * Positional arguments first, then either named arguments only or a
   * single unnamed rest argument, which must be last.
   */
  ghost predicate InCallOrder(args: seq<Argument>)
  {
    && (forall i :: 0 <= i < |args| - 1 ==> !(args[i].name == "" && args[i].isRestArgument))
    && (forall i, j :: 0 <= i < j < |args| && args[i].name != "" ==> args[j].name != "")
  }

  /**
   * Appending the arguments one by one marks no error exactly when the
   * positional arguments come first and are followed either by named ones
   * only or by a single unnamed rest argument.
   */
  lemma ArgumentsCleanIff(args: seq<Argument>)
    ensures Clean(Slots(args)) <==> InCallOrder(args)
  {
    var slots := Slots(args);
    CleanIffWellOrdered(slots);
  }

  /**
   * A named rest argument is classified as named by the list, so the list's
   * checks never report it as a rest problem: only the `Argument`
   * constructor's check can catch it.
   */
  lemma NamedRestPassesListCheck(a: Argument, seen: Seen)
    requires NamedRest(a)
    ensures Step(seen, SlotOf(a)) == seen.(keyed := true)
    ensures RestAfterKeyed !in Violations(seen, SlotOf(a))
    ensures !seen.rest ==> Violations(seen, SlotOf(a)) == {}
  {
  }

  /**
   * The call `f(1, 2, key: 3)` followed by one more positional argument: the
   * first three appends mark nothing, the fourth marks a positional argument
   * after a named one.
   */
  method NamedThenPositionalScenario() returns (first: set<Violation>, second: set<Violation>,
                                                 third: set<Violation>, fourth: set<Violation>)
    ensures first == {} && second == {} && third == {}
    ensures fourth == {PlainAfterKeyed}
  {
    var args := new Arguments();
    first := args.Append(Argument(NewValue(Textual(NumberText, "1")), "", false));
    second := args.Append(Argument(NewValue(Textual(NumberText, "2")), "", false));
    third := args.Append(Argument(NewValue(Textual(NumberText, "3")), "key", false));
    fourth := args.Append(Argument(NewValue(Textual(NumberText, "4")), "", false));
  }
}
