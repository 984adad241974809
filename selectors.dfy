/**
 * The selector side of the tree (ast.hpp:589-735): atomic selectors,
 * compound sequences, combinator chains and comma-separated groups, with
 * the `hasReference`/`hasPlaceholder` flags each level keeps so that later
 * passes need not re-walk a selector to learn whether it holds a parent
 * reference `&` or a placeholder `%name`.
 */
module Selectors {
  import opened Options
  import Values

  /** An atomic selector: an opaque token such as `div` or `.foo`, the parent reference `&`, or a placeholder. */
  datatype SimpleSelector = Simple(selector: string) | Reference | Placeholder

  /** The three fields of a `Sequence`, as a value. */
  datatype SequenceState = SequenceState(selectors: seq<SimpleSelector>, hasReference: bool, hasPlaceholder: bool)

  /** The documented meaning of a sequence's flags: whether it holds a `&` and whether it holds a placeholder. */
  predicate Consistent(st: SequenceState)
  {
    && (st.hasReference <==> Reference in st.selectors)
    && (st.hasPlaceholder <==> Placeholder in st.selectors)
  }

  /** A compound selector such as `div.foo:hover`: atomic selectors with no combinator between them. */
  class Sequence {
    var selectors: seq<SimpleSelector>
    var hasReference: bool
    var hasPlaceholder: bool

    function State(): SequenceState
      reads this
    {
      SequenceState(selectors, hasReference, hasPlaceholder)
    }

    /** The flags say whether the sequence holds a `&` and whether it holds a placeholder. */
    ghost predicate Valid()
      reads this
    {
      Consistent(State())
    }

    /** `size` is only a capacity hint. */
    constructor (size: nat)
      ensures selectors == [] && !hasReference && !hasPlaceholder
      ensures Valid()
    {
      selectors := [];
      hasReference, hasPlaceholder := false, false;
    }

    function Length(): nat
      reads this
    {
      |selectors|
    }

    function At(i: nat): SimpleSelector
      reads this
      requires i < |selectors|
    {
      selectors[i]
    }

    /** Assignment through the reference `operator[]` returns; the flags are not recomputed. */
    method Put(i: nat, s: SimpleSelector)
      requires i < |selectors|
      modifies this`selectors
      ensures selectors == old(selectors)[i := s]
    {
      selectors := selectors[i := s];
    }

    /**
     * `operator<<` as its three overloads are documented: a `&` sets
     * `hasReference` and a placeholder sets `hasPlaceholder`, then the
     * selector is pushed. Flags are never cleared.
     */
    method Append(s: SimpleSelector)
      modifies this`selectors, this`hasReference, this`hasPlaceholder
      ensures selectors == old(selectors) + [s]
      ensures hasReference == (old(hasReference) || s == Reference)
      ensures hasPlaceholder == (old(hasPlaceholder) || s == Placeholder)
      ensures old(Valid()) ==> Valid()
    {
      match s {
        case Reference =>
          hasReference := true;
        case Placeholder =>
          hasPlaceholder := true;
        case Simple(_) =>
      }
      selectors := selectors + [s];
    }

    /**
     * `operator+=`: re-appends the other sequence's selectors, in order, each
     * through `Append`, so the flags follow the appended selectors. The
     * other sequence's length is read first, so `s += s` doubles `s`.
     */
    method Concat(other: Sequence)
      modifies this`selectors, this`hasReference, this`hasPlaceholder
      ensures selectors == old(selectors) + old(other.selectors)
      ensures hasReference == (old(hasReference) || Reference in old(other.selectors))
      ensures hasPlaceholder == (old(hasPlaceholder) || Placeholder in old(other.selectors))
      ensures old(Valid()) ==> Valid()
    {
      ghost var src := other.selectors;
      var i, n := 0, |other.selectors|;
      while i < n
        invariant 0 <= i <= n == |src|
        invariant other == this ==> src == old(selectors)
        invariant selectors == old(selectors) + src[..i]
        invariant other != this ==> other.selectors == src
        invariant hasReference == (old(hasReference) || Reference in src[..i])
        invariant hasPlaceholder == (old(hasPlaceholder) || Placeholder in src[..i])
      {
        assert src[..i + 1] == src[..i] + [src[i]];
        Append(other.selectors[i]);
        i := i + 1;
      }
      assert src[..n] == src;
    }
  }

  /**
   * `Sequence::operator<<(Reference*)` and `operator<<(Placeholder*)` as
   * written: set the flag, then call `(*this) << s` with the same static
   * type, which selects the same overload again. Each call uses one unit of
   * `fuel`; `None` means the fuel ran out before any call returned. This
   * only records the shape of the code as written: that the call selects
   * itself is a fact of C++ overload resolution (`Reference` and
   * `Placeholder` derive from `Simple_Base`, not from `Simple`), which
   * Dafny cannot check.
   */
  function AppendMarkerAsWritten(st: SequenceState, marker: SimpleSelector, fuel: nat): Option<SequenceState>
    requires !marker.Simple?
    decreases fuel
  {
    if fuel == 0 then None
    else
      var flagged := if marker == Reference then st.(hasReference := true) else st.(hasPlaceholder := true);
      AppendMarkerAsWritten(flagged, marker, fuel - 1)
  }

  /**
   * As written, appending a `&` or a placeholder never returns and never
   * pushes, whatever the bound: a consequence of the recorded shape, not
   * independent evidence for it.
   */
  lemma {:induction false} AppendMarkerAsWrittenNeverReturns(st: SequenceState, marker: SimpleSelector, fuel: nat)
    requires !marker.Simple?
    ensures AppendMarkerAsWritten(st, marker, fuel) == None
    decreases fuel
  {
    if fuel > 0 {
      var flagged := if marker == Reference then st.(hasReference := true) else st.(hasPlaceholder := true);
      AppendMarkerAsWrittenNeverReturns(flagged, marker, fuel - 1);
    }
  }

  /**
   * `Sequence::operator+=` as written: each selector is re-appended through
   * the `Simple*` overload, which pushes and leaves both flags alone.
   */
  function ConcatAsWritten(st: SequenceState, other: seq<SimpleSelector>): (r: SequenceState)
    ensures r.selectors == st.selectors + other
    ensures r.hasReference == st.hasReference && r.hasPlaceholder == st.hasPlaceholder
    decreases |other|
  {
    if other == [] then st
    else ConcatAsWritten(st.(selectors := st.selectors + [other[0]]), other[1..])
  }

  /**
   * Once a sequence can hold a `&`, the as-written `+=` loses it: appending a
   * sequence that holds a `&` to one that does not leaves the flags
   * contradicting the contents.
   */
  lemma ConcatAsWrittenLosesReference(st: SequenceState, other: seq<SimpleSelector>)
    requires Consistent(st) && !st.hasReference && Reference in other
    ensures !Consistent(ConcatAsWritten(st, other))
  {
  }

  /** The four CSS combinators: descendant (whitespace), child `>`, general sibling `~`, adjacent sibling `+`. */
  datatype Combinator = AncestorOf | ParentOf | Precedes | AdjacentTo

  /**
   * One step of a left-associative combinator chain: `context` (possibly
   * absent) is related to `selector` (possibly null) by `combinator`.
   */
  datatype Combination = Combination(
    combinator: Combinator,
    context: Option<Combination>,
    selector: Sequence?,
    hasReference: bool,
    hasPlaceholder: bool)

  /**
   * The `Combination` constructor: the flags are computed once, from the
   * context's and the sequence's flags as they are at this moment, treating
   * an absent context or a null sequence as contributing nothing.
   */
  function NewCombination(c: Combinator, ctx: Option<Combination>, sel: Sequence?): (r: Combination)
    reads sel
    ensures r.combinator == c && r.context == ctx && r.selector == sel
    ensures r.hasReference <==> (ctx.Some? && ctx.value.hasReference) || (sel != null && sel.hasReference)
    ensures r.hasPlaceholder <==> (ctx.Some? && ctx.value.hasPlaceholder) || (sel != null && sel.hasPlaceholder)
  {
    Combination(c, ctx, sel,
      (ctx.Some? && ctx.value.hasReference) || (sel != null && sel.hasReference),
      (ctx.Some? && ctx.value.hasPlaceholder) || (sel != null && sel.hasPlaceholder))
  }

  /** The sequences along a combinator chain. */
  ghost function ChainSequences(c: Combination): set<Sequence>
  {
    (if c.selector == null then {} else {c.selector}) +
    (if c.context.Some? then ChainSequences(c.context.value) else {})
  }

  /** Some sequence along the chain holds `marker`. */
  ghost predicate ChainContains(c: Combination, marker: SimpleSelector)
    reads ChainSequences(c)
  {
    || (c.selector != null && marker in c.selector.selectors)
    || (c.context.Some? && ChainContains(c.context.value, marker))
  }

  /** The flags of a combination say what its whole chain, down to the atomic selectors, holds. */
  ghost predicate Derived(c: Combination)
    reads ChainSequences(c)
  {
    && (c.hasReference <==> ChainContains(c, Reference))
    && (c.hasPlaceholder <==> ChainContains(c, Placeholder))
  }

  /**
   * Built from a context whose flags are right and a sequence whose flags
   * are right, a combination's flags are right all the way to the leaves.
   */
  lemma NewCombinationDerived(c: Combinator, ctx: Option<Combination>, sel: Sequence?)
    requires ctx.Some? ==> Derived(ctx.value)
    requires sel != null ==> sel.Valid()
    ensures Derived(NewCombination(c, ctx, sel))
  {
  }

  /** Whether any combination in `cs` has its reference flag set. */
  predicate AnyReference(cs: seq<Combination>)
  {
    exists c | c in cs :: c.hasReference
  }

  /** Whether any combination in `cs` has its placeholder flag set. */
  predicate AnyPlaceholder(cs: seq<Combination>)
  {
    exists c | c in cs :: c.hasPlaceholder
  }

  /** A comma-separated selector group: alternative combinator chains. */
  class Group {
    var selectors: seq<Combination>
    var hasReference: bool
    var hasPlaceholder: bool

    /** Each flag is the OR of the members' flags. */
    ghost predicate Valid()
      reads this
    {
      && (hasReference <==> AnyReference(selectors))
      && (hasPlaceholder <==> AnyPlaceholder(selectors))
    }

    /** `size` is only a capacity hint; it defaults to 0, as in the source. */
    constructor (size: nat := 0)
      ensures selectors == [] && !hasReference && !hasPlaceholder
      ensures Valid()
    {
      selectors := [];
      hasReference, hasPlaceholder := false, false;
    }

    function Length(): nat
      reads this
    {
      |selectors|
    }

    function At(i: nat): Combination
      reads this
      requires i < |selectors|
    {
      selectors[i]
    }

    /** Assignment through the reference `operator[]` returns; the flags are not recomputed. */
    method Put(i: nat, c: Combination)
      requires i < |selectors|
      modifies this`selectors
      ensures selectors == old(selectors)[i := c]
    {
      selectors := selectors[i := c];
    }

    /** `operator<<`: pushes the combination and ORs its flags into the group's; flags are never cleared. */
    method Append(c: Combination)
      modifies this
      ensures selectors == old(selectors) + [c]
      ensures hasReference == (old(hasReference) || c.hasReference)
      ensures hasPlaceholder == (old(hasPlaceholder) || c.hasPlaceholder)
      ensures old(Valid()) ==> Valid()
    {
      selectors := selectors + [c];
      hasReference := hasReference || c.hasReference;
      hasPlaceholder := hasPlaceholder || c.hasPlaceholder;
    }

    /**
     * `operator+=`: re-appends every member of `g`, in order, through
     * `Append`, so the flags accumulate as well; `g += g` doubles `g`.
     */
    method Concat(g: Group)
      modifies this
      ensures selectors == old(selectors) + old(g.selectors)
      ensures hasReference == (old(hasReference) || AnyReference(old(g.selectors)))
      ensures hasPlaceholder == (old(hasPlaceholder) || AnyPlaceholder(old(g.selectors)))
      ensures old(Valid()) ==> Valid()
    {
      ghost var src := g.selectors;
      var i, n := 0, |g.selectors|;
      while i < n
        invariant 0 <= i <= n == |src|
        invariant g == this ==> src == old(selectors)
        invariant selectors == old(selectors) + src[..i]
        invariant g != this ==> g.selectors == src
        invariant hasReference == (old(hasReference) || AnyReference(src[..i]))
        invariant hasPlaceholder == (old(hasPlaceholder) || AnyPlaceholder(src[..i]))
      {
        assert src[..i + 1] == src[..i] + [src[i]];
        Append(g.selectors[i]);
        i := i + 1;
      }
      assert src[..n] == src;
    }
  }

  /**
   * When every member's flags are right down to the leaves, so are the
   * group's: it holds a `&` (a placeholder) exactly when some alternative does.
   */
  lemma GroupFlagsFromLeaves(g: Group)
    requires g.Valid()
    requires forall c | c in g.selectors :: Derived(c)
    ensures g.hasReference <==> exists c | c in g.selectors :: ChainContains(c, Reference)
    ensures g.hasPlaceholder <==> exists c | c in g.selectors :: ChainContains(c, Placeholder)
  {
  }

  /** Any selector node. */
  datatype Selector =
    | Interpolated(contents: Values.String)
    | Atomic(simple: SimpleSelector)
    | SequenceNode(sequence: Sequence)
    | CombinationNode(combination: Combination)
    | GroupNode(group: Group)

  /**
   * The selector `a > b, & .foo` built bottom-up: the group holds a parent
   * reference (from the second alternative) and no placeholder.
   */
  method ReferenceGroupScenario() returns (hasReference: bool, hasPlaceholder: bool)
    ensures hasReference && !hasPlaceholder
  {
    var a := new Sequence(1);
    a.Append(Simple("a"));
    var b := new Sequence(1);
    b.Append(Simple("b"));
    var first := NewCombination(ParentOf, Some(NewCombination(AncestorOf, None, a)), b);

    var amp := new Sequence(1);
    amp.Append(Reference);
    var foo := new Sequence(1);
    foo.Append(Simple(".foo"));
    var second := NewCombination(AncestorOf, Some(NewCombination(AncestorOf, None, amp)), foo);

    var group := new Group(2);
    group.Append(first);
    group.Append(second);
    hasReference, hasPlaceholder := group.hasReference, group.hasPlaceholder;
  }
}
