/**
 * Formal parameters of mixin and function definitions (ast.hpp:478-529):
 * a parameter list appends every parameter it is given and keeps the two
 * running flags its ordering check reads.
 */
module ParameterLists {
  import opened Options
  import opened Ordering
  import Values

  /** A formal parameter: a name, an optional default value and a rest flag. */
  datatype Parameter = Parameter(name: string, defaultValue: Option<Values.Value>, isRestParameter: bool)

  /** The error the `Parameter` constructor leaves as a to-do: a default value on a rest parameter. */
  predicate DefaultedRest(p: Parameter)
  {
    p.defaultValue.Some? && p.isRestParameter
  }

  /** A rest parameter as `Parameters::operator<<` sees it: flagged rest and without a default. */
  predicate IsRest(p: Parameter)
  {
    p.defaultValue.None? && p.isRestParameter
  }

  /** How `Parameters::operator<<` classifies a parameter: by its default first, then by the rest flag. */
  function SlotOf(p: Parameter): (s: Slot)
    ensures s == Keyed <==> p.defaultValue.Some?
    ensures s == Rest <==> IsRest(p)
    ensures s == Plain <==> p.defaultValue.None? && !p.isRestParameter
  {
    if p.defaultValue.Some? then Keyed
    else if p.isRestParameter then Rest
    else Plain
  }

  /** The kinds of the elements of a list, in order. */
  function Slots(ps: seq<Parameter>): (r: seq<Slot>)
    ensures |r| == |ps|
    ensures forall i :: 0 <= i < |ps| ==> r[i] == SlotOf(ps[i])
  {
    seq(|ps|, i requires 0 <= i < |ps| => SlotOf(ps[i]))
  }

  /** The flags a parameter list should hold for its contents. */
  ghost predicate Summarises(ps: seq<Parameter>, hasOptional: bool, hasRest: bool)
  {
    && (hasOptional <==> exists p | p in ps :: p.defaultValue.Some?)
    && (hasRest <==> exists p | p in ps :: IsRest(p))
  }

  /**
   * Required parameters first, then either optional parameters only or a
   * single rest parameter, which must be last.
   */
  ghost predicate InDefinitionOrder(ps: seq<Parameter>)
  {
    && (forall i :: 0 <= i < |ps| - 1 ==> !IsRest(ps[i]))
    && (forall i, j :: 0 <= i < j < |ps| && ps[i].defaultValue.Some? ==> ps[j].defaultValue.Some?)
  }

  /** A definition's formal-parameter list with the two running flags of its ordering check. */
  class Parameters {
    var list: seq<Parameter>
    var hasOptionalParameters: bool
    var hasRestParameter: bool

    /** The flags agree with the contents. */
    ghost predicate Valid()
      reads this
    {
      Summarises(list, hasOptionalParameters, hasRestParameter)
    }

    constructor ()
      ensures list == [] && !hasOptionalParameters && !hasRestParameter
      ensures Valid()
    {
      list := [];
      hasOptionalParameters, hasRestParameter := false, false;
    }

    function Length(): nat
      reads this
    {
      |list|
    }

    function At(i: nat): Parameter
      reads this
      requires i < |list|
    {
      list[i]
    }

    /**
     * `operator<<`: always appends. A parameter with a default sets
     * `hasOptionalParameters`, even when it is also flagged rest; a rest
     * parameter without a default sets `hasRestParameter`; neither flag is
     * ever cleared. `violations` holds the error branches the append went
     * through.
     */
    method Append(p: Parameter) returns (violations: set<Violation>)
      modifies this
      ensures list == old(list) + [p]
      ensures hasOptionalParameters == (old(hasOptionalParameters) || p.defaultValue.Some?)
      ensures hasRestParameter == (old(hasRestParameter) || IsRest(p))
      ensures violations == Violations(Seen(old(hasOptionalParameters), old(hasRestParameter)), SlotOf(p))
      ensures old(Valid()) ==> Valid()
      ensures old(Valid()) ==> violations == ViolationsAt(Slots(list), |old(list)|)
    {
      ghost var before := list;
      ParameterFlags(list, hasOptionalParameters, hasRestParameter);
      violations := {};
      if p.defaultValue.Some? {
        if hasRestParameter {
          violations := violations + {AfterRest};
        }
        hasOptionalParameters := true;
      } else if p.isRestParameter {
        if hasRestParameter {
          violations := violations + {AfterRest};
        }
        if hasOptionalParameters {
          violations := violations + {RestAfterKeyed};
        }
        hasRestParameter := true;
      } else {
        if hasRestParameter {
          violations := violations + {AfterRest};
        }
        if hasOptionalParameters {
          violations := violations + {PlainAfterKeyed};
        }
      }
      list := list + [p];
      assert Slots(list)[..|before|] == Slots(before);
    }
  }

  /**
   * The running flags after any sequence of appends are exactly the ones
   * the contents call for: `Valid()` holds of a list built by appends alone.
   */
  lemma ParameterFlags(ps: seq<Parameter>, hasOptional: bool, hasRest: bool)
    ensures Summarises(ps, hasOptional, hasRest) <==> Replay(Slots(ps)) == Seen(hasOptional, hasRest)
  {
    var slots := Slots(ps);
    ReplayFlags(slots);
    if Keyed in slots {
      var i :| 0 <= i < |slots| && slots[i] == Keyed;
      assert ps[i] in ps;
    }
    if Rest in slots {
      var i :| 0 <= i < |slots| && slots[i] == Rest;
      assert ps[i] in ps;
    }
  }

  /**
   * The errors the k-th append marks: any parameter after a rest parameter;
   * a rest parameter after an optional one; a required parameter after an
   * optional one.
   */
  lemma ParameterViolationsAt(ps: seq<Parameter>, k: nat)
    requires k < |ps|
    ensures AfterRest in ViolationsAt(Slots(ps), k) <==>
      exists i :: 0 <= i < k && IsRest(ps[i])
    ensures RestAfterKeyed in ViolationsAt(Slots(ps), k) <==>
      IsRest(ps[k]) && exists i :: 0 <= i < k && ps[i].defaultValue.Some?
    ensures PlainAfterKeyed in ViolationsAt(Slots(ps), k) <==>
      ps[k].defaultValue.None? && !ps[k].isRestParameter && exists i :: 0 <= i < k && ps[i].defaultValue.Some?
  {
    var slots := Slots(ps);
    ViolationsAtCharacterized(slots, k);
    if Rest in slots[..k] {
      var i :| 0 <= i < k && slots[..k][i] == Rest;
      assert slots[i] == Rest;
    }
    if Keyed in slots[..k] {
      var i :| 0 <= i < k && slots[..k][i] == Keyed;
      assert slots[i] == Keyed;
    }
    if exists i :: 0 <= i < k && IsRest(ps[i]) {
      var i :| 0 <= i < k && IsRest(ps[i]);
      assert slots[..k][i] == Rest;
    }
    if exists i :: 0 <= i < k && ps[i].defaultValue.Some? {
      var i :| 0 <= i < k && ps[i].defaultValue.Some?;
      assert slots[..k][i] == Keyed;
    }
  }

  /** Appending the parameters one by one marks no error exactly when they are in definition order. */
  lemma ParametersCleanIff(ps: seq<Parameter>)
    ensures Clean(Slots(ps)) <==> InDefinitionOrder(ps)
  {
    CleanIffWellOrdered(Slots(ps));
  }

  /**
   * A parameter with both a default and the rest flag is treated by the list
   * as optional: it sets `hasOptionalParameters`, never `hasRestParameter`,
   * and the list never reports it as a rest problem.
   */
  lemma DefaultedRestCountsAsOptional(p: Parameter, seen: Seen)
    requires DefaultedRest(p)
    ensures Step(seen, SlotOf(p)) == seen.(keyed := true)
    ensures RestAfterKeyed !in Violations(seen, SlotOf(p))
    ensures !seen.rest ==> Violations(seen, SlotOf(p)) == {}
  {
  }

  /**
   * The definition `(a, b: 1, rest...)` followed by a required `c`. The rest
   * parameter after the optional `b` already goes through the "different
   * error" branch; `c` goes through both the after-rest and the
   * required-after-optional branches.
   */
  method RestAfterOptionalScenario() returns (a: set<Violation>, b: set<Violation>,
                                               rest: set<Violation>, c: set<Violation>)
    ensures a == {} && b == {}
    ensures rest == {RestAfterKeyed}
    ensures c == {AfterRest, PlainAfterKeyed}
  {
    var params := new Parameters();
    a := params.Append(Parameter("a", None, false));
    b := params.Append(Parameter("b", Some(Values.NewValue(Values.Textual(Values.NumberText, "1"))), false));
    rest := params.Append(Parameter("rest", None, true));
    c := params.Append(Parameter("c", None, false));
  }
}
