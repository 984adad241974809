/**
 * The ordering check shared by parameter lists and argument lists.
 *
 * Both `Parameters::operator<<` and `Arguments::operator<<` classify the
 * appended element into one of three kinds, keep two running flags, and
 * mark an error (a no-op branch) when the new element is out of order:
 *
 *   kind     parameter                  argument
 *   Plain    required (no default)      positional, not rest
 *   Keyed    optional (has a default)   named
 *   Rest     rest, no default           rest, unnamed
 *
 * The running flags are "a Keyed element has been appended" and "a Rest
 * element has been appended"; neither is ever cleared.
 */
module Ordering {

  datatype Slot = Plain | Keyed | Rest

  /** The two running flags of a list: has_optional/has_named and has_rest. */
  datatype Seen = Seen(keyed: bool, rest: bool)

  /** Both lists start with both flags false. */
  const Start: Seen := Seen(false, false)

  /** The error branches of `operator<<`. */
  datatype Violation =
    | AfterRest        // anything appended after a rest element
    | RestAfterKeyed   // a rest element after an optional/named one
    | PlainAfterKeyed  // a required/positional element after an optional/named one

  /** The flags after appending an element of kind `slot`. */
  function Step(seen: Seen, slot: Slot): (r: Seen)
    ensures seen.keyed ==> r.keyed
    ensures seen.rest ==> r.rest
    ensures r.keyed != seen.keyed ==> slot == Keyed
    ensures r.rest != seen.rest ==> slot == Rest
  {
    match slot
    case Keyed => seen.(keyed := true)
    case Rest => seen.(rest := true)
    case Plain => seen
  }

  /** The error branches taken when an element of kind `slot` is appended with flags `seen`. */
  function Violations(seen: Seen, slot: Slot): set<Violation>
  {
    var afterRest := if seen.rest then {AfterRest} else {};
    match slot
    case Keyed => afterRest
    case Rest => afterRest + (if seen.keyed then {RestAfterKeyed} else {})
    case Plain => afterRest + (if seen.keyed then {PlainAfterKeyed} else {})
  }

  /** The flags after appending `slots`, in order, to an empty list. */
  function Replay(slots: seq<Slot>): Seen
    decreases |slots|
  {
    if slots == [] then Start
    else Step(Replay(slots[..|slots| - 1]), slots[|slots| - 1])
  }

  /** The errors marked when `slots[k]` is appended after `slots[..k]`. */
  function ViolationsAt(slots: seq<Slot>, k: nat): set<Violation>
    requires k < |slots|
  {
    Violations(Replay(slots[..k]), slots[k])
  }

  /** No append along the way marked an error. */
  ghost predicate Clean(slots: seq<Slot>)
  {
    forall k :: 0 <= k < |slots| ==> ViolationsAt(slots, k) == {}
  }

  /**
   * The intended shape of a list, stated independently of the flags:
   * nothing follows a rest element, and only optional/named elements follow
   * an optional/named one. Equivalently: Plain* Keyed*, or Plain* Rest.
   */
  ghost predicate WellOrdered(slots: seq<Slot>)
  {
    && (forall i :: 0 <= i < |slots| - 1 ==> slots[i] != Rest)
    && (forall i, j :: 0 <= i < j < |slots| && slots[i] == Keyed ==> slots[j] == Keyed)
  }

  /** The running flags summarise the whole prefix. */
  lemma {:induction false} ReplayFlags(slots: seq<Slot>)
    ensures Replay(slots).keyed <==> Keyed in slots
    ensures Replay(slots).rest <==> Rest in slots
  {
    if slots != [] {
      var n := |slots| - 1;
      ReplayFlags(slots[..n]);
      assert slots == slots[..n] + [slots[n]];
    }
  }

  /** Which errors the k-th append marks, in terms of what came before it. */
  lemma ViolationsAtCharacterized(slots: seq<Slot>, k: nat)
    requires k < |slots|
    ensures AfterRest in ViolationsAt(slots, k) <==> Rest in slots[..k]
    ensures RestAfterKeyed in ViolationsAt(slots, k) <==> slots[k] == Rest && Keyed in slots[..k]
    ensures PlainAfterKeyed in ViolationsAt(slots, k) <==> slots[k] == Plain && Keyed in slots[..k]
  {
    ReplayFlags(slots[..k]);
  }

  /** The incremental check marks no error exactly when the list has the intended shape. */
  lemma CleanIffWellOrdered(slots: seq<Slot>)
    ensures Clean(slots) <==> WellOrdered(slots)
  {
    if Clean(slots) && !WellOrdered(slots) {
      var i, j :| 0 <= i < j < |slots| &&
        !(slots[i] != Rest && (slots[i] == Keyed ==> slots[j] == Keyed));
      ViolationsAtCharacterized(slots, j);
    }
    if WellOrdered(slots) {
      forall k | 0 <= k < |slots|
        ensures ViolationsAt(slots, k) == {}
      {
        ViolationsAtCharacterized(slots, k);
      }
    }
  }

  /** Once a rest element is in, every later append is marked. */
  lemma {:induction false} RestIsTerminal(slots: seq<Slot>, i: nat, k: nat)
    requires i < k < |slots| && slots[i] == Rest
    ensures AfterRest in ViolationsAt(slots, k)
  {
    ViolationsAtCharacterized(slots, k);
    assert slots[..k][i] == Rest;
  }

  /** Once an optional/named element is in, a later required/positional or rest append is marked. */
  lemma {:induction false} KeyedBlocksPlainAndRest(slots: seq<Slot>, i: nat, k: nat)
    requires i < k < |slots| && slots[i] == Keyed && slots[k] != Keyed
    ensures (if slots[k] == Rest then RestAfterKeyed else PlainAfterKeyed) in ViolationsAt(slots, k)
  {
    ViolationsAtCharacterized(slots, k);
    assert slots[..k][i] == Keyed;
  }
}
