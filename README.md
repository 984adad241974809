# Sass AST builders and derived flags, in Dafny

This project models the behavioural core of the libsass abstract syntax tree
header `ast.hpp`: the append-only builders the parser uses to grow the tree,
and the flags those builders keep up to date as they go.

- **Ordered collections.** `Block` (statements), `List` (values) and `String`
  (fragments) are classes holding one `seq` field each. `Append` is `<<`:
  one element at the end and nothing else changes (each method's `modifies`
  frame names only the element field). `Concat` is `+=`: a loop that reads
  the other collection's length first and pushes its elements one by one, so
  `x += x` leaves `x` equal to its old contents twice over. `Length`, `At` and
  `Put` model `length()` and reads and writes through the reference
  `operator[]` returns.
- **Selector flags.** A `Sequence` of atomic selectors, a `Combination` (one
  step of a left-associative combinator chain) and a `Group` (comma-separated
  alternatives) each carry `hasReference` and `hasPlaceholder`. `Sequence`
  and `Group` keep them by OR-ing on every append; `Combination` computes
  them once, in its constructor, from its context and its sequence, either of
  which may be absent. The predicates `Sequence.Valid`, `Group.Valid` and
  `Derived` state what the flags mean, and the builders are proved to keep
  them.
- **Parameter and argument ordering.** `Parameters.Append` and
  `Arguments.Append` always append and update two running flags exactly as
  the source's branches do. They also return the set of error branches the
  append went through, which the source only marks with `; // error`. The
  module `Ordering` holds the check both lists share: the flag update
  (`Step`), the marked errors (`Violations`) and their replay over a whole
  list. It proves that a list built by appends marks no error exactly when it
  has the intended shape: required or positional elements first, then either
  optional or named ones, or a single rest element last.
- **Constructor defaults.** Every value starts neither delayed nor
  parenthesized, a dimension starts with numerator units `[unit]` and no
  denominator units, a ruleset starts unnestable, and every other statement
  starts nestable.

Files: `options.dfy` (Option), `ordering.dfy` (the shared ordering check),
`values.dfy` (values, `List`, `String`, `Argument`, `Arguments`; arguments
live here because a function call holds an argument list and an argument
holds a value), `parameters.dfy`, `selectors.dfy` and `statements.dfy`.

The shared ordering check names the three kinds of element `Plain`
(a required parameter, a positional argument), `Keyed` (a parameter with a
default, a named argument) and `Rest` (a rest parameter without a default,
an unnamed rest argument). It names the three marked errors `AfterRest`,
`RestAfterKeyed` and `PlainAfterKeyed`.

### Choices the code makes

- A looser rule would let a rest parameter or argument follow optional or
  named ones. The code marks that case as an error (ast.hpp:516-517 and
  ast.hpp:571-572), so the model reports `RestAfterKeyed` there.
- A stricter builder would reject an out-of-order append. The code appends
  anyway and only marks the branch, so the model appends too and returns
  what was marked.
- The doc comment at ast.hpp:638-640 says `Sequence` keeps flags saying
  whether it holds a `&` or a placeholder. The code's `Reference` and
  `Placeholder` overloads never return, and its `+=` never carries flags.
  The model implements the documented behaviour and records both defects
  under "Findings".

## Model

| member | source | states |
|---|---|---|
| `Ordering.Step` | ast.hpp:506-528 | appending never clears a running flag; the optional/named flag can change only on an optional/named element, the rest flag only on a rest element |
| `Ordering.ReplayFlags` | ast.hpp:506-528 | after any sequence of appends to an empty list, the optional/named flag is set exactly when some element is optional/named, and the rest flag exactly when some element is a rest element |
| `Ordering.ViolationsAtCharacterized` | ast.hpp:506-528 | the k-th append marks "after rest" exactly when an earlier element is rest; "rest after optional/named" exactly when it is rest and an earlier one is optional/named; "required/positional after optional/named" likewise |
| `Ordering.CleanIffWellOrdered` | ast.hpp:489-528 | successive appends mark no error if and only if nothing follows a rest element and only optional/named elements follow an optional/named one |
| `Ordering.RestIsTerminal` | ast.hpp:508-525 | once a rest element is in a list, every later append goes through an error branch |
| `Ordering.KeyedBlocksPlainAndRest` | ast.hpp:513-525 | once an optional/named element is in, a later required/positional or rest append goes through the matching error branch |
| `Values.NewValue` | ast.hpp:286-288 | a new value is neither delayed nor parenthesized |
| `Values.NewDimension` | ast.hpp:403-413 | a new dimension keeps its magnitude, has numerator units exactly `[unit]` and no denominator units |
| `Values.NewOpaqueColor` | ast.hpp:418-422 | a color built from r, g, b has alpha 1.0 |
| `Values.List.constructor` | ast.hpp:302-306 | a new list is empty, with the given separator and arglist flag (space-separated and not an arglist by default), not delayed or parenthesized |
| `Values.List.Put` | ast.hpp:310-311 | writing through `operator[]` replaces exactly that position |
| `Values.List.Append` | ast.hpp:312-316 | `<<` adds the value at the end, length grows by one, earlier values and every other field unchanged |
| `Values.List.Concat` | ast.hpp:317-322 | `+=` leaves the old values followed by the other list's values in order, the other list unchanged; `l += l` doubles `l` |
| `Values.String.constructor` | ast.hpp:441-444 | a new string is empty with the given quoted and interpolated flags (both false by default), not delayed or parenthesized |
| `Values.String.Put` | ast.hpp:448-449 | writing through `operator[]` replaces exactly that position |
| `Values.String.Append` | ast.hpp:450-454 | `<<` adds the fragment at the end; `isQuoted` and `isInterpolated` are untouched |
| `Values.String.Concat` | ast.hpp:455-460 | `+=` appends the other string's fragments in order, the other string unchanged; `s += s` doubles `s` |
| `Values.SlotOf` | ast.hpp:563-580 | an argument is named when its name is non-empty, otherwise rest when flagged rest, otherwise positional |
| `Values.Arguments.constructor` | ast.hpp:553-556 | a new argument list is empty with both flags false, so its flags agree with its contents |
| `Values.Arguments.Append` | ast.hpp:561-583 | `<<` always appends; a named argument sets `hasNamedArguments`, an unnamed rest argument sets `hasRestArgument`, nothing is cleared; the returned set is the error branches taken, and for a list whose flags agree with its contents it is exactly the set `ArgumentViolationsAt` characterises for the new position; flags stay in agreement with the contents |
| `Values.ArgumentFlags` | ast.hpp:561-583 | the flags agree with an argument list's contents exactly when they equal the flags replayed from its appends |
| `Values.ArgumentViolationsAt` | ast.hpp:561-583 | the k-th append is marked for an argument after a rest argument, an unnamed rest argument after a named one, or a positional argument after a named one, and only then |
| `Values.ArgumentsCleanIff` | ast.hpp:544-583 | building an argument list marks no error exactly when positional arguments come first, then named ones only or one final rest argument |
| `Values.NamedRestPassesListCheck` | ast.hpp:539-541 | a named rest argument counts as named for the list, which never reports it as a rest problem, so only the `Argument` constructor's check can catch it |
| `Values.NamedThenPositionalScenario` | ast.hpp:561-583 | for `(1, 2, key: 3)` no append is marked; a further positional argument is marked "positional after named" and nothing else |
| `ParameterLists.SlotOf` | ast.hpp:508-525 | a parameter with a default is optional even if flagged rest; without a default it is rest when flagged, otherwise required |
| `ParameterLists.Parameters.constructor` | ast.hpp:498-501 | a new parameter list is empty with both flags false, so its flags agree with its contents |
| `ParameterLists.Parameters.Append` | ast.hpp:506-528 | `<<` always appends; `hasOptionalParameters` becomes true exactly on a parameter with a default, `hasRestParameter` exactly on a rest parameter without one, neither is cleared; the returned set is the error branches taken, and for a list whose flags agree with its contents it is exactly the set `ParameterViolationsAt` characterises for the new position; flags stay in agreement with the contents |
| `ParameterLists.ParameterFlags` | ast.hpp:506-528 | the flags agree with a parameter list's contents exactly when they equal the flags replayed from its appends |
| `ParameterLists.ParameterViolationsAt` | ast.hpp:506-528 | the k-th append is marked for a parameter after a rest parameter, a rest parameter after an optional one, or a required parameter after an optional one, and only then |
| `ParameterLists.ParametersCleanIff` | ast.hpp:489-528 | building a parameter list marks no error exactly when required parameters come first, then optional ones only or one final rest parameter |
| `ParameterLists.DefaultedRestCountsAsOptional` | ast.hpp:483-486 | a parameter with both a default and the rest flag sets only the optional flag and is never reported by the list as a rest problem: the constructor's to-do check is the only place it could be caught |
| `ParameterLists.RestAfterOptionalScenario` | ast.hpp:506-528 | for `(a, b: 1, rest...)` the rest parameter is already marked "rest after optional"; a further required `c` is marked both "after rest" and "required after optional" |
| `Selectors.Sequence.constructor` | ast.hpp:647-650 | a new sequence is empty with both flags false |
| `Selectors.Sequence.Put` | ast.hpp:654-655 | writing through `operator[]` replaces exactly that position and does not recompute the flags |
| `Selectors.Sequence.Append` | ast.hpp:639-670 | appending pushes the selector; a `&` sets `hasReference`, a placeholder sets `hasPlaceholder`, nothing is cleared; the flags keep saying whether the sequence holds a `&` or a placeholder |
| `Selectors.Sequence.Concat` | ast.hpp:671-675 | `+=` appends the other sequence's selectors in order and ORs in what they hold; the flags keep their meaning; `s += s` doubles `s` |
| `Selectors.AppendMarkerAsWrittenNeverReturns` | ast.hpp:661-670 | as written, appending a `&` or a placeholder calls the same overload forever: for every bound on the number of calls, none returns |
| `Selectors.ConcatAsWritten` | ast.hpp:671-675 | as written, `+=` pushes every selector through the `Simple*` overload: the selectors are concatenated and both flags stay as they were |
| `Selectors.ConcatAsWrittenLosesReference` | ast.hpp:671-675 | as written, `+=` of a sequence holding a `&` onto one without leaves flags that contradict the contents |
| `Selectors.NewCombination` | ast.hpp:691-701 | a combination's flags are fixed at construction: the context's flag (if there is a context) OR the sequence's flag (if there is a sequence) |
| `Selectors.NewCombinationDerived` | ast.hpp:691-701 | built from a context and a sequence whose flags are right, a combination's flags say whether some sequence along its whole chain holds a `&` or a placeholder |
| `Selectors.Group.constructor` | ast.hpp:712-717 | a new group is empty with both flags false |
| `Selectors.Group.Put` | ast.hpp:721-722 | writing through `operator[]` replaces exactly that position and does not recompute the flags |
| `Selectors.Group.Append` | ast.hpp:723-729 | `<<` pushes the combination and ORs its flags into the group's; flags never go from true to false; the group's flags stay the OR of its members' |
| `Selectors.Group.Concat` | ast.hpp:730-734 | `+=` re-appends every member of the other group in order, accumulating their flags; the group's flags stay the OR of its members'; `g += g` doubles `g` |
| `Selectors.GroupFlagsFromLeaves` | ast.hpp:704-734 | when every member's flags are right, the group holds a `&` (a placeholder) exactly when some alternative's chain does |
| `Selectors.ReferenceGroupScenario` | ast.hpp:723-729 | the selector `a > b, & .foo` built bottom-up gives a group with `hasReference` set and `hasPlaceholder` clear |
| `Statements.NewStatement` | ast.hpp:28-82 | a ruleset is created unnestable and every other statement nestable |
| `Statements.Block.constructor` | ast.hpp:40-42 | a new block is empty, root as requested (not root by default), and nestable |
| `Statements.Block.Put` | ast.hpp:46-47 | writing through `operator[]` replaces exactly that position |
| `Statements.Block.Append` | ast.hpp:48-52 | `<<` adds the statement at the end, length grows by one, earlier statements, `isRoot` and `isUnnestable` unchanged |
| `Statements.Block.Concat` | ast.hpp:53-58 | `+=` leaves the old statements followed by the other block's in order, without copying, the other block unchanged; `b += b` doubles `b` |

The accessors `Length` and `At` of each class model `length()` and reads
through `operator[]`; they carry no contract beyond their bodies.

## Left out

- Source path and line number of every node (`AST_Node`): inert diagnostics fields with no behaviour.
- The `size` capacity hints of the `Block`, `List`, `String`, `Sequence` and `Group` constructors: the constructors take them and ignore them, because `reserve` has no observable effect.
- Floating-point payloads of `Number`, `Percentage`, `Dimension` and `Color`: carried as raw 64-bit patterns and never interpreted.
- The `Token(beg, end)` constructor that copies characters between two C pointers: the string constructor is the `Token` case of `ValueNode`.
- Memory ownership, virtual destructors and the class hierarchy: node families are datatypes, and the model does not prove that the tree is acyclic or that no node has two parents.
- Null pointers: the model allows them only where the source gives a null default or tests for null (an `If` alternative, a `Mixin_Call` block, a parameter default, a `Combination` context or sequence), and for a `Directive` block, which the comment at ast.hpp:109-111 calls optional. Every other pointer field, the `Directive` selector included, is non-null.
- Selectors.Sequence.Append: implements the documented intent rather than the self-recursive overloads; the as-written behaviour is `AppendMarkerAsWritten` (see Findings).
- Selectors.Sequence.Concat: dispatches each element by kind rather than through the `Simple*` overload only; the as-written behaviour is `ConcatAsWritten` (see Findings).
- Selectors.Sequence: holds `&` and placeholders beside ordinary simple selectors; as written its vector holds `Simple*` only and cannot store them.
- Reporting a violation as an error: the source only marks the error branches, so the model returns them from `Append` and never rejects an append.
- The `Parameter` and `Argument` constructor checks are the predicates `DefaultedRest` and `NamedRest`; the constructors themselves are the datatype constructors and report nothing, as in the source.
- Parsing, evaluation of expressions, function calls and variables, re-parsing of interpolated selectors, `@extend`, and CSS emission: the header only declares the nodes they use.

## Findings

| source | as written | input that shows it | evidently intended | confidence | as-written member | corrected member |
|---|---|---|---|---|---|---|
| ast.hpp:661-670 | `operator<<(Reference*)` and `operator<<(Placeholder*)` set the flag and then evaluate `(*this) << s`, whose argument still has static type `Reference*` (`Placeholder*`), so the same overload is called again without end and nothing is pushed | appending any `&` or placeholder to any sequence | set the flag, then push the selector (the class comment at ast.hpp:638-640) | not executed; follows from C++ overload resolution, since `Reference` and `Placeholder` derive from `Simple_Base`, not `Simple` | `Selectors.AppendMarkerAsWrittenNeverReturns` | `Selectors.Sequence.Append` |
| ast.hpp:671-675 | `operator+=` re-appends each element of the other sequence through the `Simple*` overload, which never touches the flags | an empty sequence `+=` a sequence holding `&`: the result holds `&` with `hasReference` false | re-append each element by its kind, so the flags follow the contents | not executed; latent while the first row stands, because the vector of `Simple*` cannot hold a `&` | `Selectors.ConcatAsWrittenLosesReference` | `Selectors.Sequence.Concat` |
