# DiscoveringTruth core in Dafny

DiscoveringTruth teaches natural deduction for propositional logic. A user
states an *assertion*: a list of assumed formulas and a conclusion. They then
build an *argument*: a numbered list of steps. Each step carries a formula,
the lines it depends on, and a *notation* naming the rule that derives it,
e.g. `3,1 MPP`. This project models the four files that give the program its
meaning.

- `formula_parser.dfy` (module `FormulaParser`) models `src/models/formulaParser.js`.
  - The string is first flattened. Five passes replace propositions, then
    parenthesised sub-formulas (recursively), then negations, then
    conjunctions and disjunctions, then implications. Each match becomes a
    handle into an element list that has no duplicates.
  - The tree is then built from the root element. A group keeps its
    parentheses only where they are needed, and ambiguous formulas such as
    `P&Q&R` and `P>S&Q>R` are refused. A doubled group is the exception:
    the source keeps both layers (see Findings), the model one.
  - `parser_text.dfy` (module `ParserText`) proves what the parser keeps:
    flattening never changes the text a working string stands for, and a
    parsed formula's string is equal to its input once all parentheses are
    erased from both.
  - `parser_examples.dfy` (module `ParserExamples`) builds the trees of the
    parser's unit-test inputs from the element lists that flattening
    produces for them.
  - `parser_runs.dfy` (module `ParserRuns`) runs whole input strings
    through flattening, one substitution at a time, and so ties each input
    string to its tree or to its ambiguity error. This is where the binding
    order shows: `-` before `&` and `v`, which bind before `>`.
  - The flattening loop is the method `AnalyzeFormulaString`. It is proved
    equal to the function `Flatten`.
- `derivation_rules.dfy` (module `DerivationRules`) models `src/models/derivationRules.js`.
  - It covers the assumption rule, the dependency-chain check, and the ten
    validators DNI, DNE, MPP, MTT, CP, CI, CE, DI, DE and RAA.
  - It also covers the rule table: its names, the notations it writes, the
    notations it recognises, and the lines a notation cites.
- `proof_validator.dfy` (module `ProofValidator`) models `src/models/proofValidator.js`.
  - First the conclusion check runs: the last step must assert the
    assertion.
  - Then every step is checked in order by the first rule whose notation
    matches.
  - Both loops are methods, proved against the functions
    `ConclusionAssertive` and `FirstFailure(Checks(...))`.
- `example_argument.dfy` (module `ExampleArgument`) checks the repository's
  example argument, P>(P>Q), P therefore Q, from its strings to `validateProof`
  returning true.
- `symbol_mapper.dfy` (module `SymbolMapper`) models `src/models/symbolMapper.js`:
  the HTML and Unicode renderings of a formula string.
- Supporting modules:
  - `wrappers.dfy`: `Option`, `Result` and `Check`.
  - `numerals.dfy`: decimal strings of line numbers, and joining them with `,`.
  - `string_order.dfy`: JavaScript's default `sort()`, which compares numbers
    by their decimal strings.

How a JavaScript outcome maps to a `Check`:

| JavaScript outcome | `Check` |
|---|---|
| `return true` | `Pass` |
| a thrown `Error` or `SyntaxError` | `Fail(message)`, with the source's message text |
| a `TypeError` from reading a field of `undefined` | `Fault` |

Parse errors are `NotWellFormed`, `Ambiguous` and `UndefinedElement`.

## Model

| member | source | states |
|---|---|---|
| FormulaParser.Chars | src/models/formulaParser.js:20 | a formula string becomes one symbol token per character, in order |
| FormulaParser.TokensTextChars | src/models/formulaParser.js:38 | joining the tokens of a string gives the string back |
| FormulaParser.IndexOf | src/models/formulaParser.js:31 | `indexOf` is -1 exactly when the value is absent; otherwise it is the first position holding the value |
| FormulaParser.Intern | src/models/formulaParser.js:30-35 | an element already listed keeps its index and leaves the list unchanged; a new element is appended at the end |
| FormulaParser.InternKeepsTable | src/models/formulaParser.js:30-35 | adding an element keeps the list duplicate-free and keeps every handle pointing to an earlier element |
| FormulaParser.NextParen | src/models/formulaParser.js:5 | the first parenthesis at or after a position; nothing before it is a parenthesis |
| FormulaParser.MatchLength | src/models/formulaParser.js:1-12 | a match of a substitution pattern fits inside the reference string |
| FormulaParser.FirstMatch | src/models/formulaParser.js:18 | `String.match`: the leftmost position where the pattern matches; nothing matches before it, and None means nothing matches at all |
| FormulaParser.AtomCountAppend | src/models/formulaParser.js:20-22 | the proposition count of a concatenation is the sum of the parts' counts |
| FormulaParser.Splice | src/models/formulaParser.js:20-38 | splicing a match out and a handle in changes the length by 1 - len |
| FormulaParser.SpliceCountsAtoms | src/models/formulaParser.js:18-38 | every substitution shortens the string or removes a proposition, so the loop ends |
| FormulaParser.Substitute | src/models/formulaParser.js:19-38 | one substitution keeps the element list valid and duplicate-free and only extends it; the string gets shorter or loses a proposition |
| FormulaParser.Sweep | src/models/formulaParser.js:18-39 | repeating one pattern until it stops matching keeps the list valid and leaves no match |
| FormulaParser.Passes | src/models/formulaParser.js:17-40 | the five passes in order keep the element list valid and only extend it |
| FormulaParser.EmptyPasses | src/models/formulaParser.js:17-40 | the passes leave an empty string and the list unchanged |
| FormulaParser.Flatten | src/models/formulaParser.js:14-50 | a successful analysis extends the given list into a valid duplicate-free list whose root handle is in range |
| FormulaParser.AnalyzeFormulaString | src/models/formulaParser.js:14-50 | the loop over the rules and matches computes exactly `Flatten` |
| FormulaParser.SubstituteMatch | src/models/formulaParser.js:19-38 | one loop iteration (split, splice, recursion, indexOf/push, inject) computes exactly `Substitute` |
| FormulaParser.CenterIndex | src/models/formulaParser.js:108 | a group's inner element is listed at an earlier index |
| FormulaParser.ConstructFormula | src/models/formulaParser.js:94-170 | a built tree renders each node as its body, in one pair of parentheses exactly when it has them; it is unambiguous (lines 134-142 and 154-160); parentheses sit only where lines 110-115 allow; a node has parentheses exactly when its element is a group that keeps them |
| FormulaParser.ConstructFormulaAsWritten | src/models/formulaParser.js:94-170 | as written: a node has parentheses exactly when its element is a group that keeps them, and then its string starts with `(` and ends with `)`; an element that is not a group renders as its body, with no parentheses (its third ensures) |
| FormulaParser.JunctionChildOkIff | src/models/formulaParser.js:134-142 | under `&` or `v`, a built operand is acceptable exactly when its element is not itself a bare `&` or `v` element |
| FormulaParser.ImplicationChildOkIff | src/models/formulaParser.js:154-160 | under `>`, a built operand is acceptable exactly when its element is not itself a bare `>` element |
| FormulaParser.JunctionTree | src/models/formulaParser.js:129-149 | when both operands build, a `&` or `v` element builds the Conjunction or Disjunction of their trees, with string left + connective + right, exactly when neither operand's element is a bare `&` or `v` element; otherwise it fails with `Formula is ambiguous:` naming that string |
| FormulaParser.ImplicationTree | src/models/formulaParser.js:150-167 | when both operands build, a `>` element builds the Implication of their trees, with string left + `>` + right, exactly when neither operand's element is a bare `>` element; otherwise it fails as ambiguous naming that string |
| FormulaParser.UnaryTree | src/models/formulaParser.js:101-128 | an atom builds its Proposition; a negation element builds the Negation of its operand's tree; a group builds its centre's tree; each succeeds exactly when its operand or centre does |
| FormulaParser.AsWrittenDoublesNestedGroup | src/models/formulaParser.js:116-120 | as written, a group nested directly in a group renders with two layers `((body))` when it keeps parentheses, so its string is not the canonical rendering |
| FormulaParser.ParseFormulaString | src/models/formulaParser.js:176-179 | a parsed formula has no outer parentheses and is rendered, unambiguous and parenthesised only where allowed; the empty string faults, because it is read as handle 0 of an empty list |
| FormulaParser.ParseFormulaStringAsWritten | src/models/formulaParser.js:176-179 | as written: no outer parentheses, and the empty string faults |
| FormulaParser.ParseNeedsSingleHandle | src/models/formulaParser.js:41-48 | a parse succeeds only if the passes leave a single handle; any other non-empty residue fails with `Formula is not well-formed` naming the input |
| FormulaParser.ParseAll | src/models/formulaParser.js:188 | `map(parseFormulaString)` gives one tree per string |
| FormulaParser.ParseAllSucceeds | src/models/formulaParser.js:188 | the map succeeds exactly when every string parses, and the trees are the parses, in order |
| FormulaParser.ParseAllFails | src/models/formulaParser.js:188 | a failing map reports the error of the first string that does not parse |
| FormulaParser.ConstructAssertion | src/models/formulaParser.js:186-191 | an assertion is built exactly when every assumption and the conclusion parse; it holds their trees in order; the first assumption's error propagates, and when every assumption parses, the conclusion's error does |
| ParserText.ExpandAppend | src/models/formulaParser.js:20-38 | the text of a concatenation is the concatenation of the texts |
| ParserText.ElementRefsBelow | src/models/formulaParser.js:30-35 | every element mentions only handles created before it |
| ParserText.TextExtends | src/models/formulaParser.js:30-35 | appending elements does not change what an existing string stands for |
| ParserText.HandleText | src/models/formulaParser.js:30-37 | a handle stands for the text of its element |
| ParserText.SpliceText | src/models/formulaParser.js:20-37 | replacing a match by a handle that stands for it keeps the text of the string |
| ParserText.GroupText | src/models/formulaParser.js:23-29 | a group's element, `(` + its content's root element + `)`, stands for the group as written |
| ParserText.PlainText | src/models/formulaParser.js:30-37 | substituting any other match keeps the text |
| ParserText.SubstituteText | src/models/formulaParser.js:19-38 | one substitution keeps the text of the working string |
| ParserText.SweepText | src/models/formulaParser.js:18-39 | one pattern's loop keeps the text |
| ParserText.PassesText | src/models/formulaParser.js:17-40 | the five passes keep the text |
| ParserText.FlattenText | src/models/formulaParser.js:14-50 | the root of a successful analysis stands for the whole analysed string |
| ParserText.RootText | src/models/formulaParser.js:176-179 | the root element of a parsed input stands for the input |
| ParserText.ConstructKeepsSymbols | src/models/formulaParser.js:94-170 | the string of a built tree is its element's text with parentheses dropped or kept: erasing parentheses from both gives the same string |
| ParserText.AsWrittenKeepsSymbols | src/models/formulaParser.js:94-170 | the same for the tree built as written |
| ParserText.ParseKeepsSymbols | src/models/formulaParser.js:176-179 | a parsed formula's string, parentheses erased, is the input, parentheses erased |
| ParserText.ParseAsWrittenKeepsSymbols | src/models/formulaParser.js:176-179 | the same for the parse as written |
| ParserText.EraseWrap | src/models/formulaParser.js:116-120 | parentheses put around a string vanish when parentheses are erased |
| ParserExamples.ChainedConjunctionIsAmbiguous | src/models/formulaParser.js:129-142 | `P&Q&R` (elements P, Q, R, `0&1`, `3&2`) fails with `Formula is ambiguous: P&Q&R` |
| ParserExamples.ChainedImplicationIsAmbiguous | src/models/formulaParser.js:129-160 | `P>S&Q>R` (elements P, S, Q, R, `1&2`, `0>4`, `5>3`) fails with `Formula is ambiguous: P>S&Q>R` |
| ParserExamples.NestedImplicationKeepsGroup | src/models/formulaParser.js:107-167 | `P>(P>Q)` builds the Implication of P and the parenthesised `P>Q`, rendered `P>(P>Q)` |
| ParserExamples.MixedJunctionIsAmbiguous | tests/unit/models/formulaParser.spec.js:82-86 | `P&Qv-R` (elements P, Q, R, `-2`, `0&1`, `4v3`) fails with `Formula is ambiguous: P&Qv-R`: `&` and `v` share a tier and neither may hold the other bare |
| ParserExamples.WrappedNestedDropsGroup | tests/unit/components/StepMaker.spec.js:91-94 | `(P>(P>Q))` builds the same tree as `P>(P>Q)`: the outer group, having no parent, keeps no parentheses |
| ParserExamples.DoubledGroupKeepsOneLayer | src/models/formulaParser.js:116-120 | `P>((P>Q))` builds P implies the kept group, rendered `P>(P>Q)`, with one layer of parentheses |
| ParserExamples.DoubledGroupAsWritten | src/models/formulaParser.js:116-120 | built as the source builds it, `P>((P>Q))` keeps both layers: its string is `P>((P>Q))` |
| ParserExamples.AsWrittenGroupStep | src/models/formulaParser.js:116-120 | as written, a group whose centre builds c renders as c's string, wrapped once more exactly when the parent keeps parentheses |
| ParserExamples.AsWrittenImplicationStep | src/models/formulaParser.js:150-167 | as written, a `>` element whose operands build acceptable children builds their Implication, with string left + `>` + right |
| ParserExamples.ImplicationBuilds | src/models/formulaParser.js:150-167 | a `>` element whose operands build acceptable children builds their Implication, with string left + `>` + right |
| ParserExamples.GroupBuilds | src/models/formulaParser.js:107-120 | a group builds its centre's formula, in parentheses exactly when its parent keeps them, around the formula's body |
| ParserExamples.LoneAtomBuilds | tests/unit/models/formulaParser.spec.js:4-10 | a lone proposition builds its leaf: a Proposition without parentheses, rendered as the letter |
| ParserExamples.PlainImplicationBuilds | src/EXAMPLE_DATA.js:21 | `P>Q` builds the Implication of P and Q, rendered `P>Q` |
| ParserExamples.GroupedImplicationBuilds | src/models/derivationRules.js:58-59 | `(P>Q)` at the top builds the tree of `P>Q`: with no parent the group drops its parentheses |
| ParserExamples.TripleGroupDropsAll | tests/unit/models/formulaParser.spec.js:12-18 | `(((P)))` builds the leaf P: no layer of parentheses around a Proposition is kept |
| ParserExamples.GroupedNegationDropsGroups | tests/unit/models/formulaParser.spec.js:20-26 | `(-(R))` builds the Negation of R, rendered `-R`, keeping neither pair of parentheses |
| ParserExamples.GroupedConjunctionDropsGroup | tests/unit/models/formulaParser.spec.js:28-34 | `(P&Q)` builds the Conjunction of P and Q, rendered `P&Q` |
| ParserExamples.PlainDisjunctionBuilds | tests/unit/models/formulaParser.spec.js:36-42 | `PvQ` builds the Disjunction of P and Q, rendered `PvQ` |
| ParserExamples.GroupedAntecedentBuilds | tests/unit/models/formulaParser.spec.js:44-50 | `(P)>Q` builds the Implication of P and Q, rendered `P>Q`: the parentheses around a Proposition go |
| ParserRuns.FirstMatchAt | src/models/formulaParser.js:18 | a position that matches, with no match before it, is the leftmost match |
| ParserRuns.SweepStops | src/models/formulaParser.js:18-39 | a rule with no match leaves the string and the list as they are |
| ParserRuns.SweepStep | src/models/formulaParser.js:18-38 | substituting the leftmost match of any rule but the group rule keeps the list valid, and the sweep goes on from the spliced string |
| ParserRuns.GroupSubstitution | src/models/formulaParser.js:20-37 | a group whose content flattens to a root element is replaced by the handle of `(` + that element + `)` |
| ParserRuns.SweepBy | src/models/formulaParser.js:18-38 | a sweep whose leftmost substitution gives a new string and list goes on from them |
| ParserRuns.FlattenOfRules | src/models/formulaParser.js:14-50 | when the five rules, swept in order, leave a single handle, the analysis has that handle as its root |
| ParserRuns.ParseOf | src/models/formulaParser.js:176-179 | an input that flattens to a list and a root parses to the tree built from that root, as written and corrected alike |
| ParserRuns.ChainedConjunctionInput | src/models/formulaParser.js:14-50 | the input `P&Q&R` flattens, rule by rule, to the element list of ParserExamples.ChainedConjunction |
| ParserRuns.ChainedConjunctionParses | src/models/formulaParser.js:129-142 | the input `P&Q&R` fails with `Formula is ambiguous: P&Q&R` |
| ParserRuns.ChainedImplicationInput | src/models/formulaParser.js:14-50 | the input `P>S&Q>R` flattens, rule by rule, to the element list of ParserExamples.ChainedImplication |
| ParserRuns.ChainedImplicationParses | tests/unit/models/formulaParser.spec.js:76-80 | the input `P>S&Q>R` fails with `Formula is ambiguous: P>S&Q>R`, because `&` binds before `>` |
| ParserRuns.MixedJunctionInput | src/models/formulaParser.js:14-50 | the input `P&Qv-R` flattens, rule by rule, to the element list of ParserExamples.MixedJunction |
| ParserRuns.MixedJunctionParses | tests/unit/models/formulaParser.spec.js:82-86 | the input `P&Qv-R` fails with `Formula is ambiguous: P&Qv-R`, because `-` binds first and `&`, `v` share a tier |
| ParserRuns.NestedImplicationInput | src/models/formulaParser.js:14-50 | the input `P>(P>Q)` flattens, rule by rule, to the element list of ParserExamples.NestedImplication |
| ParserRuns.NestedImplicationParses | tests/unit/models/formulaParser.spec.js:52-59 | the input `P>(P>Q)` parses to the Implication of P and the parenthesised `P>Q`; its string is `P>(P>Q)` |
| ParserRuns.WrappedNestedInput | src/models/formulaParser.js:14-50 | the input `(P>(P>Q))` flattens, rule by rule, to the element list of ParserExamples.WrappedNested |
| ParserRuns.WrappedNestedParses | tests/unit/components/StepMaker.spec.js:91-94 | the input `(P>(P>Q))` parses to the tree of `P>(P>Q)`, and reparses as the string `P>(P>Q)` |
| ParserRuns.DoubledGroupInput | src/models/formulaParser.js:14-50 | the input `P>((P>Q))` flattens, rule by rule, to the element list of ParserExamples.DoubledGroup |
| ParserRuns.DoubledGroupParses | src/models/formulaParser.js:116-120 | the input `P>((P>Q))` parses to the tree of `P>(P>Q)`; built as written, its string is `P>((P>Q))` |
| ParserRuns.LonePInput | src/models/formulaParser.js:14-50 | the input `P` flattens, rule by rule, to the element list of ParserExamples.LoneP |
| ParserRuns.LonePParses | tests/unit/models/formulaParser.spec.js:4-10 | the input `P` parses to the leaf P and reparses as `P` |
| ParserRuns.LoneQInput | src/models/formulaParser.js:14-50 | the input `Q` flattens, rule by rule, to the element list of ParserExamples.LoneQ |
| ParserRuns.LoneQParses | src/EXAMPLE_DATA.js:27 | the input `Q` parses to the leaf Q and reparses as `Q` |
| ParserRuns.PlainImplicationInput | src/models/formulaParser.js:14-50 | the input `P>Q` flattens, rule by rule, to the element list of ParserExamples.PlainImplication |
| ParserRuns.PlainImplicationParses | src/EXAMPLE_DATA.js:21 | the input `P>Q` parses to the Implication of P and Q, with string `P>Q` |
| ParserRuns.GroupedImplicationInput | src/models/formulaParser.js:14-50 | the input `(P>Q)` flattens, rule by rule, to the element list of ParserExamples.GroupedImplication |
| ParserRuns.GroupedImplicationParses | src/models/derivationRules.js:58-59 | the input `(P>Q)` parses to the tree of `P>Q` and reparses as `P>Q` |
| ParserRuns.TripleGroupInput | src/models/formulaParser.js:14-50 | the input `(((P)))` flattens, rule by rule, to the element list of ParserExamples.TripleGroup |
| ParserRuns.TripleGroupParses | tests/unit/models/formulaParser.spec.js:12-18 | the input `(((P)))` parses to the leaf P |
| ParserRuns.GroupedNegationInput | src/models/formulaParser.js:14-50 | the input `(-(R))` flattens, rule by rule, to the element list of ParserExamples.GroupedNegation |
| ParserRuns.GroupedNegationParses | tests/unit/models/formulaParser.spec.js:20-26 | the input `(-(R))` parses to the Negation of R, with string `-R` |
| ParserRuns.GroupedConjunctionInput | src/models/formulaParser.js:14-50 | the input `(P&Q)` flattens, rule by rule, to the element list of ParserExamples.GroupedConjunction |
| ParserRuns.GroupedConjunctionParses | tests/unit/models/formulaParser.spec.js:28-34 | the input `(P&Q)` parses to the Conjunction of P and Q, with string `P&Q` |
| ParserRuns.PlainDisjunctionInput | src/models/formulaParser.js:14-50 | the input `PvQ` flattens, rule by rule, to the element list of ParserExamples.PlainDisjunction |
| ParserRuns.PlainDisjunctionParses | tests/unit/models/formulaParser.spec.js:36-42 | the input `PvQ` parses to the Disjunction of P and Q, with string `PvQ` |
| ParserRuns.GroupedAntecedentInput | src/models/formulaParser.js:14-50 | the input `(P)>Q` flattens, rule by rule, to the element list of ParserExamples.GroupedAntecedent |
| ParserRuns.GroupedAntecedentParses | tests/unit/models/formulaParser.spec.js:44-50 | the input `(P)>Q` parses to the Implication of P and Q, with string `P>Q` |
| Numerals.DigitChar | src/models/derivationRules.js:24 | a digit's character is a decimal digit with that value |
| Numerals.NatString | src/models/derivationRules.js:24 | a line number's decimal string is non-empty, all digits and without a leading zero |
| Numerals.IntString | src/models/derivationRules.js:24 | a number's string is non-empty and holds no `,` |
| Numerals.ParseNatString | src/models/derivationRules.js:24 | reading a number's decimal string gives the number back |
| Numerals.IntStringInjective | src/models/derivationRules.js:24 | different numbers have different strings |
| Numerals.IntStrings | src/models/derivationRules.js:24 | the strings of a list of numbers, position by position |
| Numerals.SplitAtSeparator | src/models/derivationRules.js:24 | a string joined with a separator splits uniquely at the first separator |
| Numerals.JoinIntsInjective | src/models/derivationRules.js:24 | two lists of numbers with the same `join(',')` are equal |
| StringOrder.LexLeqTotal | src/models/derivationRules.js:24 | code-unit order on strings is total |
| StringOrder.InsertPermutes | src/models/derivationRules.js:24 | insertion adds exactly the one element, as a multiset |
| StringOrder.SortByStringPermutes | src/models/derivationRules.js:24 | `sort()` is a permutation |
| StringOrder.InsertSorted | src/models/derivationRules.js:24 | insertion keeps a list in string order |
| StringOrder.SortByStringSorted | src/models/derivationRules.js:24 | `sort()` puts a list in string order |
| StringOrder.SortFixedIffSorted | src/models/derivationRules.js:24 | sorting leaves a list unchanged exactly when it is already in string order |
| StringOrder.NineAfterTen | src/models/derivationRules.js:24 | the default sort puts 10 before 9 |
| DerivationRules.ParseErrorCheck | src/models/derivationRules.js:34 | a thrown parse error never passes; it is a fault exactly when the parser read an undefined element |
| DerivationRules.Reparse | src/models/derivationRules.js:34 | a reparse that throws never passes |
| DerivationRules.ValidateAssumption | src/models/derivationRules.js:11-17 | an assumption passes exactly when its dependencies are its own line alone; otherwise it fails with the source's message |
| DerivationRules.ValidateDependencyChain | src/models/derivationRules.js:19-30 | the chain check passes exactly when the length equals the set size, every dependency is in the set, and the list is in default-sort order |
| DerivationRules.DistinctCardinality | src/models/derivationRules.js:22 | a duplicate-free list has as many elements as its set |
| DerivationRules.SubsetOfSameSize | src/models/derivationRules.js:22-23 | a subset of the same size is the whole set |
| DerivationRules.ChainCheckDistinct | src/models/derivationRules.js:19-30 | for duplicate-free dependencies, the check passes exactly when they list the set in string order |
| DerivationRules.ChainCheckAdmitsDuplicates | src/models/derivationRules.js:19-30 | `[1,1]` against `{1,2}` passes: the size comparison does not exclude repeats |
| DerivationRules.ChainCheckNumericOrderFails | src/models/derivationRules.js:24 | `[9,10]` fails the order comparison |
| DerivationRules.ChainCheckStringOrderPasses | src/models/derivationRules.js:24 | `[10,9]` passes the order comparison |
| DerivationRules.RemoveFirstCount | src/models/derivationRules.js:108-113 | removing the first occurrence drops exactly one copy; an absent value leaves the list unchanged |
| DerivationRules.SpliceOutFirst | src/models/derivationRules.js:108-113 | `splice(indexOf(x), 1)` removes the first occurrence of x |
| DerivationRules.CheckDischarge | src/models/derivationRules.js:108-116 | discharge passes exactly when the assumption is cited and the step's dependencies are the cited ones without it; otherwise it fails with one of the two messages |
| DerivationRules.ValidateDNI | src/models/derivationRules.js:32-40 | DNI passes exactly when the step reparses as `--(ref)` and the chain check passes |
| DerivationRules.ValidateDNE | src/models/derivationRules.js:42-50 | DNE passes exactly when the reference reparses as `--(step)` and the chain check passes |
| DerivationRules.ValidateMPP | src/models/derivationRules.js:52-71 | MPP fails on a non-implication; it passes exactly when the antecedent and the consequent match and the chain over both references passes |
| DerivationRules.ValidateMTT | src/models/derivationRules.js:73-94 | MTT fails on a non-implication; it passes exactly when the consequent's negation and the antecedent's negation match and the chain check passes |
| DerivationRules.ValidateCP | src/models/derivationRules.js:96-118 | CP fails on a non-implication step or a non-assumption first reference; it passes exactly when both halves match and the assumption is discharged |
| DerivationRules.ValidateCI | src/models/derivationRules.js:120-136 | CI fails on a non-conjunction; it passes exactly when the halves match the references and the chain over both passes |
| DerivationRules.ValidateCE | src/models/derivationRules.js:138-150 | CE fails on a non-conjunction reference; it passes exactly when the step is one half and the chain check passes |
| DerivationRules.ValidateDI | src/models/derivationRules.js:152-164 | DI fails on a non-disjunction; it passes exactly when the reference is one disjunct and the chain check passes |
| DerivationRules.CheckDisjunctionDischarge | src/models/derivationRules.js:187-211 | the six dependency checks of DE in source order, each with its message; it passes exactly when both assumptions are discharged as required |
| DerivationRules.ValidateDE | src/models/derivationRules.js:166-212 | DE fails on a non-disjunction first reference; otherwise the formula checks come in source order; it passes exactly when all formula and dependency conditions hold |
| DerivationRules.ValidateRAA | src/models/derivationRules.js:214-238 | RAA fails when the step is not the negation of the assumption; it passes exactly when the assumption is an assumption, the contradiction is formal and the assumption is discharged |
| DerivationRules.FindRuleIn | src/models/proofValidator.js:29 | `find` over a rule list returns a listed rule whose notation matches; None means no listed rule matches |
| DerivationRules.TableIndex | src/models/derivationRules.js:240-318 | every rule kind appears in the table |
| DerivationRules.FindRule | src/models/proofValidator.js:29 | the rule found matches the notation; None means no rule matches |
| DerivationRules.LeadingDigitsRun | src/models/proofValidator.js:38 | the leading run is all digits, and the next character is not a digit |
| DerivationRules.LeadingDigitsOf | src/models/proofValidator.js:38 | digits followed by a non-digit form exactly the leading run |
| DerivationRules.RunsOfNoDigits | src/models/proofValidator.js:38 | `match(/\d+/g)` of a string without digits is empty |
| DerivationRules.RunThenSeparator | src/models/proofValidator.js:38 | a digit run followed by a non-digit is the first number matched |
| DerivationRules.RunThenComma | src/models/proofValidator.js:38 | a digit run, then `,`, contributes its number and matching continues after the comma |
| DerivationRules.JoinedNatsSplit | src/models/derivationRules.js:265 | the joined line numbers are the first number, a comma and the joined rest |
| DerivationRules.LineRendering | src/models/derivationRules.js:251 | a line number renders as its decimal digits and reads back as itself |
| DerivationRules.JoinedNatsHaveNoSpace | src/models/derivationRules.js:265 | the joined line numbers contain no space |
| DerivationRules.RunsOfJoinedNats | src/models/proofValidator.js:38 | the digit runs of the written line numbers, followed by the rule word, are exactly those line numbers |
| DerivationRules.IndexOfSeparator | src/models/derivationRules.js:265 | the first separator sits right after a prefix without separators |
| DerivationRules.JoinedNatsAreDigitGroups | src/models/derivationRules.js:265-266 | written line numbers match the `\d+(,)\d+...` part of the notation pattern |
| DerivationRules.CutAt | src/models/proofValidator.js:38 | a string is its prefix, one character and its suffix |
| DerivationRules.FirstDigitGroup | src/models/derivationRules.js:266 | a comma-separated digit group with a comma after the first run splits into that run and the remaining groups |
| DerivationRules.LastRun | src/models/proofValidator.js:38 | one run followed by text without digits yields that run alone |
| DerivationRules.DigitGroupsRuns | src/models/proofValidator.js:38 | a notation whose pattern holds n digit groups cites exactly n lines |
| DerivationRules.TypeWordHasNoDigits | src/models/derivationRules.js:240-318 | no rule's type word contains a digit |
| DerivationRules.NotationShape | src/models/derivationRules.js:240-318 | written line numbers followed by a type word form the pattern's digit groups, and their runs are the numbers |
| DerivationRules.NotationRoundTrip | src/models/derivationRules.js:240-318 | every notation `getNotation` writes is recognised by the same rule's `matchNotation`, and cites exactly the lines given |
| DerivationRules.NotationsDisjoint | src/models/derivationRules.js:240-318 | no notation matches two rules |
| DerivationRules.FindRuleOfNotation | src/models/derivationRules.js:240-318 | looking up a written notation finds the rule that wrote it |
| DerivationRules.MatchedNotationArity | src/models/derivationRules.js:240-318 | a matched non-assumption notation cites exactly as many lines as the rule's validator takes |
| ProofValidator.CitedAssumptionsHold | src/models/proofValidator.js:7-13 | the loop holds exactly when every cited line exists and states an assumption; a missing line is a fault |
| ProofValidator.ConclusionAssertiveHolds | src/models/proofValidator.js:3-14 | the conclusion is asserted exactly when the last step's formula is the conclusion, it cites as many lines as there are assumptions, and every cited line exists and states some assumption |
| ProofValidator.IsConclusionAssertive | src/models/proofValidator.js:3-14 | the loop computes exactly `ConclusionAssertive` |
| ProofValidator.ReferencedSteps | src/models/proofValidator.js:39 | `lines.map(l => argument[l - 1])`, position by position |
| ProofValidator.StepCheckOutcomes | src/models/proofValidator.js:28-41 | an unmatched notation fails with `Derivation Rule not found for:`; an assumption passes exactly when it depends on itself alone; a passing step's notation names a rule |
| ProofValidator.StepOfNotation | src/models/proofValidator.js:28-41 | a step written with a rule's `getNotation` is checked by that rule against exactly the steps it cites |
| ProofValidator.AssumptionStepIff | src/models/proofValidator.js:29-35 | a step noted `A` passes exactly when it depends on its own line alone |
| ProofValidator.MppStepIff | src/models/proofValidator.js:29-40 | a step noted `a,b MPP` passes exactly when line a is an implication whose antecedent reparses as line b's formula and whose consequent reparses as the step's, and the dependency chain over both lines passes |
| ProofValidator.Checks | src/models/proofValidator.js:27-42 | one outcome per step |
| ProofValidator.FirstFailurePass | src/models/proofValidator.js:27-43 | the steps pass exactly when every step passes |
| ProofValidator.FirstFailureIsFirst | src/models/proofValidator.js:27-43 | a failure is the outcome of the first step that does not pass; all earlier steps pass |
| ProofValidator.CheckSteps | src/models/proofValidator.js:27-43 | the loop computes exactly the first non-passing outcome |
| ProofValidator.ValidateProof | src/models/proofValidator.js:21-44 | an empty argument fails with `No Argument given.`; an unasserted conclusion fails with `Argument does not assert Assertion.`; otherwise the outcome is that of the first failing step, or Pass |
| ExampleArgument.AssertionOfParses | src/models/formulaParser.js:186-191 | an assertion whose two assumptions and conclusion parse holds exactly their trees |
| ExampleArgument.ExampleAssertion | src/EXAMPLE_DATA.js:4 | `constructAssertion(['P>(P>Q)', 'P'], 'Q')` builds the trees of P>(P>Q) and P, and the leaf Q |
| ExampleArgument.ExampleFormulas | src/EXAMPLE_DATA.js:9-27 | the four step strings parse to the trees the example steps hold |
| ExampleArgument.ExampleConclusion | src/models/proofValidator.js:3-14 | the last step states Q and cites lines 1 and 2, which state the two assumptions, so the conclusion is asserted |
| ExampleArgument.ExampleAssumptionStep | src/EXAMPLE_DATA.js:6-17 | steps 1 and 2, noted `A`, pass |
| ExampleArgument.ExampleThirdStep | src/EXAMPLE_DATA.js:18-23 | step 3, `1,2 MPP`, passes: the consequent `(P>Q)` of line 1 reparses as `P>Q` |
| ExampleArgument.ExampleFourthStep | src/EXAMPLE_DATA.js:24-29 | step 4, `3,2 MPP`, passes: the consequent of `P>Q` is Q |
| ExampleArgument.ExampleArgumentValid | tests/unit/models/proofValidator.spec.js:48-50 | the example's conclusion is asserted and every step passes |
| ExampleArgument.ValidateExample | src/EXAMPLE_DATA.js:3-31 | `validateProof` of the example assertion and argument returns true |
| ExampleArgument.AssumptionArgumentValid | tests/unit/models/proofValidator.spec.js:44-46 | from the assumption P, the single assumption step proves P: the conclusion is asserted and the step passes |
| ExampleArgument.ValidateAssumptionExample | tests/unit/models/proofValidator.spec.js:44-46 | `validateProof` of P therefore P with the one assumption step returns true |
| ExampleArgument.MismatchedConclusion | tests/unit/models/proofValidator.spec.js:56-59 | an argument ending in P does not assert an assertion whose conclusion is Q |
| ExampleArgument.ValidateMismatchedExample | tests/unit/models/proofValidator.spec.js:56-59 | `validateProof` of that pair throws `Argument does not assert Assertion.` |
| SymbolMapper.ReplaceAll | src/models/symbolMapper.js:3 | a global replace leaves a string without the character unchanged; it removes the character when the replacement lacks it; it adds no other characters |
| SymbolMapper.ReplaceAllAppend | src/models/symbolMapper.js:3 | a global replace distributes over concatenation |
| SymbolMapper.ReplaceOne | src/models/symbolMapper.js:3 | one character is either replaced or kept |
| SymbolMapper.HtmlOfCharacter | src/models/symbolMapper.js:1-7 | the four replacements turn each connective into its entity and keep any other character |
| SymbolMapper.UnicodeOfCharacter | src/models/symbolMapper.js:9-15 | the four replacements turn each connective into its glyph and keep any other character |
| SymbolMapper.MapToHtmlAppend | src/models/symbolMapper.js:1-7 | the HTML mapping distributes over concatenation |
| SymbolMapper.MapToUnicodeAppend | src/models/symbolMapper.js:9-15 | the Unicode mapping distributes over concatenation |
| SymbolMapper.MapToHtmlPerCharacter | src/models/symbolMapper.js:1-7 | the chain of replacements equals the character-by-character entity mapping |
| SymbolMapper.MapToUnicodePerCharacter | src/models/symbolMapper.js:9-15 | the chain of replacements equals the character-by-character glyph mapping |
| SymbolMapper.UnicodeHasNoAsciiConnectives | src/models/symbolMapper.js:9-15 | no ASCII connective survives the Unicode mapping |
| SymbolMapper.HtmlHasNoBareConnectives | src/models/symbolMapper.js:1-7 | no `-`, `v` or `>` survives the HTML mapping |
| SymbolMapper.PlainTextUnchanged | src/models/symbolMapper.js:1-15 | text without connectives passes through both mappings unchanged |
| SymbolMapper.AmpersandMustComeFirst | src/models/symbolMapper.js:3 | escaping `&` after `-` would corrupt `&not;`, which is why `&` is replaced first |

## Left out

- Handles are tokens, not digits spliced into the string. In the source, handles 0 and 1 side by side (from `PQ`) fuse into `01`, and that residue is read as one number. In the model such input is refused as not well-formed.
- Digits typed in a formula are read by the source as handles: `P>0` parses as `P>P`, and `0` alone reads element 0 of an empty list and faults. In the model a digit is a plain character that no pass matches, so both are refused as not well-formed.
- FormulaParser.Flatten: a group whose content is not well-formed fails at once, naming its flattened content. The source reads the fused handles as a number, carries on, and fails later naming the whole input. For `P>&(PQ)` the source reports `Formula is not well-formed: P>&(PQ)`; the model reports `01`.
- The `isNaN` test on the residue is modelled as "exactly one handle". A residue such as whitespace, which `isNaN` would also accept, is not modelled.
- The regular-expression engine is not modelled. Each pattern of the passes and of `FORMULA_NODES` is a hand-written matcher over tokens.
- A JavaScript `TypeError` (reading a field of `undefined`) is modelled as `Fault` or `UndefinedElement`, with no message. The case where `constructFormula` finds no node for an element is one of these.
- A cited line that does not exist: the model reports `Fault` before the rule's validator runs. The source passes `undefined` to the validator, which may first throw a formula error and only later fault.
- `splice` in CP, RAA and DE is modelled on values (`SpliceOut`, `RemoveFirst`). The copies the source makes before splicing are not observable.
- DerivationRules.Reparse: that reparsing a rendered string gives the same string is not proved for every formula. A general proof would have to show that flattening the rendered string rebuilds the tree it came from, which needs a grammar for the substitution loop that the model does not have. It is proved for the inputs of ParserRuns: `P>(P>Q)`, `P>Q`, `PvQ`, `P` and `Q` reparse as themselves, and `(P>(P>Q))` reparses as `P>(P>Q)`. The validators compare reparsed strings as the source does, except for a doubled group (next line).
- FormulaParser.ParseFormulaString: it builds on the corrected ConstructFormula (see Findings), so a doubled group renders with one layer. With conclusion `P>((P>Q))` and last step `P>(P>Q)`, the source renders the conclusion as `P>((P>Q))` and the proof fails with `Argument does not assert Assertion.`. The model renders both as `P>(P>Q)` and goes on to check the steps. DerivationRules.Reparse and FormulaParser.ConstructAssertion inherit this.
- FormulaParser.ConstructAssertion: a doubled group in an assumption or the conclusion renders with one layer, as above.
- FormulaParser.ParseFormulaString: which tree an input builds, and so the binding order (`-`, then `&` and `v`, then `>`), is proved only for the fifteen inputs of ParserRuns, not for every string. The model follows the substitution loop but does not characterise its result by a grammar. The long input `(P>Q)&((-P)vP)>Q&-((-SvP)>Q)` of tests/unit/models/formulaParser.spec.js:61-68 is not among them: its 23 substitutions, worked out by the solver on concrete lists, need more resources per lemma than the proofs here are allowed.
- The conclusion check matches cited lines to assumptions by membership, as the source does. It is not a bijection, and the model does not make it one.
- The Vue components, the router, the store and the unit tests are not part of this model.
- FormulaParser.ConstructFormulaAsWritten: its string is stated up to parentheses (ParserText.AsWrittenKeepsSymbols), for a non-group element as its body, and for a group by its outer characters. Its rendering of a doubled group is what the Findings row is about.

## Findings

| source | as written | input that shows it | evidently intended | confidence | as-written member | corrected member |
|---|---|---|---|---|---|---|
| src/models/formulaParser.js:116-120 | a group's string wraps the centre's string, which already carries parentheses when the centre is itself a kept group | `P>((P>Q))` keeps both layers: its string is `P>((P>Q))` | every node's string is its body in at most one pair of parentheses (`P>(P>Q)`), as for any other redundant parentheses | medium, not executed | FormulaParser.AsWrittenDoublesNestedGroup | FormulaParser.ConstructFormula |
