/**
 * The argument of src/EXAMPLE_DATA.js, which is also the `A, MPP` case of
 * tests/unit/models/proofValidator.spec.js: from the assumptions P>(P>Q)
 * and P, step 3 derives P>Q by MPP from lines 1 and 2, and step 4 derives
 * Q by MPP from lines 3 and 2. The assertion and the step formulas are
 * parsed from their strings, as the source builds them.
 */
module ExampleArgument {
  import opened Wrappers
  import opened FormulaParser
  import opened DerivationRules
  import opened ProofValidator
  import opened ParserExamples
  import opened ParserRuns

  /** The tree of `P>Q`, unparenthesised. */
  function PQ(): Node {
    Node(Implication(Leaf('P'), Leaf('Q')), false, "P>Q")
  }

  /** The tree of `P>(P>Q)`: P implies the kept group `(P>Q)`. */
  function NestedPQ(): Node {
    Node(Implication(Leaf('P'), Node(Implication(Leaf('P'), Leaf('Q')), true, "(P>Q)")), false, "P>(P>Q)")
  }

  /** The four steps, with the trees their formula strings parse to. */
  function ExampleSteps(): seq<Step> {
    [Step([1], 1, NestedPQ(), "A"),
     Step([2], 2, Leaf('P'), "A"),
     Step([1, 2], 3, PQ(), "1,2 MPP"),
     Step([1, 2], 4, Leaf('Q'), "3,2 MPP")]
  }

  /** An assertion whose two assumptions and conclusion parse holds their trees. */
  lemma AssertionOfParses(assumptions: seq<string>, conclusion: string, t0: Node, t1: Node, c: Node)
    requires |assumptions| == 2
    requires ParseFormulaString(assumptions[0]) == Success(t0) && ParseFormulaString(assumptions[1]) == Success(t1)
    requires ParseFormulaString(conclusion) == Success(c)
    ensures ConstructAssertion(assumptions, conclusion) == Success(Assertion([t0, t1], c))
  {
    var r := ConstructAssertion(assumptions, conclusion);
    assert r.Success?;
    assert r.value.assumptionList == [t0, t1];
  }

  /** `constructAssertion(['P>(P>Q)', 'P'], 'Q')` builds the two assumptions and the conclusion Q. */
  lemma ExampleAssertion(assumptions: seq<string>, conclusion: string)
    requires |assumptions| == 2 && assumptions[0] == "P>(P>Q)" && assumptions[1] == "P" && conclusion == "Q"
    ensures ConstructAssertion(assumptions, conclusion) == Success(Assertion([NestedPQ(), Leaf('P')], Leaf('Q')))
  {
    var a0, a1 := assumptions[0], assumptions[1];
    NestedImplicationParses(a0);
    LonePParses(a1);
    LoneQParses(conclusion);
    AssertionOfParses(assumptions, conclusion, NestedPQ(), Leaf('P'), Leaf('Q'));
  }

  /** The step formulas are `parseFormulaString` of `P>(P>Q)`, `P`, `P>Q` and `Q`. */
  lemma ExampleFormulas(f1: string, f2: string, f3: string, f4: string)
    requires f1 == "P>(P>Q)" && f2 == "P" && f3 == "P>Q" && f4 == "Q"
    ensures ParseFormulaString(f1) == Success(NestedPQ())
    ensures ParseFormulaString(f2) == Success(Leaf('P'))
    ensures ParseFormulaString(f3) == Success(PQ())
    ensures ParseFormulaString(f4) == Success(Leaf('Q'))
  {
    NestedImplicationParses(f1);
    LonePParses(f2);
    PlainImplicationParses(f3);
    LoneQParses(f4);
  }

  /** The last step states Q and cites lines 1 and 2, which state the two assumptions. */
  lemma ExampleConclusion(assertion: Assertion, argument: seq<Step>)
    requires assertion == Assertion([NestedPQ(), Leaf('P')], Leaf('Q')) && argument == ExampleSteps()
    ensures ConclusionAssertive(assertion, argument) == Some(true)
  {
    assert Asserted(assertion.assumptionList, argument[0].formula.text) by {
      assert assertion.assumptionList[0] in assertion.assumptionList;
    }
    assert Asserted(assertion.assumptionList, argument[1].formula.text) by {
      assert assertion.assumptionList[1] in assertion.assumptionList;
    }
    ConclusionAssertiveHolds(assertion, argument);
  }

  /** Steps 1 and 2 are assumptions that depend on themselves alone. */
  lemma ExampleAssumptionStep(argument: seq<Step>, i: nat)
    requires argument == ExampleSteps() && i < 2
    ensures StepCheck(argument, i) == Pass
  {
    AssumptionStepIff(argument, i);
  }

  /** The notation of step 3 is `getNotation` of MPP for lines 1 and 2. */
  lemma ThirdNotation(argument: seq<Step>)
    requires argument == ExampleSteps()
    ensures argument[2].notation == GetNotation(MPP, [1, 2])
  {
  }

  /** Step 3 depends on lines 1 and 2, the union of its references' dependencies, in string order. */
  lemma ThirdChain(argument: seq<Step>)
    requires argument == ExampleSteps()
    ensures ChainOk(argument[2].dependencies, Elems(argument[0].dependencies) + Elems(argument[1].dependencies))
  {
    ExampleChain();
  }

  /** The antecedent of line 1, `P`, reparses as line 2's formula. */
  lemma ThirdAntecedent(argument: seq<Step>)
    requires argument == ExampleSteps()
    ensures ReparsesTo(argument[0].formula.formula.left.text, argument[1].formula.text)
  {
    var left := argument[0].formula.formula.left.text;
    LonePParses(left);
  }

  /** The consequent of line 1, `(P>Q)`, reparses as `P>Q`, step 3's formula. */
  lemma ThirdConsequent(argument: seq<Step>)
    requires argument == ExampleSteps()
    ensures ReparsesTo(argument[0].formula.formula.right.text, argument[2].formula.text)
  {
    var right := argument[0].formula.formula.right.text;
    GroupedImplicationParses(right);
  }

  /** Step 3: P>(P>Q) with antecedent P gives its consequent, reparsed from `(P>Q)` as `P>Q`. */
  lemma ExampleThirdStep(argument: seq<Step>)
    requires argument == ExampleSteps()
    ensures StepCheck(argument, 2) == Pass
  {
    ThirdNotation(argument);
    ThirdChain(argument);
    ThirdAntecedent(argument);
    ThirdConsequent(argument);
    MppStepIff(argument, 2, 1, 2);
  }

  /** The notation of step 4 is `getNotation` of MPP for lines 3 and 2. */
  lemma FourthNotation(argument: seq<Step>)
    requires argument == ExampleSteps()
    ensures argument[3].notation == GetNotation(MPP, [3, 2])
  {
  }

  /** Step 4 depends on lines 1 and 2, the union of its references' dependencies, in string order. */
  lemma FourthChain(argument: seq<Step>)
    requires argument == ExampleSteps()
    ensures ChainOk(argument[3].dependencies, Elems(argument[2].dependencies) + Elems(argument[1].dependencies))
  {
    ExampleChain();
  }

  /** The antecedent of line 3, `P`, reparses as line 2's formula. */
  lemma FourthAntecedent(argument: seq<Step>)
    requires argument == ExampleSteps()
    ensures ReparsesTo(argument[2].formula.formula.left.text, argument[1].formula.text)
  {
    var left := argument[2].formula.formula.left.text;
    LonePParses(left);
  }

  /** The consequent of line 3, `Q`, reparses as step 4's formula. */
  lemma FourthConsequent(argument: seq<Step>)
    requires argument == ExampleSteps()
    ensures ReparsesTo(argument[2].formula.formula.right.text, argument[3].formula.text)
  {
    var right := argument[2].formula.formula.right.text;
    LoneQParses(right);
  }

  /** Step 4: P>Q with antecedent P gives its consequent Q. */
  lemma ExampleFourthStep(argument: seq<Step>)
    requires argument == ExampleSteps()
    ensures StepCheck(argument, 3) == Pass
  {
    FourthNotation(argument);
    FourthChain(argument);
    FourthAntecedent(argument);
    FourthConsequent(argument);
    MppStepIff(argument, 3, 3, 2);
  }

  /** Lines 1 and 2, in that order, are in string order and list the union of the references' dependencies. */
  lemma ExampleChain()
    ensures ChainOk([1, 2], Elems([1]) + Elems([2]))
    ensures ChainOk([1, 2], Elems([1, 2]) + Elems([2]))
  {
    assert Elems([1]) == {1} && Elems([2]) == {2} && Elems([1, 2]) == {1, 2};
    assert {1} + {2} == {1, 2} && {1, 2} + {2} == {1, 2};
    assert |{1, 2}| == 2;
    assert StringOrder.NumLeq(1, 2);
  }

  /** Four passing steps make the whole check pass. */
  lemma FourStepsPass(argument: seq<Step>)
    requires |argument| == 4
    requires forall j :: 0 <= j < 4 ==> StepCheck(argument, j) == Pass
    ensures FirstFailure(Checks(argument)) == Pass
  {
    var cs := Checks(argument);
    assert forall j :: 0 <= j < |cs| ==> cs[j] == StepCheck(argument, j);
    FirstFailurePass(cs);
  }

  /** Every step of the example passes its rule, and the conclusion asserts the assertion. */
  lemma ExampleArgumentValid(assertion: Assertion, argument: seq<Step>)
    requires assertion == Assertion([NestedPQ(), Leaf('P')], Leaf('Q')) && argument == ExampleSteps()
    ensures ConclusionAssertive(assertion, argument) == Some(true)
    ensures FirstFailure(Checks(argument)) == Pass
  {
    ExampleConclusion(assertion, argument);
    forall j | 0 <= j < 4
      ensures StepCheck(argument, j) == Pass
    {
      if j < 2 {
        ExampleAssumptionStep(argument, j);
      } else if j == 2 {
        ExampleThirdStep(argument);
      } else {
        ExampleFourthStep(argument);
      }
    }
    FourStepsPass(argument);
  }

  /** `validateProof(assertion, argument)` on the example returns true. */
  method ValidateExample() returns (r: Check)
    ensures r == Pass
  {
    var assertion := Assertion([NestedPQ(), Leaf('P')], Leaf('Q'));
    var argument := ExampleSteps();
    r := ValidateProof(assertion, argument);
    ExampleArgumentValid(assertion, argument);
  }

  /** The one-step argument of the same tests: `P`, noted `A`, depending on line 1. */
  function AssumptionSteps(): seq<Step> {
    [Step([1], 1, Leaf('P'), "A")]
  }

  /** From the assumption P, the one assumption step proves P. */
  lemma AssumptionArgumentValid(assertion: Assertion, argument: seq<Step>)
    requires assertion == Assertion([Leaf('P')], Leaf('P')) && argument == AssumptionSteps()
    ensures ConclusionAssertive(assertion, argument) == Some(true)
    ensures FirstFailure(Checks(argument)) == Pass
  {
    assert Asserted(assertion.assumptionList, argument[0].formula.text) by {
      assert assertion.assumptionList[0] in assertion.assumptionList;
    }
    ConclusionAssertiveHolds(assertion, argument);
    AssumptionStepIff(argument, 0);
    var cs := Checks(argument);
    assert cs[0] == StepCheck(argument, 0);
    FirstFailurePass(cs);
  }

  /** `validateProof` of the assumption P and the one-step argument returns true. */
  method ValidateAssumptionExample() returns (r: Check)
    ensures r == Pass
  {
    var assertion := Assertion([Leaf('P')], Leaf('P'));
    var argument := AssumptionSteps();
    r := ValidateProof(assertion, argument);
    AssumptionArgumentValid(assertion, argument);
  }

  /** The one-step argument ends in P, not Q, so it does not assert P>(P>Q), P therefore Q. */
  lemma MismatchedConclusion(assertion: Assertion, argument: seq<Step>)
    requires assertion == Assertion([NestedPQ(), Leaf('P')], Leaf('Q')) && argument == AssumptionSteps()
    ensures ConclusionAssertive(assertion, argument) == Some(false)
  {
    assert argument[0].formula.text == "P" && assertion.conclusion.text == "Q";
  }

  /** `validateProof` of that assertion and the one-step argument throws `Argument does not assert Assertion.`. */
  method ValidateMismatchedExample() returns (r: Check)
    ensures r == Fail(NotAssertive)
  {
    var assertion := Assertion([NestedPQ(), Leaf('P')], Leaf('Q'));
    var argument := AssumptionSteps();
    r := ValidateProof(assertion, argument);
    MismatchedConclusion(assertion, argument);
  }
}
