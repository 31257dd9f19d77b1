/**
 * The proof checker of src/models/proofValidator.js.
 *
 * An argument is a list of steps numbered from 1. The last step must derive
 * the assertion's conclusion from as many lines as the assertion has
 * assumptions, each of them one of the assumptions; then every step is
 * checked, in order, by the rule its notation names, against the lines the
 * notation cites. The first failing check decides the outcome.
 */
module ProofValidator {
  import opened Wrappers
  import opened FormulaParser
  import opened DerivationRules

  const NoArgument := "No Argument given."
  const NotAssertive := "Argument does not assert Assertion."

  function RuleNotFound(notation: string): string {
    "Derivation Rule not found for: " + notation
  }

  /** `assumptionList.find(a => a.string === t)` finds something. */
  predicate Asserted(assumptions: seq<Node>, t: string) {
    exists a :: a in assumptions && a.text == t
  }

  /** Every cited line exists: `argument[l - 1]` is defined. */
  predicate LinesExist(lines: seq<int>, argument: seq<Step>) {
    forall j :: 0 <= j < |lines| ==> 1 <= lines[j] <= |argument|
  }

  /**
   * The loop of `isConclusionAssertive` over the conclusion's dependencies:
   * false at the first cited step whose formula is not an assumption, None
   * (reading a field of `undefined`) at the first line that does not exist.
   */
  function CitedAssumptions(assumptions: seq<Node>, argument: seq<Step>, deps: seq<int>): Option<bool> {
    if deps == [] then Some(true)
    else if !(1 <= deps[0] <= |argument|) then None
    else if !Asserted(assumptions, argument[deps[0] - 1].formula.text) then Some(false)
    else CitedAssumptions(assumptions, argument, deps[1..])
  }

  /** `isConclusionAssertive`, with None where the source throws a TypeError. */
  function ConclusionAssertive(assertion: Assertion, argument: seq<Step>): Option<bool> {
    if argument == [] then None
    else
      var conclusionStep := argument[|argument| - 1];
      if assertion.conclusion.text != conclusionStep.formula.text then Some(false)
      else if |assertion.assumptionList| != |conclusionStep.dependencies| then Some(false)
      else CitedAssumptions(assertion.assumptionList, argument, conclusionStep.dependencies)
  }

  /** The loop holds exactly when every cited line exists and states an assumption. */
  lemma {:induction false} CitedAssumptionsHold(assumptions: seq<Node>, argument: seq<Step>, deps: seq<int>)
    ensures CitedAssumptions(assumptions, argument, deps) == Some(true) <==>
      LinesExist(deps, argument) && forall j :: 0 <= j < |deps| ==> Asserted(assumptions, argument[deps[j] - 1].formula.text)
    ensures CitedAssumptions(assumptions, argument, deps) == None ==> !LinesExist(deps, argument)
  {
    if deps != [] {
      CitedAssumptionsHold(assumptions, argument, deps[1..]);
      assert forall j :: 1 <= j < |deps| ==> deps[1..][j - 1] == deps[j];
    }
  }

  /** The conclusion is asserted exactly when it is the last step's formula, with one cited assumption per assumption. */
  lemma ConclusionAssertiveHolds(assertion: Assertion, argument: seq<Step>)
    requires argument != []
    ensures var c := argument[|argument| - 1];
      ConclusionAssertive(assertion, argument) == Some(true) <==>
        assertion.conclusion.text == c.formula.text
        && |assertion.assumptionList| == |c.dependencies|
        && LinesExist(c.dependencies, argument)
        && forall j :: 0 <= j < |c.dependencies| ==> Asserted(assertion.assumptionList, argument[c.dependencies[j] - 1].formula.text)
  {
    var c := argument[|argument| - 1];
    CitedAssumptionsHold(assertion.assumptionList, argument, c.dependencies);
  }

  method IsConclusionAssertive(assertion: Assertion, argument: seq<Step>) returns (r: Option<bool>)
    ensures r == ConclusionAssertive(assertion, argument)
  {
    if argument == [] {
      return None;
    }
    var conclusionStep := argument[|argument| - 1];
    if assertion.conclusion.text != conclusionStep.formula.text {
      return Some(false);
    }
    var deps := conclusionStep.dependencies;
    if |assertion.assumptionList| != |deps| {
      return Some(false);
    }
    var i := 0;
    while i < |deps|
      invariant 0 <= i <= |deps|
      invariant CitedAssumptions(assertion.assumptionList, argument, deps)
             == CitedAssumptions(assertion.assumptionList, argument, deps[i..])
    {
      assert deps[i..][1..] == deps[i + 1..];
      var l := deps[i];
      if !(1 <= l <= |argument|) {
        return None;
      }
      if !Asserted(assertion.assumptionList, argument[l - 1].formula.text) {
        return Some(false);
      }
      i := i + 1;
    }
    return Some(true);
  }

  /** `lines.map(l => argument[l - 1])`. */
  function ReferencedSteps(lines: seq<int>, argument: seq<Step>): (refs: seq<Step>)
    requires LinesExist(lines, argument)
    ensures |refs| == |lines| && forall j :: 0 <= j < |lines| ==> refs[j] == argument[lines[j] - 1]
  {
    seq(|lines|, j requires 0 <= j < |lines| => argument[lines[j] - 1])
  }

  /**
   * The check of one step: the first rule whose notation matches; an
   * assumption is validated alone, any other rule against the lines its
   * notation cites. A cited line that does not exist is a fault.
   */
  function StepCheck(argument: seq<Step>, i: nat): Check
    requires i < |argument|
  {
    var step := argument[i];
    match FindRule(step.notation)
    case None => Fail(RuleNotFound(step.notation))
    case Some(k) =>
      if k == Assumption then ValidateAssumption(step)
      else
        var lines := DigitRuns(step.notation);
        if !LinesExist(lines, argument) then Fault
        else
          MatchedNotationArity(k, step.notation);
          Validate(k, step, ReferencedSteps(lines, argument))
  }

  /** A step whose notation no rule accepts is refused; an assumption is checked alone; a passing step names a rule. */
  lemma StepCheckOutcomes(argument: seq<Step>, i: nat)
    requires i < |argument|
    ensures FindRule(argument[i].notation).None? ==> StepCheck(argument, i) == Fail(RuleNotFound(argument[i].notation))
    ensures FindRule(argument[i].notation) == Some(Assumption) ==>
      (StepCheck(argument, i) == Pass <==> argument[i].dependencies == [argument[i].line])
    ensures StepCheck(argument, i) == Pass ==> exists k :: MatchNotation(k, argument[i].notation)
  {
  }

  /** A step written with `getNotation` of a rule is checked by that rule against exactly the lines it was given. */
  lemma StepOfNotation(argument: seq<Step>, i: nat, k: RuleKind, lines: seq<nat>)
    requires i < |argument| && k != Assumption && |lines| == Arity(k)
    requires argument[i].notation == GetNotation(k, lines)
    requires LinesExist(lines, argument)
    ensures StepCheck(argument, i) == Validate(k, argument[i], ReferencedSteps(lines, argument))
  {
    FindRuleOfNotation(k, lines);
    NotationRoundTrip(k, lines);
  }

  /** A step noted `A` passes exactly when it depends on its own line alone. */
  lemma AssumptionStepIff(argument: seq<Step>, i: nat)
    requires i < |argument| && argument[i].notation == "A"
    ensures StepCheck(argument, i) == Pass <==> argument[i].dependencies == [argument[i].line]
  {
    assert GetNotation(Assumption, []) == "A";
    FindRuleOfNotation(Assumption, []);
  }

  /**
   * A step noted `a,b MPP` passes exactly when line a states an implication
   * whose antecedent reparses as line b's formula and whose consequent
   * reparses as the step's, and the step depends on both lines'
   * dependencies.
   */
  lemma MppStepIff(argument: seq<Step>, i: nat, a: nat, b: nat)
    requires i < |argument| && 1 <= a <= |argument| && 1 <= b <= |argument|
    requires argument[i].notation == GetNotation(MPP, [a, b])
    ensures var imp, ant, step := argument[a - 1], argument[b - 1], argument[i];
      StepCheck(argument, i) == Pass <==>
        && imp.formula.formula.Implication?
        && ReparsesTo(imp.formula.formula.left.text, ant.formula.text)
        && ReparsesTo(imp.formula.formula.right.text, step.formula.text)
        && ChainOk(step.dependencies, Elems(imp.dependencies) + Elems(ant.dependencies))
  {
    StepOfNotation(argument, i, MPP, [a, b]);
    var refs := ReferencedSteps([a, b], argument);
    assert refs[0] == argument[a - 1] && refs[1] == argument[b - 1];
  }

  /** The outcome of every step's check, in order. */
  function Checks(argument: seq<Step>): (cs: seq<Check>)
    ensures |cs| == |argument|
  {
    seq(|argument|, (i: int) requires 0 <= i < |argument| => StepCheck(argument, i))
  }

  /** The first outcome that is not Pass, or Pass when there is none. */
  function FirstFailure(cs: seq<Check>): Check {
    if cs == [] then Pass
    else if cs[0] != Pass then cs[0]
    else FirstFailure(cs[1..])
  }

  /** The outcomes pass exactly when every one of them does. */
  lemma {:induction false} FirstFailurePass(cs: seq<Check>)
    ensures FirstFailure(cs) == Pass <==> forall j :: 0 <= j < |cs| ==> cs[j] == Pass
  {
    if cs != [] {
      FirstFailurePass(cs[1..]);
      assert forall j :: 1 <= j < |cs| ==> cs[1..][j - 1] == cs[j];
    }
  }

  /** A failing outcome is the outcome at the first position that does not pass. */
  lemma {:induction false} FirstFailureIsFirst(cs: seq<Check>) returns (k: nat)
    requires FirstFailure(cs) != Pass
    ensures k < |cs| && cs[k] == FirstFailure(cs)
    ensures forall j :: 0 <= j < k ==> cs[j] == Pass
  {
    if cs[0] != Pass {
      k := 0;
    } else {
      var k' := FirstFailureIsFirst(cs[1..]);
      k := k' + 1;
      assert forall j :: 1 <= j <= k ==> cs[1..][j - 1] == cs[j];
    }
  }

  /** The loop of `validateProof`: the steps in order, stopping at the first that does not pass. */
  method CheckSteps(argument: seq<Step>) returns (r: Check)
    ensures r == FirstFailure(Checks(argument))
  {
    var i := 0;
    while i < |argument|
      invariant 0 <= i <= |argument|
      invariant FirstFailure(Checks(argument)) == FirstFailure(Checks(argument)[i..])
    {
      var c := StepCheck(argument, i);
      assert Checks(argument)[i..][0] == c;
      assert Checks(argument)[i..][1..] == Checks(argument)[i + 1..];
      if c != Pass {
        return c;
      }
      i := i + 1;
    }
    return Pass;
  }

  /** `validateProof`: Pass for `return true`, Fail for a thrown Error, Fault for a TypeError. */
  method ValidateProof(assertion: Assertion, argument: seq<Step>) returns (r: Check)
    ensures argument == [] ==> r == Fail(NoArgument)
    ensures argument != [] && ConclusionAssertive(assertion, argument) == None ==> r == Fault
    ensures argument != [] && ConclusionAssertive(assertion, argument) == Some(false) ==> r == Fail(NotAssertive)
    ensures argument != [] && ConclusionAssertive(assertion, argument) == Some(true) ==> r == FirstFailure(Checks(argument))
  {
    if argument == [] {
      return Fail(NoArgument);
    }
    var assertive := IsConclusionAssertive(assertion, argument);
    if assertive.None? {
      return Fault;
    }
    if !assertive.value {
      return Fail(NotAssertive);
    }
    r := CheckSteps(argument);
  }
}
